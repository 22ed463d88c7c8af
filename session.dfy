/**
 The state `main` keeps between button presses: the scroll position, the last
 description, and what the 240x280 panel shows. The up and down buttons move the
 position by one line; the down button bounds it with its own estimate of the lines
 that fit, `(height - 4) // 12`, which is not the renderer's `(height - 28) // 16`.
 That estimate is modelled as written, and what it makes the panel show is proved
 below.

 The camera, the orientation and description requests and their replies are not
 part of this model: a capture is given as its outcome.
 */
module Session {
  import opened Wrappers
  import opened TextLayout
  import opened Viewport

  /** The panel `main` drives, and the messages it shows. */
  const Panel: Size := Size(240, 280)
  const ReadyMessage: string := "Image Analyzer Ready\nPress CAPTURE button to take a photo"
  const CapturingMessage: string := "Capturing image..."
  const CaptureFailedMessage: string := "Failed to capture image. Please try again."
  const DetectingMessage: string := "Detecting orientation..."
  const AnalyzingMessage: string := "Analyzing image content..."
  const GeneratingMessage: string := "Generating description..."

  /** How a press of the capture button ends: the camera command failed; the picture
      was taken but turning it failed (after the orientation message was shown); or
      both requests ran and gave this description (a reply or an error message). */
  datatype CaptureOutcome = CameraFailed | RotationFailed | Described(description: string)

  /** The down button's `max(0, total_lines - (height - 4) // 12)`. */
  function ButtonMaxScroll(totalLines: int, displayHeight: int): (bound: int)
    ensures bound >= 0 && bound >= totalLines - (displayHeight - 4) / 12
  {
    var maxVisible := (displayHeight - 4) / 12;
    if totalLines - maxVisible > 0 then totalLines - maxVisible else 0
  }

  /** The position after the up button: one line up, unless there is no description
      or the position is already at the top. */
  function ScrollUp(scroll: int, described: bool): int
  {
    if described && scroll > 0 then scroll - 1 else scroll
  }

  /** The position after the down button: one line down, unless there is no
      description or the position has reached the button's bound. */
  function ScrollDown(scroll: int, totalLines: int, displayHeight: int, described: bool): int
  {
    if described && scroll < ButtonMaxScroll(totalLines, displayHeight) then scroll + 1 else scroll
  }

  /** On the 240x280 panel the buttons allow 23 lines fewer than there are, the
      renderer 15. */
  lemma PanelBounds(totalLines: int)
    ensures ButtonMaxScroll(totalLines, 280) == if totalLines > 23 then totalLines - 23 else 0
    ensures MaxVisibleLines(280) == 15
  {
  }

  /** Neither button ever takes the position below 0 or above the down button's bound,
      and each moves it by at most one line. */
  lemma ButtonsKeepRange(scroll: int, totalLines: int, displayHeight: int, described: bool)
    requires 0 <= scroll <= ButtonMaxScroll(totalLines, displayHeight)
    ensures 0 <= ScrollUp(scroll, described) <= ButtonMaxScroll(totalLines, displayHeight)
    ensures 0 <= ScrollDown(scroll, totalLines, displayHeight, described) <= ButtonMaxScroll(totalLines, displayHeight)
    ensures scroll - 1 <= ScrollUp(scroll, described) <= scroll
    ensures scroll <= ScrollDown(scroll, totalLines, displayHeight, described) <= scroll + 1
  {
  }

  /** Up undoes down and down undoes up, away from the ends of the range. */
  lemma UpDownInverse(scroll: int, totalLines: int, displayHeight: int)
    ensures 0 <= scroll < ButtonMaxScroll(totalLines, displayHeight) ==>
      ScrollUp(ScrollDown(scroll, totalLines, displayHeight, true), true) == scroll
    ensures 0 < scroll <= ButtonMaxScroll(totalLines, displayHeight) ==>
      ScrollDown(ScrollUp(scroll, true), totalLines, displayHeight, true) == scroll
  {
  }

  /** On the 240x280 panel the down button's bound never exceeds the renderer's, so a
      position the buttons reach is never clamped by the renderer. */
  lemma ButtonBoundWithinRenderer(totalLines: nat)
    ensures ButtonMaxScroll(totalLines, 280) <= if totalLines > 15 then totalLines - 15 else 0
  {
  }

  /** What the buttons make the panel show never reaches the end of a long description:
      with 17 or more lines, every window rendered at a position the buttons allow, or
      one line below it (the down button renders there first), stops short of the last
      line; with 23 or more lines, the last seven lines are never shown. */
  lemma TailNeverShown(totalLines: nat, scroll: int, pressedDown: bool)
    requires totalLines >= 17
    requires 0 <= scroll <= ButtonMaxScroll(totalLines, 280)
    ensures var position := if pressedDown then scroll + 1 else scroll;
      ClampScroll(position, totalLines, MaxVisibleLines(280)) + MaxVisibleLines(280) < totalLines
    ensures var position := if pressedDown then scroll + 1 else scroll;
      totalLines >= 23 ==> ClampScroll(position, totalLines, MaxVisibleLines(280)) + MaxVisibleLines(280) <= totalLines - 7
  {
  }

  /** At the down button's bound, pressing down leaves the position where it is but the
      panel shows the window one line further down. */
  lemma DownAtBoundShowsNextWindow(totalLines: nat, scroll: int)
    requires totalLines >= 16
    requires scroll == ButtonMaxScroll(totalLines, 280)
    ensures ScrollDown(scroll, totalLines, 280, true) == scroll
    ensures ClampScroll(scroll + 1, totalLines, MaxVisibleLines(280)) == scroll + 1
    ensures ClampScroll(scroll, totalLines, MaxVisibleLines(280)) == scroll
  {
  }

  /** One `display_text_on_lcd(text, scroll_position)` call. */
  datatype DisplayCall = DisplayCall(text: string, position: int)

  /** The globals of the script and the panel they drive. */
  class ImageAnalyzer {
    /** The width of a string in the display font. */
    const measure: Measure
    /** `current_scroll_position`. */
    var scroll: int
    /** `image_description`. */
    var description: string
    /** Every `display_text_on_lcd` call so far, oldest first. */
    var calls: seq<DisplayCall>

    /** `len(wrapped_text_lines)` for the current description. */
    function TotalLines(): nat
      reads this
    {
      |WrappedLines(description, measure, Panel)|
    }

    /** The position is never negative and never past the down button's bound. */
    predicate Valid()
      reads this
    {
      0 <= scroll <= ButtonMaxScroll(TotalLines(), Panel.height)
    }

    /** What the panel shows: the frame of the last call. */
    function Screen(): Frame
      reads this
      requires calls != []
    {
      var last := calls[|calls| - 1];
      Render(last.text, last.position, measure, Panel)
    }

    /** Start-up: the panel is set up and shows the ready message. */
    constructor (measure: Measure)
      ensures this.measure == measure
      ensures scroll == 0 && description == []
      ensures calls == [DisplayCall(ReadyMessage, 0)]
      ensures Valid()
    {
      this.measure := measure;
      scroll := 0;
      description := [];
      calls := [];
      new;
      Show(ReadyMessage, 0);
    }

    /** One `display_text_on_lcd(text, position)` call on the panel. */
    method Show(text: string, position: int)
      modifies this
      ensures calls == old(calls) + [DisplayCall(text, position)]
      ensures scroll == old(scroll) && description == old(description)
    {
      var _, _ := DisplayTextOnLcd(text, position, measure, Some(Panel));
      calls := calls + [DisplayCall(text, position)];
    }

    /** The same call, where its result (the number of wrapped lines) is used. */
    method ShowAndCount(text: string, position: int) returns (total: nat)
      modifies this
      ensures total == |WrappedLines(text, measure, Panel)|
      ensures calls == old(calls) + [DisplayCall(text, position)]
      ensures Screen() == Render(text, position, measure, Panel)
      ensures scroll == old(scroll) && description == old(description)
    {
      var shown;
      total, shown := DisplayTextOnLcd(text, position, measure, Some(Panel));
      calls := calls + [DisplayCall(text, position)];
    }

    /** The up button. */
    method PressUp()
      modifies this
      requires Valid()
      ensures Valid()
      ensures description == old(description)
      ensures scroll == ScrollUp(old(scroll), description != [])
      ensures calls == if description != [] && old(scroll) > 0
        then old(calls) + [DisplayCall(description, scroll)]
        else old(calls)
    {
      if description != [] {
        if scroll > 0 {
          scroll := scroll - 1;
          Show(description, scroll);
        }
      }
    }

    /** The down button: it first renders one line further down, then moves the position
        there only if that stays within its own bound, rendering again if it does. Either
        way the panel ends up showing the window one line below the old position. */
    method PressDown()
      modifies this
      requires Valid()
      ensures Valid()
      ensures description == old(description)
      ensures scroll == ScrollDown(old(scroll), TotalLines(), Panel.height, description != [])
      ensures description != [] ==>
        calls == old(calls) + [DisplayCall(description, old(scroll) + 1)]
          + (if scroll != old(scroll) then [DisplayCall(description, scroll)] else [])
      ensures description != [] ==> calls != [] && Screen() == Render(description, old(scroll) + 1, measure, Panel)
      ensures description == [] ==> calls == old(calls)
    {
      if description != [] {
        var total := ShowAndCount(description, scroll + 1);
        var maxScroll := ButtonMaxScroll(total, Panel.height);
        if scroll < maxScroll {
          scroll := scroll + 1;
          Show(description, scroll);
        }
      }
    }

    /** `capture_and_describe_image`, with the outcome of the capture and of the two
        requests given. */
    method CaptureAndDescribe(outcome: CaptureOutcome)
      modifies this
      ensures Valid()
      ensures scroll == 0
      ensures !outcome.Described? ==> description == old(description)
      ensures outcome.CameraFailed? ==>
        calls == old(calls) + [DisplayCall(CapturingMessage, 0), DisplayCall(CaptureFailedMessage, 0)]
      ensures outcome.RotationFailed? ==>
        calls == old(calls) + [DisplayCall(CapturingMessage, 0), DisplayCall(DetectingMessage, 0),
                               DisplayCall(CaptureFailedMessage, 0)]
      ensures outcome.Described? ==> description == outcome.description
      ensures outcome.Described? ==>
        calls == old(calls) + [DisplayCall(CapturingMessage, 0), DisplayCall(DetectingMessage, 0),
                               DisplayCall(AnalyzingMessage, 0), DisplayCall(GeneratingMessage, 0),
                               DisplayCall(description, 0)]
    {
      scroll := 0;
      Show(CapturingMessage, 0);
      if !outcome.CameraFailed? {
        Show(DetectingMessage, 0);
      }
      if !outcome.Described? {
        Show(CaptureFailedMessage, 0);
        return;
      }
      Show(AnalyzingMessage, 0);
      Show(GeneratingMessage, 0);
      description := outcome.description;
      Show(description, scroll);
    }

    /** The capture button: `main` shows the capturing message, then runs
        `capture_and_describe_image`, which shows it a second time. */
    method PressCapture(outcome: CaptureOutcome)
      modifies this
      ensures Valid()
      ensures scroll == 0
      ensures outcome.Described? ==> description == outcome.description
      ensures !outcome.Described? ==> description == old(description)
      ensures outcome.CameraFailed? ==>
        calls == old(calls) + [DisplayCall(CapturingMessage, 0), DisplayCall(CapturingMessage, 0),
                               DisplayCall(CaptureFailedMessage, 0)]
      ensures outcome.RotationFailed? ==>
        calls == old(calls) + [DisplayCall(CapturingMessage, 0), DisplayCall(CapturingMessage, 0),
                               DisplayCall(DetectingMessage, 0), DisplayCall(CaptureFailedMessage, 0)]
      ensures outcome.Described? ==>
        calls == old(calls) + [DisplayCall(CapturingMessage, 0), DisplayCall(CapturingMessage, 0),
                               DisplayCall(DetectingMessage, 0), DisplayCall(AnalyzingMessage, 0),
                               DisplayCall(GeneratingMessage, 0), DisplayCall(outcome.description, 0)]
    {
      Show(CapturingMessage, 0);
      CaptureAndDescribe(outcome);
    }
  }
}
