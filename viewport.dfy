/**
 The screen side of `display_text_on_lcd`: the layout constants, the clamp of the
 requested scroll position, the slice of wrapped lines that is visible, the draw loop
 that places them from the top padding down, and the size of the frame handed to the
 panel after the quarter turn. Pixels are not modelled: a frame is the list of text
 placements the draw loop makes.
 */
module Viewport {
  import opened Wrappers
  import opened TextLayout

  const FontSize: int := 14
  const HorizontalPadding: int := 10
  const TopPadding: int := 20
  const BottomPadding: int := 8
  /** `font_size + 2`. */
  const LineHeight: int := FontSize + 2

  /** `display_width - horizontal_padding * 2`. */
  function AvailableTextWidth(displayWidth: int): int
  {
    displayWidth - HorizontalPadding * 2
  }

  /** `(display_height - top_padding - bottom_padding) // line_height`, a floor division
      (negative on a panel shorter than the paddings). */
  function MaxVisibleLines(displayHeight: int): (m: int)
    ensures displayHeight >= TopPadding + BottomPadding ==> m >= 0
    ensures LineHeight * m <= displayHeight - TopPadding - BottomPadding < LineHeight * (m + 1)
  {
    (displayHeight - TopPadding - BottomPadding) / LineHeight
  }

  /** On the 240x280 panel the renderer shows 15 lines of at most 220 pixels. */
  lemma PanelLayout()
    ensures MaxVisibleLines(280) == 15 && AvailableTextWidth(240) == 220
  {
  }

  /** `max(0, min(scroll_position, max(0, n - max_visible_lines)))`. */
  function ClampScroll(scroll: int, n: nat, maxVisible: int): (start: int)
    ensures 0 <= start <= if n - maxVisible > 0 then n - maxVisible else 0
    ensures 0 <= scroll <= n - maxVisible ==> start == scroll
    ensures scroll <= 0 ==> start == 0
    ensures scroll >= n - maxVisible ==> start == (if n - maxVisible > 0 then n - maxVisible else 0)
  {
    var last := if n - maxVisible > 0 then n - maxVisible else 0;
    var s := if scroll < last then scroll else last;
    if s > 0 then s else 0
  }

  /** How Python resolves one bound of a slice of a sequence of length `n`. */
  function SliceBound(i: int, n: nat): (b: nat)
    ensures b <= n
    ensures 0 <= i ==> b == if i < n then i else n
    ensures i < 0 ==> b == if i + n > 0 then i + n else 0
  {
    if i < 0 then (if i + n > 0 then i + n else 0) else if i < n then i else n
  }

  /** `s[a:b]` on a Python list, negative bounds counting from the end. */
  function PySlice<T>(s: seq<T>, a: int, b: int): (r: seq<T>)
    ensures |r| <= |s|
  {
    var lo := SliceBound(a, |s|);
    var hi := SliceBound(b, |s|);
    if lo < hi then s[lo..hi] else []
  }

  /** `wrapped_text_lines[start_line:start_line + max_visible_lines]`. */
  function VisibleLines(lines: seq<string>, scroll: int, maxVisible: int): seq<string>
  {
    var start := ClampScroll(scroll, |lines|, maxVisible);
    PySlice(lines, start, start + maxVisible)
  }

  /** With a non-negative line budget the visible lines are the contiguous run that
      starts at the clamped position: as many as fit the budget, or all lines when
      there are fewer. */
  lemma VisibleLinesWindow(lines: seq<string>, scroll: int, maxVisible: int)
    requires maxVisible >= 0
    ensures var start := ClampScroll(scroll, |lines|, maxVisible);
      var end := if start + maxVisible < |lines| then start + maxVisible else |lines|;
      start <= end && VisibleLines(lines, scroll, maxVisible) == lines[start..end]
    ensures |VisibleLines(lines, scroll, maxVisible)|
         == if maxVisible < |lines| then maxVisible else |lines|
  {
  }

  /** One `draw.text((horizontal_padding, y_position), line)` call. */
  datatype Placement = Placement(x: int, y: int, text: string)

  /** How many lines the draw loop places before its bound stops it: line `j` is drawn
      exactly when its bottom, `top_padding + (j + 1) * line_height`, is within
      `display_height - bottom_padding`, and the bottoms only grow with `j`. */
  function DrawCount(n: nat, displayHeight: int): (k: nat)
    ensures k <= n
    ensures 0 < k ==> TopPadding + k * LineHeight <= displayHeight - BottomPadding
    ensures k < n ==> TopPadding + (k + 1) * LineHeight > displayHeight - BottomPadding
  {
    var m := MaxVisibleLines(displayHeight);
    if m < 0 then 0 else if m < n then m else n
  }

  /** The placements of the draw loop: the first `DrawCount` lines, one line height apart
      from the top padding down, all at the horizontal padding. */
  function Placements(visible: seq<string>, displayHeight: int): seq<Placement>
  {
    var k := DrawCount(|visible|, displayHeight);
    seq(k, j requires 0 <= j < k => Placement(HorizontalPadding, TopPadding + j * LineHeight, visible[j]))
  }

  /** The draw loop, with `y_position` advancing one line height per placed line. */
  method DrawLines(visible: seq<string>, displayHeight: int) returns (drawn: seq<Placement>)
    ensures drawn == Placements(visible, displayHeight)
  {
    drawn := [];
    var y := TopPadding;
    for i := 0 to |visible|
      invariant |drawn| == i && y == TopPadding + i * LineHeight
      invariant i <= DrawCount(|visible|, displayHeight)
      invariant forall j :: 0 <= j < i ==> drawn[j] == Placement(HorizontalPadding, TopPadding + j * LineHeight, visible[j])
    {
      if y + LineHeight <= displayHeight - BottomPadding {
        drawn := drawn + [Placement(HorizontalPadding, y, visible[i])];
        y := y + LineHeight;
      } else {
        break;
      }
    }
  }

  /** The draw bound never cuts the visible window: the line budget is exactly the
      number of lines whose bottom fits, so every visible line is placed. */
  lemma WindowFullyDrawn(lines: seq<string>, scroll: int, displayHeight: int)
    requires displayHeight >= TopPadding + BottomPadding
    ensures var visible := VisibleLines(lines, scroll, MaxVisibleLines(displayHeight));
      |Placements(visible, displayHeight)| == |visible|
  {
    VisibleLinesWindow(lines, scroll, MaxVisibleLines(displayHeight));
  }

  /** A width and a height, as in PIL's `Image.size`. */
  datatype Size = Size(width: int, height: int)

  /** `rotate(90, expand=True)` turns the canvas a quarter turn, swapping its sides. */
  function Rotated(s: Size): (r: Size)
    ensures r.width == s.height && r.height == s.width
  {
    Size(s.height, s.width)
  }

  /** The size of the image handed to `ShowImage`: the rotated canvas, resized to the
      panel whenever the turn changed its size. */
  function FrameSize(panel: Size): Size
  {
    var turned := Rotated(panel);
    if turned != panel then panel else turned
  }

  /** Whatever the panel, the frame handed to `ShowImage` has the panel's size, so the
      driver's size check never refuses it. On the 240x280 panel the turned canvas is
      280x240 and the resize is what restores the size. */
  lemma FrameMatchesPanel(panel: Size)
    ensures FrameSize(panel) == panel
    ensures panel == Size(240, 280) ==> Rotated(panel) == Size(280, 240) != panel
  {
  }

  /** What one call of `display_text_on_lcd` puts on the panel. */
  datatype Frame = Frame(size: Size, placements: seq<Placement>)

  /** The lines `display_text_on_lcd` wraps a text into on a panel of the given size. */
  function WrappedLines(text: string, measure: Measure, panel: Size): seq<string>
  {
    Wrap(Sanitize(text), measure, AvailableTextWidth(panel.width))
  }

  /** The frame `display_text_on_lcd(text, scroll)` shows. */
  function Render(text: string, scroll: int, measure: Measure, panel: Size): Frame
  {
    var lines := WrappedLines(text, measure, panel);
    var visible := VisibleLines(lines, scroll, MaxVisibleLines(panel.height));
    Frame(FrameSize(panel), Placements(visible, panel.height))
  }

  /** On any panel at least as tall as the paddings, the frame shows the run of wrapped
      lines that starts at the clamped scroll position, one line height apart, and as
      many of them as the budget allows. */
  lemma RenderShowsWindow(text: string, scroll: int, measure: Measure, panel: Size)
    requires panel.height >= TopPadding + BottomPadding
    ensures var lines := WrappedLines(text, measure, panel);
      var m := MaxVisibleLines(panel.height);
      var start := ClampScroll(scroll, |lines|, m);
      var shown := Render(text, scroll, measure, panel).placements;
      && |shown| == (if m < |lines| then m else |lines|)
      && start + |shown| <= |lines|
      && forall j :: 0 <= j < |shown| ==>
           shown[j] == Placement(HorizontalPadding, TopPadding + j * LineHeight, lines[start + j])
  {
    var lines := WrappedLines(text, measure, panel);
    WindowFullyDrawn(lines, scroll, panel.height);
    VisibleLinesWindow(lines, scroll, MaxVisibleLines(panel.height));
  }

  /** `display_text_on_lcd(text, scroll_position)`: with no panel it shows nothing and
      returns 0; otherwise it shows the frame `Render` describes and returns the number
      of wrapped lines. */
  method DisplayTextOnLcd(text: string, scroll: int, measure: Measure, panel: Option<Size>)
    returns (total: nat, shown: Option<Frame>)
    ensures panel.None? ==> total == 0 && shown.None?
    ensures panel.Some? ==> total == |WrappedLines(text, measure, panel.value)|
    ensures panel.Some? ==> shown == Some(Render(text, scroll, measure, panel.value))
  {
    var clean := Sanitize(text);
    if panel.None? {
      return 0, None;
    }
    var size := panel.value;
    var lines := WrapLines(clean, measure, AvailableTextWidth(size.width));
    var maxVisible := MaxVisibleLines(size.height);
    var start := ClampScroll(scroll, |lines|, maxVisible);
    var visible := PySlice(lines, start, start + maxVisible);
    var drawn := DrawLines(visible, size.height);
    var turned := Rotated(size);
    if turned != size {
      turned := size;
    }
    total := |lines|;
    shown := Some(Frame(turned, drawn));
  }
}
