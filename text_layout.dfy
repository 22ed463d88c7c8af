/**
 The text side of `display_text_on_lcd`: the Latin-1 sanitiser every reply goes
 through, the split into paragraphs at newlines and into words at whitespace, and
 the greedy word-wrapper that fills each line while the measured width stays within
 the available width, breaking a word by characters only when `current_line` is
 empty, that is, for the first word of a paragraph.

 Glyph widths come from a FreeType font that is not part of this model: every
 operation takes the width of a string as a parameter `measure`.
 */
module TextLayout {
  import opened Wrappers
  import opened Sequences

  /** The pixel width of a string as drawn in the display font. */
  type Measure = string -> nat

  /** A character that ISO/IEC 8859-1 can encode. */
  predicate IsLatin1(c: char)
  {
    c as int < 256
  }

  /** `sanitize_text`: keep only the characters below U+0100. */
  function Sanitize(text: string): (r: string)
    ensures |r| <= |text|
    ensures forall i :: 0 <= i < |r| ==> IsLatin1(r[i])
  {
    if text == [] then []
    else (if IsLatin1(text[0]) then [text[0]] else []) + Sanitize(text[1..])
  }

  lemma {:induction false} SanitizeAppend(a: string, b: string)
    ensures Sanitize(a + b) == Sanitize(a) + Sanitize(b)
  {
    if a == [] {
      assert a + b == b;
    } else {
      assert (a + b)[1..] == a[1..] + b;
      SanitizeAppend(a[1..], b);
    }
  }

  /** Every Latin-1 character survives, in place: the text around it is sanitised on
      its own and the character sits between the two results. */
  lemma SanitizeKeeps(a: string, c: char, b: string)
    requires IsLatin1(c)
    ensures Sanitize(a + [c] + b) == Sanitize(a) + [c] + Sanitize(b)
  {
    SanitizeAppend(a + [c], b);
    SanitizeAppend(a, [c]);
    assert Sanitize([c]) == [c] + Sanitize([]);
  }

  /** Every other character is dropped and leaves no trace. */
  lemma SanitizeDrops(a: string, c: char, b: string)
    requires !IsLatin1(c)
    ensures Sanitize(a + [c] + b) == Sanitize(a) + Sanitize(b)
  {
    SanitizeAppend(a + [c], b);
    SanitizeAppend(a, [c]);
    assert Sanitize([c]) == [];
    assert Sanitize(a) + [] == Sanitize(a);
  }

  /** Latin-1 text is left exactly as it is; in particular sanitising twice is sanitising once. */
  lemma {:induction false} SanitizeLatin1(text: string)
    requires forall i :: 0 <= i < |text| ==> IsLatin1(text[i])
    ensures Sanitize(text) == text
  {
    if text != [] {
      SanitizeLatin1(text[1..]);
    }
  }

  lemma SanitizeIdempotent(text: string)
    ensures Sanitize(Sanitize(text)) == Sanitize(text)
  {
    SanitizeLatin1(Sanitize(text));
  }

  // ---------------------------------------------------------------- paragraphs

  /** `text.split('\n')`: the pieces between newlines; there is always at least one. */
  function SplitLines(text: string): (ps: seq<string>)
    ensures |ps| >= 1
    ensures forall i :: 0 <= i < |ps| ==> '\n' !in ps[i]
    decreases |text|
  {
    if text == [] then [""]
    else
      var rest := SplitLines(text[1..]);
      if text[0] == '\n' then [""] + rest
      else [[text[0]] + rest[0]] + rest[1..]
  }

  /** `'\n'.join(ps)`. */
  function JoinLines(ps: seq<string>): string
    requires |ps| >= 1
  {
    if |ps| == 1 then ps[0] else ps[0] + "\n" + JoinLines(ps[1..])
  }

  lemma {:induction false} JoinLinesCons(c: char, ps: seq<string>)
    requires |ps| >= 1
    ensures JoinLines([[c] + ps[0]] + ps[1..]) == [c] + JoinLines(ps)
  {
    var qs := [[c] + ps[0]] + ps[1..];
    if |ps| > 1 {
      assert qs[1..] == ps[1..];
    }
  }

  /** Splitting at newlines loses nothing: joining the pieces back gives the text. */
  lemma {:induction false} JoinSplitLines(text: string)
    ensures JoinLines(SplitLines(text)) == text
    decreases |text|
  {
    if text != [] {
      var rest := SplitLines(text[1..]);
      JoinSplitLines(text[1..]);
      if text[0] == '\n' {
        assert ([""] + rest)[1..] == rest;
      } else {
        JoinLinesCons(text[0], rest);
      }
      assert text == [text[0]] + text[1..];
    }
  }

  lemma {:induction false} SplitLinesPlain(s: string)
    requires '\n' !in s
    ensures SplitLines(s) == [s]
  {
    if s != [] {
      SplitLinesPlain(s[1..]);
      assert s == [s[0]] + s[1..];
    }
  }

  /** A newline splits the text into the pieces of each side. */
  lemma {:induction false} SplitLinesAt(a: string, b: string)
    requires '\n' !in a
    ensures SplitLines(a + "\n" + b) == [a] + SplitLines(b)
  {
    if a == [] {
      assert a + "\n" + b == "\n" + b;
      assert ("\n" + b)[1..] == b;
    } else {
      var s := a + "\n" + b;
      assert s[1..] == a[1..] + "\n" + b;
      SplitLinesAt(a[1..], b);
      assert [a[0]] + a[1..] == a;
    }
  }

  /** Newline-free pieces are recovered exactly from their join. */
  lemma {:induction false} SplitJoinLines(ps: seq<string>)
    requires |ps| >= 1
    requires forall i :: 0 <= i < |ps| ==> '\n' !in ps[i]
    ensures SplitLines(JoinLines(ps)) == ps
  {
    if |ps| == 1 {
      SplitLinesPlain(ps[0]);
    } else {
      SplitJoinLines(ps[1..]);
      SplitLinesAt(ps[0], JoinLines(ps[1..]));
      assert [ps[0]] + ps[1..] == ps;
    }
  }

  // ---------------------------------------------------------------- words

  /** Python's `str.isspace` (and the separator set of `split()` and `strip()`). */
  predicate IsSpace(c: char)
  {
    var n := c as int;
    (9 <= n <= 0x0D) || (0x1C <= n <= 0x20) || n == 0x85 || n == 0xA0 || n == 0x1680
    || (0x2000 <= n <= 0x200A) || n == 0x2028 || n == 0x2029 || n == 0x202F || n == 0x205F
    || n == 0x3000
  }

  predicate NoSpace(s: string)
  {
    forall i :: 0 <= i < |s| ==> !IsSpace(s[i])
  }

  /** `not s.strip()`: nothing but whitespace. */
  predicate IsBlank(s: string)
  {
    forall i :: 0 <= i < |s| ==> IsSpace(s[i])
  }

  /** The text with every whitespace character taken out. */
  function RemoveSpaces(s: string): (r: string)
    ensures NoSpace(r)
  {
    if s == [] then []
    else (if IsSpace(s[0]) then [] else [s[0]]) + RemoveSpaces(s[1..])
  }

  lemma {:induction false} RemoveSpacesAppend(a: string, b: string)
    ensures RemoveSpaces(a + b) == RemoveSpaces(a) + RemoveSpaces(b)
  {
    if a == [] {
      assert a + b == b;
    } else {
      assert (a + b)[1..] == a[1..] + b;
      RemoveSpacesAppend(a[1..], b);
    }
  }

  lemma {:induction false} RemoveSpacesNoSpace(s: string)
    requires NoSpace(s)
    ensures RemoveSpaces(s) == s
  {
    if s != [] {
      RemoveSpacesNoSpace(s[1..]);
    }
  }

  lemma {:induction false} RemoveSpacesBlank(s: string)
    requires IsBlank(s)
    ensures RemoveSpaces(s) == []
  {
    if s != [] {
      RemoveSpacesBlank(s[1..]);
    }
  }

  /** The length of the run of non-whitespace characters that starts `s`. */
  function WordLength(s: string): (n: nat)
    ensures n <= |s| && NoSpace(s[..n])
    ensures n < |s| ==> IsSpace(s[n])
  {
    if s == [] || IsSpace(s[0]) then 0
    else
      var n := 1 + WordLength(s[1..]);
      assert s[..n] == [s[0]] + s[1..][..n - 1];
      n
  }

  /** `s.split()`: the maximal runs of non-whitespace characters, in order. */
  function Words(s: string): (ws: seq<string>)
    ensures forall i :: 0 <= i < |ws| ==> ws[i] != [] && NoSpace(ws[i])
    decreases |s|
  {
    if s == [] then []
    else if IsSpace(s[0]) then Words(s[1..])
    else
      var n := WordLength(s);
      [s[..n]] + Words(s[n..])
  }

  /** Splitting into words drops exactly the whitespace. */
  lemma {:induction false} WordsConcat(s: string)
    ensures Concat(Words(s)) == RemoveSpaces(s)
    decreases |s|
  {
    if s != [] {
      if IsSpace(s[0]) {
        WordsConcat(s[1..]);
      } else {
        var n := WordLength(s);
        WordsConcat(s[n..]);
        ConcatAppend([s[..n]], Words(s[n..]));
        assert Concat([s[..n]]) == Concat([]) + s[..n];
        RemoveSpacesAppend(s[..n], s[n..]);
        RemoveSpacesNoSpace(s[..n]);
        assert s[..n] + s[n..] == s;
      }
    }
  }

  /** A paragraph has no words exactly when it is blank. */
  lemma {:induction false} WordsEmptyIff(s: string)
    ensures Words(s) == [] <==> IsBlank(s)
    decreases |s|
  {
    if s != [] && IsSpace(s[0]) {
      WordsEmptyIff(s[1..]);
      if IsBlank(s[1..]) {
        forall i | 0 <= i < |s|
          ensures IsSpace(s[i])
        {
          if i > 0 {
            assert s[i] == s[1..][i - 1];
          }
        }
      }
    }
  }

  /** `' '.join(ws)`. */
  function JoinSpaced(ws: seq<string>): string
  {
    if |ws| == 0 then [] else if |ws| == 1 then ws[0] else ws[0] + " " + JoinSpaced(ws[1..])
  }

  /** A word followed by whitespace, or by nothing, is read to its end and no further. */
  lemma {:induction false} WordLengthOf(w: string, rest: string)
    requires NoSpace(w)
    requires rest == [] || IsSpace(rest[0])
    ensures WordLength(w + rest) == |w|
  {
    if w == [] {
      assert w + rest == rest;
    } else {
      assert (w + rest)[1..] == w[1..] + rest;
      assert NoSpace(w[1..]) by {
        forall i | 0 <= i < |w[1..]| ensures !IsSpace(w[1..][i]) {
          assert w[1..][i] == w[i + 1];
        }
      }
      WordLengthOf(w[1..], rest);
    }
  }

  lemma WordsCons(w: string, rest: string)
    requires w != [] && NoSpace(w)
    requires rest == [] || IsSpace(rest[0])
    ensures Words(w + rest) == [w] + Words(rest)
  {
    var s := w + rest;
    WordLengthOf(w, rest);
    assert s[0] == w[0];
    assert s[..|w|] == w;
    assert s[|w|..] == rest;
  }

  /** Leading whitespace is skipped. */
  lemma WordsSkipSpace(t: string)
    ensures Words(" " + t) == Words(t)
  {
    assert (" " + t)[1..] == t;
  }

  /** `' '.join` of two or more words: the first word, a space, and the join of the rest. */
  lemma JoinSpacedCons(ws: seq<string>)
    requires |ws| > 1
    ensures JoinSpaced(ws) == ws[0] + (" " + JoinSpaced(ws[1..]))
  {
    assert ws[0] + " " + JoinSpaced(ws[1..]) == ws[0] + (" " + JoinSpaced(ws[1..]));
  }

  /** `split()` takes maximal runs: splitting words joined by single spaces gives back
      exactly those words, so no word is ever cut inside a run of non-whitespace. */
  lemma {:induction false} WordsJoinSpaced(ws: seq<string>)
    requires WordList(ws)
    ensures Words(JoinSpaced(ws)) == ws
  {
    if |ws| == 1 {
      WordsCons(ws[0], []);
      assert ws[0] + [] == ws[0];
    } else if |ws| > 1 {
      var tail := JoinSpaced(ws[1..]);
      assert WordList(ws[1..]) by {
        forall i | 0 <= i < |ws[1..]| ensures ws[1..][i] != [] && NoSpace(ws[1..][i]) {
          assert ws[1..][i] == ws[i + 1];
        }
      }
      WordsJoinSpaced(ws[1..]);
      WordsSkipSpace(tail);
      assert ws[0] != [] && NoSpace(ws[0]);
      WordsCons(ws[0], " " + tail);
      JoinSpacedCons(ws);
      assert [ws[0]] + ws[1..] == ws;
    }
  }

  // ---------------------------------------------------------------- greedy wrap

  /** What the wrap of one paragraph has produced so far: `wrapped_text_lines` (for
      this paragraph) and `current_line`. */
  datatype WrapState = WrapState(lines: seq<string>, current: string)

  /** `current_line + (" " if current_line else "") + word`. */
  function Joined(current: string, word: string): string
  {
    current + (if current != [] then " " else "") + word
  }

  /** The break test of the character loop at index `k`: `measure(word[:k+1]) > width
      and k > 0`. */
  predicate Overflows(word: string, measure: Measure, width: int, k: nat)
    requires k < |word|
  {
    measure(word[..k + 1]) > width && k > 0
  }

  /** The character-break search: the first index `k >= i` of `word` at which the
      break test holds, if there is one. */
  function FirstOverflow(word: string, measure: Measure, width: int, i: nat): (r: Option<nat>)
    ensures r.Some? ==> i <= r.value < |word| && Overflows(word, measure, width, r.value)
    ensures r.Some? ==> forall k :: i <= k < r.value ==> !Overflows(word, measure, width, k)
    ensures r.None? ==> forall k :: i <= k < |word| ==> !Overflows(word, measure, width, k)
    decreases |word| - i
  {
    if i >= |word| then None
    else if Overflows(word, measure, width, i) then Some(i)
    else FirstOverflow(word, measure, width, i + 1)
  }

  /** One pass of the loop over a paragraph's words. */
  function Step(st: WrapState, word: string, measure: Measure, width: int): WrapState
  {
    var test := Joined(st.current, word);
    if measure(test) <= width then WrapState(st.lines, test)
    else if st.current != [] then WrapState(st.lines + [st.current], word)
    else if word != [] then
      match FirstOverflow(word, measure, width, 0)
      case Some(i) => WrapState(st.lines + [word[..i]], word[i..])
      case None => WrapState(st.lines, word)
    else st
  }

  /** The state after the first `|words|` passes, starting from no lines and an empty
      `current_line`. */
  function Fold(words: seq<string>, measure: Measure, width: int): WrapState
  {
    if words == [] then WrapState([], [])
    else Step(Fold(words[..|words| - 1], measure, width), words[|words| - 1], measure, width)
  }

  /** The lines one paragraph contributes: one empty line for a blank paragraph,
      otherwise the folded lines and the last `current_line` if it is not empty. */
  function WrapParagraph(paragraph: string, measure: Measure, width: int): seq<string>
  {
    if IsBlank(paragraph) then [""]
    else
      var st := Fold(Words(paragraph), measure, width);
      st.lines + (if st.current != [] then [st.current] else [])
  }

  function WrapAll(paragraphs: seq<string>, measure: Measure, width: int): seq<string>
  {
    if paragraphs == [] then []
    else WrapAll(paragraphs[..|paragraphs| - 1], measure, width)
         + WrapParagraph(paragraphs[|paragraphs| - 1], measure, width)
  }

  /** `wrapped_text_lines` for a whole text. */
  function Wrap(text: string, measure: Measure, width: int): seq<string>
  {
    WrapAll(SplitLines(text), measure, width)
  }

  /** The inner `for i, char in enumerate(word)` loop: the index at which it breaks,
      or `None` when it runs to its `else`. */
  method FindBreak(word: string, measure: Measure, width: int) returns (r: Option<nat>)
    ensures r == FirstOverflow(word, measure, width, 0)
  {
    for i := 0 to |word|
      invariant FirstOverflow(word, measure, width, 0) == FirstOverflow(word, measure, width, i)
    {
      if measure(word[..i + 1]) > width && i > 0 {
        return Some(i);
      }
    }
    return None;
  }

  /** The loop over one paragraph's words: the lines it appends and the `current_line`
      it leaves behind. */
  method WrapWords(words: seq<string>, measure: Measure, width: int)
    returns (lines: seq<string>, current: string)
    ensures WrapState(lines, current) == Fold(words, measure, width)
  {
    lines := [];
    current := "";
    for j := 0 to |words|
      invariant WrapState(lines, current) == Fold(words[..j], measure, width)
    {
      assert words[..j + 1][..j] == words[..j];
      var word := words[j];
      var testLine := current + (if current != "" then " " else "") + word;
      if measure(testLine) <= width {
        current := testLine;
      } else if current != "" {
        lines := lines + [current];
        current := word;
      } else if word != "" {
        var split := FindBreak(word, measure, width);
        match split {
          case Some(i) =>
            lines := lines + [word[..i]];
            current := word[i..];
          case None =>
            current := word;
        }
      }
    }
    assert words[..|words|] == words;
  }

  /** The word-wrap loops of `display_text_on_lcd`: paragraph by paragraph, one empty
      line for a blank one, otherwise the wrapped words and the last `current_line`. */
  method WrapLines(text: string, measure: Measure, width: int) returns (lines: seq<string>)
    ensures lines == Wrap(text, measure, width)
  {
    lines := [];
    var paragraphs := SplitLines(text);
    for p := 0 to |paragraphs|
      invariant lines == WrapAll(paragraphs[..p], measure, width)
    {
      assert paragraphs[..p + 1][..p] == paragraphs[..p];
      var paragraph := paragraphs[p];
      if IsBlank(paragraph) {
        lines := lines + [""];
        continue;
      }
      var words := Words(paragraph);
      var paragraphLines, current := WrapWords(words, measure, width);
      lines := lines + paragraphLines;
      if current != "" {
        lines := lines + [current];
      }
    }
    assert paragraphs[..|paragraphs|] == paragraphs;
  }

  // ---------------------------------------------------------------- wrap properties

  /** A line with a space in it was built by joining words, which only happens when
      the joined line fits. */
  predicate SpacedFits(line: string, measure: Measure, width: int)
  {
    ' ' in line ==> measure(line) <= width
  }

  predicate WordList(words: seq<string>)
  {
    forall i :: 0 <= i < |words| ==> words[i] != [] && NoSpace(words[i])
  }

  /** What holds after every pass of the word loop. */
  predicate FoldInvariant(st: WrapState, words: seq<string>, measure: Measure, width: int)
  {
    && (forall i :: 0 <= i < |st.lines| ==> st.lines[i] != [] && SpacedFits(st.lines[i], measure, width))
    && SpacedFits(st.current, measure, width)
    && RemoveSpaces(Concat(st.lines) + st.current) == Concat(words)
    && (words != [] ==> st.current != [])
  }

  lemma NoSpaceNoBlank(word: string)
    requires NoSpace(word)
    ensures ' ' !in word
  {
  }

  /** The text a state holds so far, with whitespace taken out, after each kind of pass. */
  lemma StepKeepsChars(st: WrapState, word: string, measure: Measure, width: int)
    requires word != [] && NoSpace(word)
    ensures RemoveSpaces(Concat(Step(st, word, measure, width).lines) + Step(st, word, measure, width).current)
         == RemoveSpaces(Concat(st.lines) + st.current) + word
  {
    RemoveSpacesNoSpace(word);
    if measure(Joined(st.current, word)) <= width {
      JoinKeepsChars(Concat(st.lines), st.current, word);
    } else if st.current != [] {
      ConcatSnoc(st.lines, st.current);
      RemoveSpacesAppend(Concat(st.lines) + st.current, word);
    } else {
      assert st == WrapState(st.lines, []);
      assert Concat(st.lines) + st.current == Concat(st.lines);
      BreakKeepsChars(st.lines, word, measure, width);
    }
  }

  /** Joining a word onto `current_line` adds only a space besides the word. */
  lemma JoinKeepsChars(done: string, current: string, word: string)
    requires RemoveSpaces(word) == word
    ensures RemoveSpaces(done + Joined(current, word)) == RemoveSpaces(done + current) + word
  {
    if current != [] {
      assert RemoveSpaces(" ") == [];
      assert done + Joined(current, word) == (done + current + " ") + word;
      RemoveSpacesAppend(done + current, " ");
      RemoveSpacesAppend(done + current + " ", word);
    } else {
      assert done + Joined(current, word) == (done + current) + word;
      RemoveSpacesAppend(done + current, word);
    }
  }

  /** Breaking a word that starts a line keeps its characters, split between the
      emitted fragment and the new `current_line`. */
  lemma BreakKeepsChars(lines: seq<string>, word: string, measure: Measure, width: int)
    requires RemoveSpaces(word) == word
    ensures var next := Step(WrapState(lines, []), word, measure, width);
      measure(Joined([], word)) > width ==>
        RemoveSpaces(Concat(next.lines) + next.current) == RemoveSpaces(Concat(lines)) + word
  {
    var done := Concat(lines);
    assert done + [] == done;
    RemoveSpacesAppend(done, word);
    if word != [] {
      match FirstOverflow(word, measure, width, 0)
      case Some(i) =>
        ConcatSnoc(lines, word[..i]);
        assert done + word[..i] + word[i..] == done + word;
      case None =>
    }
  }

  /** Lines are only ever emitted non-empty, and a line or `current_line` with a space
      in it is always a joined line that fitted. */
  lemma StepKeepsLines(st: WrapState, word: string, measure: Measure, width: int)
    requires forall i :: 0 <= i < |st.lines| ==> st.lines[i] != [] && SpacedFits(st.lines[i], measure, width)
    requires SpacedFits(st.current, measure, width)
    requires word != [] && NoSpace(word)
    ensures var next := Step(st, word, measure, width);
      && (forall i :: 0 <= i < |next.lines| ==> next.lines[i] != [] && SpacedFits(next.lines[i], measure, width))
      && SpacedFits(next.current, measure, width)
      && next.current != []
  {
    NoSpaceNoBlank(word);
    var test := Joined(st.current, word);
    if measure(test) <= width {
    } else if st.current != [] {
      assert Step(st, word, measure, width) == WrapState(st.lines + [st.current], word);
    } else {
      match FirstOverflow(word, measure, width, 0)
      case Some(i) =>
        assert Step(st, word, measure, width) == WrapState(st.lines + [word[..i]], word[i..]);
        assert NoSpace(word[i..]) by {
          forall k | 0 <= k < |word[i..]| ensures !IsSpace(word[i..][k]) {
            assert word[i..][k] == word[i + k];
          }
        }
        NoSpaceNoBlank(word[i..]);
        assert NoSpace(word[..i]) by {
          forall k | 0 <= k < i ensures !IsSpace(word[..i][k]) {
            assert word[..i][k] == word[k];
          }
        }
        NoSpaceNoBlank(word[..i]);
      case None =>
    }
  }

  lemma StepInvariant(st: WrapState, words: seq<string>, word: string, measure: Measure, width: int)
    requires FoldInvariant(st, words, measure, width)
    requires word != [] && NoSpace(word)
    ensures FoldInvariant(Step(st, word, measure, width), words + [word], measure, width)
  {
    ConcatSnoc(words, word);
    StepKeepsChars(st, word, measure, width);
    StepKeepsLines(st, word, measure, width);
  }

  lemma {:induction false} FoldKeepsInvariant(words: seq<string>, measure: Measure, width: int)
    requires WordList(words)
    ensures FoldInvariant(Fold(words, measure, width), words, measure, width)
  {
    if words == [] {
    } else {
      var init := words[..|words| - 1];
      FoldKeepsInvariant(init, measure, width);
      StepInvariant(Fold(init, measure, width), init, words[|words| - 1], measure, width);
      assert init + [words[|words| - 1]] == words;
    }
  }

  /** A blank paragraph contributes exactly one empty line; any other paragraph at
      least one line, none of them empty. */
  lemma WrapParagraphShape(paragraph: string, measure: Measure, width: int)
    ensures IsBlank(paragraph) ==> WrapParagraph(paragraph, measure, width) == [""]
    ensures !IsBlank(paragraph) ==> |WrapParagraph(paragraph, measure, width)| >= 1
    ensures !IsBlank(paragraph) ==>
      forall i :: 0 <= i < |WrapParagraph(paragraph, measure, width)| ==> WrapParagraph(paragraph, measure, width)[i] != []
  {
    if !IsBlank(paragraph) {
      WordsEmptyIff(paragraph);
      FoldKeepsInvariant(Words(paragraph), measure, width);
    }
  }

  /** No character is lost or invented: the paragraph's lines, run together with their
      whitespace taken out, are its words run together. */
  lemma WrapParagraphKeepsChars(paragraph: string, measure: Measure, width: int)
    ensures RemoveSpaces(Concat(WrapParagraph(paragraph, measure, width))) == Concat(Words(paragraph))
  {
    WordsConcat(paragraph);
    if IsBlank(paragraph) {
      RemoveSpacesBlank(paragraph);
      assert Concat([""]) == Concat([]) + "";
    } else {
      var words := Words(paragraph);
      var st := Fold(words, measure, width);
      WordsEmptyIff(paragraph);
      FoldKeepsInvariant(words, measure, width);
      ConcatSnoc(st.lines, st.current);
    }
  }

  /** Every line of a paragraph with a space in it is within the available width;
      only single words and word fragments can be wider. */
  lemma WrapParagraphFits(paragraph: string, measure: Measure, width: int)
    ensures forall i :: 0 <= i < |WrapParagraph(paragraph, measure, width)| ==>
      SpacedFits(WrapParagraph(paragraph, measure, width)[i], measure, width)
  {
    if !IsBlank(paragraph) {
      FoldKeepsInvariant(Words(paragraph), measure, width);
    }
  }

  /** The greedy rule. Once a paragraph's first word is placed, `current_line` is never
      empty again, so every later word is handled whole: it joins `current_line`, after
      one space, exactly when the joined line fits the width; otherwise `current_line`
      is emitted as a line and the word alone starts the next one. Only the first word
      of a paragraph can be broken by characters. */
  lemma LaterWordsWhole(words: seq<string>, k: nat, measure: Measure, width: int)
    requires WordList(words) && 0 < k < |words|
    ensures Fold(words[..k], measure, width).current != []
    ensures var st := Fold(words[..k], measure, width);
      measure(st.current + " " + words[k]) <= width ==>
        Fold(words[..k + 1], measure, width) == WrapState(st.lines, st.current + " " + words[k])
    ensures var st := Fold(words[..k], measure, width);
      measure(st.current + " " + words[k]) > width ==>
        Fold(words[..k + 1], measure, width) == WrapState(st.lines + [st.current], words[k])
  {
    FoldKeepsInvariant(words[..k], measure, width);
    assert words[..k + 1][..k] == words[..k];
  }

  /** The first word of a paragraph is cut only when it alone is too wide and some
      prefix of two or more characters overflows: the first such prefix, minus its last
      character, becomes a line, and the rest of the word becomes `current_line`. */
  lemma FirstWordBreak(lines: seq<string>, word: string, measure: Measure, width: int)
    requires word != []
    ensures var st := Step(WrapState(lines, []), word, measure, width);
      match FirstOverflow(word, measure, width, 0)
      case Some(i) =>
        measure(word) > width ==> st == WrapState(lines + [word[..i]], word[i..]) && word[..i] != []
      case None => st == WrapState(lines, word)
    ensures measure(word) <= width ==> Step(WrapState(lines, []), word, measure, width) == WrapState(lines, word)
  {
    assert Joined([], word) == word;
  }

  lemma {:induction false} WrapAllLength(paragraphs: seq<string>, measure: Measure, width: int)
    ensures |WrapAll(paragraphs, measure, width)| >= |paragraphs|
  {
    if paragraphs != [] {
      WrapAllLength(paragraphs[..|paragraphs| - 1], measure, width);
      WrapParagraphShape(paragraphs[|paragraphs| - 1], measure, width);
    }
  }

  /** `display_text_on_lcd` returns at least one line per paragraph. */
  lemma WrapLength(text: string, measure: Measure, width: int)
    ensures |Wrap(text, measure, width)| >= |SplitLines(text)| >= 1
  {
    WrapAllLength(SplitLines(text), measure, width);
  }

  lemma {:induction false} WrapAllFits(paragraphs: seq<string>, measure: Measure, width: int)
    ensures forall i :: 0 <= i < |WrapAll(paragraphs, measure, width)| ==>
      SpacedFits(WrapAll(paragraphs, measure, width)[i], measure, width)
  {
    if paragraphs != [] {
      WrapAllFits(paragraphs[..|paragraphs| - 1], measure, width);
      WrapParagraphFits(paragraphs[|paragraphs| - 1], measure, width);
    }
  }

  /** Over a whole text, every wrapped line with a space in it fits the width. */
  lemma WrapFits(text: string, measure: Measure, width: int)
    ensures forall i :: 0 <= i < |Wrap(text, measure, width)| ==>
      SpacedFits(Wrap(text, measure, width)[i], measure, width)
  {
    WrapAllFits(SplitLines(text), measure, width);
  }

  lemma {:induction false} WrapAllKeepsChars(paragraphs: seq<string>, measure: Measure, width: int)
    ensures RemoveSpaces(Concat(WrapAll(paragraphs, measure, width))) == RemoveSpaces(Concat(paragraphs))
  {
    if paragraphs != [] {
      var init := paragraphs[..|paragraphs| - 1];
      var last := paragraphs[|paragraphs| - 1];
      WrapAllKeepsChars(init, measure, width);
      WrapParagraphKeepsChars(last, measure, width);
      WordsConcat(last);
      ConcatAppend(WrapAll(init, measure, width), WrapParagraph(last, measure, width));
      RemoveSpacesAppend(Concat(WrapAll(init, measure, width)), Concat(WrapParagraph(last, measure, width)));
      RemoveSpacesAppend(Concat(init), last);
    }
  }

  lemma {:induction false} JoinLinesRemoveSpaces(ps: seq<string>)
    requires |ps| >= 1
    ensures RemoveSpaces(JoinLines(ps)) == RemoveSpaces(Concat(ps))
  {
    if |ps| == 1 {
      assert ps[..|ps| - 1] == [];
      assert Concat(ps) == Concat([]) + ps[0] == ps[0];
      assert JoinLines(ps) == ps[0];
    } else {
      JoinLinesRemoveSpaces(ps[1..]);
      assert [ps[0]] + ps[1..] == ps;
      ConcatAppend([ps[0]], ps[1..]);
      assert Concat([ps[0]]) == Concat([]) + ps[0];
      assert Concat(ps) == ps[0] + Concat(ps[1..]);
      assert RemoveSpaces("\n") == [] + RemoveSpaces([]);
      RemoveSpacesAppend(ps[0] + "\n", JoinLines(ps[1..]));
      RemoveSpacesAppend(ps[0], "\n");
      RemoveSpacesAppend(ps[0], Concat(ps[1..]));
    }
  }

  /** Over a whole text, the wrapped lines hold exactly the text's non-whitespace
      characters, in order. */
  lemma WrapKeepsChars(text: string, measure: Measure, width: int)
    ensures RemoveSpaces(Concat(Wrap(text, measure, width))) == RemoveSpaces(text)
  {
    WrapAllKeepsChars(SplitLines(text), measure, width);
    JoinLinesRemoveSpaces(SplitLines(text));
    JoinSplitLines(text);
  }
}
