/** The text layout engine of `src/components/text.rs`: `Lines::new` wraps a
    string greedily into lines whose measured width stays below a pixel limit,
    re-measuring the whole buffer after every character.

    `Feed`/`Wrap` are the reference definition (the wrapper as a fold over the
    characters), `IsWrapOf` characterises the result without reference to the
    loop, `WrapIsGreedy` and `WrapUnique` show that `Wrap` is the one and only
    sequence of lines with that characterisation, and `NewLines` is the loop
    itself, proved to compute `Wrap`. */
module TextComponent {
  import opened Pixels
  import opened Glyphs

  /** `TextDrawInfo`: the string, its colour and its face (font and scale). */
  datatype TextDrawInfo = TextDrawInfo(text: seq<char>, color: Rgba, face: Face)

  /** One wrapped line: its text, the stored measurement, and the width of its
      first letter (read by the quote panel to correct the centring). */
  datatype Line = Line(text: seq<char>, width: int, height: int, firstLetterWidth: int)

  /** `Lines`: the wrapped lines in order and the total size `(max width, summed height)`. */
  datatype Lines = Lines(data: seq<Line>, size: Extent)

  /** What one wrapping run depends on: the measurer and face, the width
      limit, and the first-letter width attached to each line. */
  datatype WrapSetup = WrapSetup(metrics: Metrics, face: Face, limit: int, firstLetter: seq<char> -> int)
  {
    function Measure(s: seq<char>): Extent { metrics(face, s) }

    function MakeLine(t: seq<char>, e: Extent): Line { Line(t, e.width, e.height, firstLetter(t)) }
  }

  // ---------------------------------------------------------------------------
  // Aggregates over lines

  /** The texts of the lines, concatenated in order. */
  function Concat(ls: seq<Line>): seq<char>
  {
    if ls == [] then [] else Concat(ls[..|ls| - 1]) + ls[|ls| - 1].text
  }

  /** The running maximum of the stored widths, starting from 0. */
  function MaxWidth(ls: seq<Line>): int
  {
    if ls == [] then 0 else Max(MaxWidth(ls[..|ls| - 1]), ls[|ls| - 1].width)
  }

  /** The sum of the stored heights. */
  function SumHeights(ls: seq<Line>): int
  {
    if ls == [] then 0 else SumHeights(ls[..|ls| - 1]) + ls[|ls| - 1].height
  }

  /** Appending a line appends its text. */
  lemma ConcatPush(ls: seq<Line>, l: Line)
    ensures Concat(ls + [l]) == Concat(ls) + l.text
  {
    assert (ls + [l])[..|ls|] == ls;
  }

  /** Concat distributes over appending line lists. */
  lemma {:induction false} ConcatAppend(a: seq<Line>, b: seq<Line>)
    ensures Concat(a + b) == Concat(a) + Concat(b)
    decreases |b|
  {
    if b == [] {
      assert a + b == a;
    } else {
      var b', t := b[..|b| - 1], b[|b| - 1].text;
      assert a + b == (a + b') + [b[|b| - 1]];
      ConcatPush(a + b', b[|b| - 1]);
      ConcatAppend(a, b');
      assert Concat(b) == Concat(b') + t;
      assert (Concat(a) + Concat(b')) + t == Concat(a) + (Concat(b') + t);
    }
  }

  /** One line concatenates to its own text. */
  lemma ConcatSingle(l: Line)
    ensures Concat([l]) == l.text
  {
    assert [l][..0] == [];
  }

  /** Concat reads the texts and nothing else. */
  lemma {:induction false} ConcatSameTexts(a: seq<Line>, b: seq<Line>)
    requires |a| == |b| && forall k :: 0 <= k < |a| ==> a[k].text == b[k].text
    ensures Concat(a) == Concat(b)
    decreases |a|
  {
    if a != [] {
      ConcatSameTexts(a[..|a| - 1], b[..|b| - 1]);
    }
  }

  /** The concatenation around line j: what comes before it, its text, what follows. */
  lemma {:induction false} ConcatAround(ls: seq<Line>, j: int)
    requires 0 <= j < |ls|
    ensures Concat(ls) == Concat(ls[..j]) + ls[j].text + Concat(ls[j + 1..])
  {
    assert ls == ls[..j + 1] + ls[j + 1..];
    ConcatAppend(ls[..j + 1], ls[j + 1..]);
    assert ls[..j + 1] == ls[..j] + [ls[j]];
    ConcatPush(ls[..j], ls[j]);
  }

  /** Line j's text is the slice of the concatenation that starts after the lines before it. */
  lemma {:induction false} ConcatSlice(ls: seq<Line>, j: int)
    requires 0 <= j < |ls|
    ensures |Concat(ls[..j])| + |ls[j].text| <= |Concat(ls)|
    ensures ls[j].text == Concat(ls)[|Concat(ls[..j])|..|Concat(ls[..j])| + |ls[j].text|]
  {
    ConcatAround(ls, j);
  }

  /** The character after line j in the concatenation is the next line's first character. */
  lemma {:induction false} ConcatNext(ls: seq<Line>, j: int)
    requires 0 <= j < |ls| - 1 && ls[j + 1].text != []
    ensures |Concat(ls[..j])| + |ls[j].text| < |Concat(ls)|
    ensures Concat(ls)[|Concat(ls[..j])| + |ls[j].text|] == ls[j + 1].text[0]
  {
    ConcatAround(ls, j);
    ConcatAround(ls[j + 1..], 0);
    assert ls[j + 1..][0] == ls[j + 1];
  }

  /** `size().0`: the maximum of 0 and every stored width, attained by some line when positive. */
  lemma {:induction false} MaxWidthIsMaximum(ls: seq<Line>)
    ensures MaxWidth(ls) >= 0
    ensures forall k :: 0 <= k < |ls| ==> ls[k].width <= MaxWidth(ls)
    ensures MaxWidth(ls) == 0 || exists k :: 0 <= k < |ls| && ls[k].width == MaxWidth(ls)
    decreases |ls|
  {
    if ls != [] {
      var init := ls[..|ls| - 1];
      MaxWidthIsMaximum(init);
      assert forall k :: 0 <= k < |init| ==> ls[k] == init[k];
      if MaxWidth(ls) != 0 && MaxWidth(ls) != ls[|ls| - 1].width {
        var k :| 0 <= k < |init| && init[k].width == MaxWidth(init);
        assert ls[k].width == MaxWidth(ls);
      }
    }
  }

  /** `size().1` splits over any cut of the lines. */
  lemma {:induction false} SumHeightsAppend(a: seq<Line>, b: seq<Line>)
    ensures SumHeights(a + b) == SumHeights(a) + SumHeights(b)
    decreases |b|
  {
    if b == [] {
      assert a + b == a;
    } else {
      var b' := b[..|b| - 1];
      assert (a + b)[..|a + b| - 1] == a + b';
      SumHeightsAppend(a, b');
    }
  }

  // ---------------------------------------------------------------------------
  // The reference definition

  /** The wrapper's state after some characters: the lines committed so far,
      the buffer, and the last measurement taken. */
  datatype Pending = Pending(committed: seq<Line>, buffer: seq<char>, last: Extent)

  /** The state after feeding `text` one character at a time: append the
      character to the buffer and measure the buffer; when the width reaches
      the limit, commit the buffer without that character, stored with the
      measurement that overflowed, and restart the buffer with the character. */
  function Feed(s: WrapSetup, text: seq<char>): Pending
    decreases |text|
  {
    if text == [] then Pending([], [], Extent(0, 0))
    else
      var st := Feed(s, text[..|text| - 1]);
      var c := text[|text| - 1];
      var e := s.Measure(st.buffer + [c]);
      if e.width >= s.limit then Pending(st.committed + [s.MakeLine(st.buffer, e)], [c], e)
      else Pending(st.committed, st.buffer + [c], e)
  }

  /** The committed lines followed by the residual buffer with the last measurement. */
  function Assemble(s: WrapSetup, st: Pending): seq<Line>
  {
    st.committed + [s.MakeLine(st.buffer, st.last)]
  }

  /** The lines `Lines::new` produces for `text`. */
  function Wrap(s: WrapSetup, text: seq<char>): seq<Line>
  {
    Assemble(s, Feed(s, text))
  }

  // ---------------------------------------------------------------------------
  // The characterisation

  /** The shortest buffer of line j that was measured on its own: a line after
      the first starts as the one carried character, which is never measured alone. */
  function MinProbe(j: int): int { if j == 0 then 1 else 2 }

  /** Every line after the first starts with a carried character. */
  ghost predicate LaterLinesNonEmpty(ls: seq<Line>)
  {
    forall j :: 1 <= j < |ls| ==> ls[j].text != []
  }

  /** Every line but the last is stored with the measurement of its text plus
      the next line's first character, and that measurement reached the limit. */
  ghost predicate BreaksOverflow(s: WrapSetup, ls: seq<Line>)
    requires LaterLinesNonEmpty(ls)
  {
    forall j :: 0 <= j < |ls| - 1 ==>
      var e := s.Measure(ls[j].text + [ls[j + 1].text[0]]);
      ls[j] == s.MakeLine(ls[j].text, e) && e.width >= s.limit
  }

  /** Every prefix of a line that the wrapper measured as its buffer stayed below the limit. */
  ghost predicate PrefixesFit(s: WrapSetup, ls: seq<Line>)
  {
    forall j, p :: 0 <= j < |ls| && MinProbe(j) <= p <= |ls[j].text| ==>
      s.Measure(ls[j].text[..p]).width < s.limit
  }

  /** The last line is stored with the last measurement taken: (0, 0) when
      nothing was measured, the overflowing measurement when the final character
      forced a break (it is then the line's only character), and the
      measurement of the line's own text otherwise. */
  ghost predicate LastLineStored(s: WrapSetup, ls: seq<Line>)
    requires |ls| > 0
  {
    var last := ls[|ls| - 1];
    if last.text == [] then last == s.MakeLine([], Extent(0, 0))
    else if |ls| > 1 && |last.text| == 1 then
      last == s.MakeLine(last.text, Extent(ls[|ls| - 2].width, ls[|ls| - 2].height))
    else last == s.MakeLine(last.text, s.Measure(last.text))
  }

  /** `ls` is a greedy wrapping of `text`. */
  ghost predicate IsWrapOf(s: WrapSetup, text: seq<char>, ls: seq<Line>)
  {
    && |ls| > 0
    && Concat(ls) == text
    && LaterLinesNonEmpty(ls)
    && BreaksOverflow(s, ls)
    && PrefixesFit(s, ls)
    && LastLineStored(s, ls)
  }

  // ---------------------------------------------------------------------------
  // Wrap is a greedy wrapping

  /** Growing the last line by a character keeps the breaks before it. */
  lemma {:induction false} ExtendKeepsBreaks(s: WrapSetup, committed: seq<Line>, x: Line, y: Line)
    requires LaterLinesNonEmpty(committed + [x]) && BreaksOverflow(s, committed + [x])
    requires y.text != [] && (|committed| > 0 ==> x.text != [] && y.text[0] == x.text[0])
    ensures LaterLinesNonEmpty(committed + [y]) && BreaksOverflow(s, committed + [y])
  {
    var o, ls := committed + [x], committed + [y];
    forall j | 1 <= j < |ls|
      ensures ls[j].text != []
    {
      if j < |committed| {
        assert ls[j] == o[j];
      }
    }
    forall j | 0 <= j < |ls| - 1
      ensures var e := s.Measure(ls[j].text + [ls[j + 1].text[0]]);
              ls[j] == s.MakeLine(ls[j].text, e) && e.width >= s.limit
    {
      assert ls[j] == o[j];
      assert ls[j + 1].text[0] == o[j + 1].text[0];
    }
  }

  /** Growing the last line by a character that still fits keeps every measured prefix below the limit. */
  lemma {:induction false} ExtendKeepsFit(s: WrapSetup, committed: seq<Line>, x: Line, y: Line, c: char)
    requires PrefixesFit(s, committed + [x])
    requires y.text == x.text + [c] && s.Measure(y.text).width < s.limit
    ensures PrefixesFit(s, committed + [y])
  {
    var o, ls := committed + [x], committed + [y];
    forall j, p | 0 <= j < |ls| && MinProbe(j) <= p <= |ls[j].text|
      ensures s.Measure(ls[j].text[..p]).width < s.limit
    {
      if j < |committed| {
        assert ls[j] == o[j];
      } else if p < |ls[j].text| {
        assert ls[j].text[..p] == o[j].text[..p];
      } else {
        assert ls[j].text[..p] == y.text;
      }
    }
  }

  /** A character that keeps the buffer below the limit extends the last line. */
  lemma {:induction false} StepExtends(s: WrapSetup, prefix: seq<char>, committed: seq<Line>,
                                       buffer: seq<char>, last: Extent, c: char)
    requires IsWrapOf(s, prefix, committed + [s.MakeLine(buffer, last)])
    requires s.Measure(buffer + [c]).width < s.limit
    ensures IsWrapOf(s, prefix + [c], committed + [s.MakeLine(buffer + [c], s.Measure(buffer + [c]))])
  {
    var x := s.MakeLine(buffer, last);
    var y := s.MakeLine(buffer + [c], s.Measure(buffer + [c]));
    var ls := committed + [y];
    assert |committed| > 0 ==> (committed + [x])[|committed|].text != [];
    ExtendKeepsBreaks(s, committed, x, y);
    ExtendKeepsFit(s, committed, x, y, c);
    ConcatPush(committed, x);
    ConcatPush(committed, y);
    assert ls[|ls| - 1] == y;
    assert LastLineStored(s, ls);
  }

  /** Committing the buffer and carrying the overflowing character keeps the breaks before it. */
  lemma {:induction false} BreakKeepsBreaks(s: WrapSetup, committed: seq<Line>, x: Line, z: Line, w: Line)
    requires LaterLinesNonEmpty(committed + [x]) && BreaksOverflow(s, committed + [x])
    requires z.text == x.text && w.text != []
    requires z == s.MakeLine(z.text, s.Measure(z.text + [w.text[0]])) && z.width >= s.limit
    ensures LaterLinesNonEmpty(committed + [z] + [w]) && BreaksOverflow(s, committed + [z] + [w])
  {
    var o, ls := committed + [x], committed + [z] + [w];
    var n := |committed|;
    forall j | 1 <= j < |ls|
      ensures ls[j].text != []
    {
      if j < n {
        assert ls[j] == o[j];
      } else if j == n {
        assert ls[j].text == o[j].text;
      }
    }
    forall j | 0 <= j < |ls| - 1
      ensures var e := s.Measure(ls[j].text + [ls[j + 1].text[0]]);
              ls[j] == s.MakeLine(ls[j].text, e) && e.width >= s.limit
    {
      if j < n {
        assert ls[j] == o[j];
        assert ls[j + 1].text == o[j + 1].text;
      } else {
        assert ls[j] == z && ls[j + 1] == w;
      }
    }
  }

  /** Committing the buffer and carrying one character keeps every measured prefix below the limit. */
  lemma {:induction false} BreakKeepsFit(s: WrapSetup, committed: seq<Line>, x: Line, z: Line, w: Line)
    requires PrefixesFit(s, committed + [x])
    requires z.text == x.text && |w.text| == 1
    ensures PrefixesFit(s, committed + [z] + [w])
  {
    var o, ls := committed + [x], committed + [z] + [w];
    forall j, p | 0 <= j < |ls| && MinProbe(j) <= p <= |ls[j].text|
      ensures s.Measure(ls[j].text[..p]).width < s.limit
    {
      assert j <= |committed|;
      assert ls[j].text == o[j].text;
    }
  }

  /** A character that takes the buffer to the limit commits the buffer and
      starts the next line with that character. */
  lemma {:induction false} StepBreaks(s: WrapSetup, prefix: seq<char>, committed: seq<Line>,
                                      buffer: seq<char>, last: Extent, c: char)
    requires IsWrapOf(s, prefix, committed + [s.MakeLine(buffer, last)])
    requires s.Measure(buffer + [c]).width >= s.limit
    ensures IsWrapOf(s, prefix + [c],
                     committed + [s.MakeLine(buffer, s.Measure(buffer + [c]))]
                               + [s.MakeLine([c], s.Measure(buffer + [c]))])
  {
    var e := s.Measure(buffer + [c]);
    var x := s.MakeLine(buffer, last);
    var z := s.MakeLine(buffer, e);
    var w := s.MakeLine([c], e);
    var ls := committed + [z] + [w];
    assert z.text + [w.text[0]] == buffer + [c];
    BreakKeepsBreaks(s, committed, x, z, w);
    BreakKeepsFit(s, committed, x, z, w);
    ConcatPush(committed, x);
    ConcatPush(committed, z);
    ConcatPush(committed + [z], w);
    assert ls[|ls| - 1] == w && ls[|ls| - 2] == z;
    assert LastLineStored(s, ls);
  }

  /** The state the wrapper is in after any prefix assembles to a greedy wrapping of it. */
  lemma {:induction false} FeedIsWrap(s: WrapSetup, text: seq<char>)
    ensures IsWrapOf(s, text, Assemble(s, Feed(s, text)))
    decreases |text|
  {
    if text == [] {
      ConcatSingle(s.MakeLine([], Extent(0, 0)));
    } else {
      var prefix := text[..|text| - 1];
      var c := text[|text| - 1];
      var st := Feed(s, prefix);
      FeedIsWrap(s, prefix);
      assert text == prefix + [c];
      if s.Measure(st.buffer + [c]).width >= s.limit {
        StepBreaks(s, prefix, st.committed, st.buffer, st.last, c);
      } else {
        StepExtends(s, prefix, st.committed, st.buffer, st.last, c);
      }
    }
  }

  /** `Wrap` produces a greedy wrapping of its text. */
  lemma WrapIsGreedy(s: WrapSetup, text: seq<char>)
    ensures IsWrapOf(s, text, Wrap(s, text))
  {
    FeedIsWrap(s, text);
  }

  // ---------------------------------------------------------------------------
  // There is only one greedy wrapping

  /** In a greedy wrapping, every measured prefix of line j, read off the text, stays below the limit. */
  lemma {:induction false} PrefixOfLineFits(s: WrapSetup, text: seq<char>, ls: seq<Line>, j: int, p: int)
    requires IsWrapOf(s, text, ls)
    requires 0 <= j < |ls| && MinProbe(j) <= p <= |ls[j].text|
    ensures |Concat(ls[..j])| + p <= |text|
    ensures s.Measure(text[|Concat(ls[..j])|..|Concat(ls[..j])| + p]).width < s.limit
  {
    ConcatSlice(ls, j);
    assert ls[j].text[..p] == text[|Concat(ls[..j])|..|Concat(ls[..j])| + p];
  }

  /** In a greedy wrapping, line j followed by the next character of the text reaches the limit. */
  lemma {:induction false} LineThenNextOverflows(s: WrapSetup, text: seq<char>, ls: seq<Line>, j: int)
    requires IsWrapOf(s, text, ls)
    requires 0 <= j < |ls| - 1
    ensures |Concat(ls[..j])| + |ls[j].text| < |text|
    ensures s.Measure(text[|Concat(ls[..j])|..|Concat(ls[..j])| + |ls[j].text| + 1]).width >= s.limit
  {
    ConcatSlice(ls, j);
    ConcatNext(ls, j);
    assert ls[j].text + [ls[j + 1].text[0]]
        == text[|Concat(ls[..j])|..|Concat(ls[..j])| + |ls[j].text| + 1];
  }

  /** When the lines before line j cover the same characters in two greedy
      wrappings, line j of the first is at least as long as line j of the second. */
  lemma {:induction false} NotShorter(s: WrapSetup, text: seq<char>, a: seq<Line>, b: seq<Line>, j: int)
    requires IsWrapOf(s, text, a) && IsWrapOf(s, text, b)
    requires 0 <= j < |a| && j < |b|
    requires Concat(a[..j]) == Concat(b[..j])
    ensures |a[j].text| >= |b[j].text|
  {
    var t, u := a[j].text, b[j].text;
    ConcatSlice(a, j);
    ConcatSlice(b, j);
    if j < |a| - 1 {
      LineThenNextOverflows(s, text, a, j);
      if |t| < |u| {
        PrefixOfLineFits(s, text, b, j, |t| + 1);
        assert false;
      }
    } else if |t| < |u| {
      assert false;
    }
  }

  /** Two greedy wrappings of one text agree on the texts of their first j lines. */
  lemma {:induction false} TextsAgreeUpTo(s: WrapSetup, text: seq<char>, a: seq<Line>, b: seq<Line>, j: int)
    requires IsWrapOf(s, text, a) && IsWrapOf(s, text, b)
    requires 0 <= j <= |a| && j <= |b|
    ensures forall k :: 0 <= k < j ==> a[k].text == b[k].text
    decreases j
  {
    if j > 0 {
      var i := j - 1;
      TextsAgreeUpTo(s, text, a, b, i);
      ConcatSameTexts(a[..i], b[..i]);
      NotShorter(s, text, a, b, i);
      NotShorter(s, text, b, a, i);
      SameSlice(a, b, i);
    }
  }

  /** Two line lists with the same concatenation and the same text before line
      i agree on line i when its two versions are equally long. */
  lemma SameSlice(a: seq<Line>, b: seq<Line>, i: int)
    requires 0 <= i < |a| && i < |b|
    requires Concat(a) == Concat(b) && Concat(a[..i]) == Concat(b[..i])
    requires |a[i].text| == |b[i].text|
    ensures a[i].text == b[i].text
  {
    ConcatSlice(a, i);
    ConcatSlice(b, i);
  }

  /** Two greedy wrappings of one text whose line texts agree as far as the
      shorter goes have the same number of lines. */
  lemma {:induction false} LengthsAgree(s: WrapSetup, text: seq<char>, a: seq<Line>, b: seq<Line>)
    requires IsWrapOf(s, text, a) && IsWrapOf(s, text, b)
    requires |a| <= |b| && forall k :: 0 <= k < |a| ==> a[k].text == b[k].text
    ensures |a| == |b|
  {
    if |a| < |b| {
      ConcatSameTexts(a, b[..|a|]);
      ConcatAround(b, |a|);
      assert false;
    }
  }

  /** A greedy wrapping is determined by its text: any two are equal, so
      laying out the same text twice gives the same lines. */
  lemma {:induction false} WrapUnique(s: WrapSetup, text: seq<char>, a: seq<Line>, b: seq<Line>)
    requires IsWrapOf(s, text, a) && IsWrapOf(s, text, b)
    ensures a == b
  {
    if |a| <= |b| {
      TextsAgreeUpTo(s, text, a, b, |a|);
      LengthsAgree(s, text, a, b);
    } else {
      TextsAgreeUpTo(s, text, a, b, |b|);
      LengthsAgree(s, text, b, a);
    }
    forall j | 0 <= j < |a| - 1
      ensures a[j] == b[j]
    {
      assert a[j + 1].text == b[j + 1].text;
    }
    var n := |a| - 1;
    if n > 0 {
      assert a[n - 1] == b[n - 1];
    }
    assert a[n] == b[n];
    assert forall j :: 0 <= j < |a| ==> a[j] == b[j];
  }

  /** Wrapping the empty string gives exactly one empty line measured (0, 0). */
  lemma {:induction false} EmptyTextOneLine(s: WrapSetup, ls: seq<Line>)
    requires IsWrapOf(s, [], ls)
    ensures ls == [s.MakeLine([], Extent(0, 0))]
    ensures MaxWidth(ls) == 0 && SumHeights(ls) == 0
  {
    if |ls| > 1 {
      ConcatAround(ls, 1);
      assert false;
    }
    ConcatSingle(ls[0]);
    assert ls == [ls[0]];
  }

  /** Only the first line can be empty, and it is empty exactly when the text
      is empty or its first character alone already measures at the limit. */
  lemma {:induction false} FirstLineEmpty(s: WrapSetup, text: seq<char>, ls: seq<Line>)
    requires IsWrapOf(s, text, ls)
    ensures forall j :: 1 <= j < |ls| ==> ls[j].text != []
    ensures ls[0].text == [] <==> text == [] || s.Measure([text[0]]).width >= s.limit
  {
    ConcatAround(ls, 0);
    assert ls[..0] == [];
    if text != [] {
      if ls[0].text == [] {
        assert |ls| > 1;
        ConcatNext(ls, 0);
        assert s.Measure(ls[0].text + [ls[1].text[0]]).width >= s.limit;
        assert ls[0].text + [ls[1].text[0]] == [text[0]];
      } else {
        assert ls[0].text[..1] == [text[0]];
      }
    }
  }

  // ---------------------------------------------------------------------------
  // The loop

  /** `Lines::new(info, limit)`. */
  method NewLines(info: TextDrawInfo, limit: int, metrics: Metrics, firstLetter: seq<char> -> int)
    returns (lines: Lines)
    ensures lines.data == Wrap(WrapSetup(metrics, info.face, limit, firstLetter), info.text)
    ensures lines.size == Extent(MaxWidth(lines.data), SumHeights(lines.data))
  {
    ghost var s := WrapSetup(metrics, info.face, limit, firstLetter);
    var text := info.text;
    var data: seq<Line> := [];
    var buffer: seq<char> := [];
    var maxW, maxH := 0, 0;
    var lastW, lastH := 0, 0;
    var i := 0;
    while i < |text|
      invariant 0 <= i <= |text|
      invariant Feed(s, text[..i]) == Pending(data, buffer, Extent(lastW, lastH))
      invariant maxW == MaxWidth(data) && maxH == SumHeights(data)
    {
      var c := text[i];
      assert text[..i + 1][..i] == text[..i] && text[..i + 1][i] == c;
      buffer := buffer + [c];
      var e := metrics(info.face, buffer);
      lastW, lastH := e.width, e.height;
      if e.width >= limit {
        var committed := buffer[..|buffer| - 1];
        data := data + [Line(committed, e.width, e.height, firstLetter(committed))];
        buffer := [c];
        maxW := Max(maxW, e.width);
        maxH := maxH + e.height;
      }
      i := i + 1;
    }
    assert text[..i] == text;
    data := data + [Line(buffer, lastW, lastH, firstLetter(buffer))];
    maxW := Max(maxW, lastW);
    maxH := maxH + lastH;
    lines := Lines(data, Extent(maxW, maxH));
  }
}
