/**
 * What `GuiRenderer.clipString` and `GuiRenderer.wrapText` compute, as
 * functions and predicates over strings and a character-width function
 * supplied by the font. Widths are arbitrary integers: nothing here assumes
 * a character is wider than zero unless a lemma says so.
 */
module Text {

  /** Total rendering width of `s`, summed one character at a time as both loops do. */
  function Width(s: string, charWidth: char -> int): (r: int)
  {
    if s == [] then 0 else Width(s[..|s| - 1], charWidth) + charWidth(s[|s| - 1])
  }

  lemma WidthSnoc(s: string, c: char, charWidth: char -> int)
    ensures Width(s + [c], charWidth) == Width(s, charWidth) + charWidth(c)
  {
    assert (s + [c])[..|s|] == s;
  }

  /** With positive character widths, a longer prefix is strictly wider. */
  lemma {:induction false} WidthPrefixIncreasing(t: string, j: nat, k: nat, charWidth: char -> int)
    requires forall i :: 0 <= i < |t| ==> charWidth(t[i]) > 0
    requires j < k <= |t|
    ensures Width(t[..j], charWidth) < Width(t[..k], charWidth)
    decreases k - j
  {
    assert t[..k][..k - 1] == t[..k - 1];
    if j < k - 1 {
      WidthPrefixIncreasing(t, j, k - 1, charWidth);
    }
  }

  // ---------------------------------------------------------------------------
  // clipString
  // ---------------------------------------------------------------------------

  /**
   * `r` is `t` clipped to `width`: a prefix of `t` each of whose non-empty
   * prefixes is narrower than `width` (the test is a strict `<`), and which
   * stops only where adding the next character would reach or pass `width`.
   */
  ghost predicate IsClipOf(r: string, t: string, width: int, charWidth: char -> int)
  {
    && |r| <= |t|
    && r == t[..|r|]
    && (forall k :: 0 < k <= |r| ==> Width(t[..k], charWidth) < width)
    && (|r| < |t| ==> Width(t[..|r| + 1], charWidth) >= width)
  }

  /** The clip of a string is determined uniquely by the predicate above. */
  lemma ClipUnique(r1: string, r2: string, t: string, width: int, charWidth: char -> int)
    requires IsClipOf(r1, t, width, charWidth) && IsClipOf(r2, t, width, charWidth)
    ensures r1 == r2
  {
  }

  /**
   * The strict boundary: with positive widths, clipping to exactly the width
   * of the first `k` characters keeps only the first `k - 1` of them, so the
   * character that would exactly reach the limit is dropped.
   */
  lemma ClipAtExactWidth(r: string, t: string, k: nat, charWidth: char -> int)
    requires forall i :: 0 <= i < |t| ==> charWidth(t[i]) > 0
    requires 1 <= k <= |t|
    requires IsClipOf(r, t, Width(t[..k], charWidth), charWidth)
    ensures r == t[..k - 1]
  {
    if |r| < k - 1 {
      WidthPrefixIncreasing(t, |r| + 1, k, charWidth);
    }
  }

  // ---------------------------------------------------------------------------
  // wrapText
  // ---------------------------------------------------------------------------

  /** The only characters after which a line may break. */
  predicate IsBreak(c: char)
  {
    c == ' ' || c == '-' || c == '.'
  }

  predicate NoBreak(s: string)
  {
    forall i :: 0 <= i < |s| ==> !IsBreak(s[i])
  }

  /**
   * The shape of every line but the last: non-empty, and either ending at a
   * break character or holding none at all (a single word too wide for a line).
   */
  predicate IsWrappedLine(l: string)
  {
    l != [] && (IsBreak(l[|l| - 1]) || NoBreak(l))
  }

  /** The lines joined back together in order. */
  function Concat(lines: seq<string>): (r: string)
  {
    if lines == [] then [] else Concat(lines[..|lines| - 1]) + lines[|lines| - 1]
  }

  lemma ConcatSnoc(lines: seq<string>, l: string)
    ensures Concat(lines + [l]) == Concat(lines) + l
  {
    assert (lines + [l])[..|lines|] == lines;
  }

  /**
   * The loop's state: the finished lines, the current line, the word being
   * read, and the two width counters.
   */
  datatype WrapState = WrapState(lines: seq<string>, line: string, word: string, lineWidth: int, wordWidth: int)

  const Start := WrapState([], [], [], 0, 0)

  /** Reading one character: it joins the word, and a break character moves the word onto the line. */
  function Feed(s: WrapState, c: char, charWidth: char -> int): (r: WrapState)
    ensures r.lines == s.lines && r.lineWidth == s.lineWidth + charWidth(c)
  {
    var w := charWidth(c);
    if IsBreak(c)
    then WrapState(s.lines, s.line + s.word + [c], [], s.lineWidth + w, 0)
    else WrapState(s.lines, s.line, s.word + [c], s.lineWidth + w, s.wordWidth + w)
  }

  /**
   * Once the line counter reaches `maxWidth` the line is finished; an empty
   * line takes the whole word first, otherwise the word and its width carry
   * over to the next line.
   */
  function Emit(s: WrapState, maxWidth: int): (r: WrapState)
    ensures s.lineWidth < maxWidth ==> r == s
    ensures s.lineWidth >= maxWidth ==> |r.lines| == |s.lines| + 1 && r.line == [] && r.lineWidth == r.wordWidth
  {
    if s.lineWidth < maxWidth then s
    else if s.line == [] then WrapState(s.lines + [s.word], [], [], 0, 0)
    else WrapState(s.lines + [s.line], [], s.word, s.wordWidth, s.wordWidth)
  }

  /** One iteration of the loop. */
  function Step(s: WrapState, c: char, maxWidth: int, charWidth: char -> int): (r: WrapState)
  {
    Emit(Feed(s, c, charWidth), maxWidth)
  }

  /** The state after the loop has read all of `t`. */
  function Run(t: string, maxWidth: int, charWidth: char -> int): (r: WrapState)
    ensures |r.lines| <= |t|
  {
    if t == [] then Start
    else Step(Run(t[..|t| - 1], maxWidth, charWidth), t[|t| - 1], maxWidth, charWidth)
  }

  /** The lines `wrapText` returns: the finished lines, then the current line with the pending word. */
  function Wrap(t: string, maxWidth: int, charWidth: char -> int): (r: seq<string>)
    ensures 1 <= |r| <= |t| + 1
  {
    var s := Run(t, maxWidth, charWidth);
    s.lines + [s.line + s.word]
  }

  /** The loop invariant: the state holds exactly the text read, in order, keeps the line shapes and counts widths. */
  ghost predicate WrapInv(s: WrapState, read: string, charWidth: char -> int)
  {
    HoldsText(s, read) && WellShaped(s) && CountsWidths(s, charWidth)
  }

  /** The finished lines, the current line and the pending word are, in order, the text read so far. */
  ghost predicate HoldsText(s: WrapState, read: string)
  {
    Concat(s.lines) + s.line + s.word == read
  }

  /** Finished lines are wrapped lines, the current line is empty or ends at a break, the word holds no break. */
  ghost predicate WellShaped(s: WrapState)
  {
    && (forall i :: 0 <= i < |s.lines| ==> IsWrappedLine(s.lines[i]))
    && (s.line == [] || IsBreak(s.line[|s.line| - 1]))
    && NoBreak(s.word)
  }

  /** The line counter is the width of the current line and the pending word; the word counter that of the word. */
  ghost predicate CountsWidths(s: WrapState, charWidth: char -> int)
  {
    s.lineWidth == Width(s.line + s.word, charWidth) && s.wordWidth == Width(s.word, charWidth)
  }

  lemma FeedHolds(s: WrapState, read: string, c: char, charWidth: char -> int)
    requires HoldsText(s, read)
    ensures HoldsText(Feed(s, c, charWidth), read + [c])
  {
    var f := Feed(s, c, charWidth);
    assert f.line + f.word == s.line + s.word + [c];
    assert Concat(f.lines) + f.line + f.word == Concat(s.lines) + (f.line + f.word);
  }

  lemma EmitHolds(s: WrapState, read: string, maxWidth: int)
    requires HoldsText(s, read)
    ensures HoldsText(Emit(s, maxWidth), read)
  {
    if s.lineWidth >= maxWidth {
      if s.line == [] {
        ConcatSnoc(s.lines, s.word);
      } else {
        ConcatSnoc(s.lines, s.line);
      }
    }
  }

  /** The text read so far is held by the state, in order, whatever the widths. */
  lemma {:induction false} RunHolds(t: string, maxWidth: int, charWidth: char -> int)
    ensures HoldsText(Run(t, maxWidth, charWidth), t)
  {
    if t == [] {
      assert Concat([]) + [] + [] == t;
    } else {
      var p := t[..|t| - 1];
      var s := Run(p, maxWidth, charWidth);
      RunHolds(p, maxWidth, charWidth);
      FeedHolds(s, p, t[|t| - 1], charWidth);
      EmitHolds(Feed(s, t[|t| - 1], charWidth), p + [t[|t| - 1]], maxWidth);
      assert p + [t[|t| - 1]] == t;
    }
  }

  lemma FeedShaped(s: WrapState, c: char, charWidth: char -> int)
    requires WellShaped(s)
    ensures WellShaped(Feed(s, c, charWidth))
    ensures Feed(s, c, charWidth).line + Feed(s, c, charWidth).word != []
  {
    var f := Feed(s, c, charWidth);
    if IsBreak(c) {
      assert f.line[|f.line| - 1] == c;
    } else {
      forall i | 0 <= i < |f.word| ensures !IsBreak(f.word[i]) {
        if i < |s.word| { assert f.word[i] == s.word[i]; }
      }
      assert |f.word| > 0;
    }
  }

  lemma EmitShaped(s: WrapState, maxWidth: int)
    requires WellShaped(s)
    requires s.line + s.word != []
    ensures WellShaped(Emit(s, maxWidth))
  {
    if s.lineWidth >= maxWidth {
      if s.line == [] {
        assert s.line + s.word == s.word;
        assert IsWrappedLine(s.word);
      } else {
        assert IsWrappedLine(s.line);
      }
    }
  }

  /** The line shapes hold after the loop has read any text. */
  lemma {:induction false} RunShaped(t: string, maxWidth: int, charWidth: char -> int)
    ensures WellShaped(Run(t, maxWidth, charWidth))
  {
    if t != [] {
      var p := t[..|t| - 1];
      var s := Run(p, maxWidth, charWidth);
      RunShaped(p, maxWidth, charWidth);
      FeedShaped(s, t[|t| - 1], charWidth);
      EmitShaped(Feed(s, t[|t| - 1], charWidth), maxWidth);
    }
  }

  lemma FeedCounts(s: WrapState, c: char, charWidth: char -> int)
    requires CountsWidths(s, charWidth)
    ensures CountsWidths(Feed(s, c, charWidth), charWidth)
  {
    var f := Feed(s, c, charWidth);
    assert f.line + f.word == s.line + s.word + [c];
    WidthSnoc(s.line + s.word, c, charWidth);
    WidthSnoc(s.word, c, charWidth);
  }

  lemma EmitCounts(s: WrapState, maxWidth: int, charWidth: char -> int)
    requires CountsWidths(s, charWidth)
    ensures CountsWidths(Emit(s, maxWidth), charWidth)
  {
    if s.lineWidth >= maxWidth && s.line != [] {
      assert [] + s.word == s.word;
    }
  }

  /** The two counters are the widths of the current line with the word, and of the word. */
  lemma {:induction false} RunCounts(t: string, maxWidth: int, charWidth: char -> int)
    ensures CountsWidths(Run(t, maxWidth, charWidth), charWidth)
  {
    if t != [] {
      var p := t[..|t| - 1];
      var s := Run(p, maxWidth, charWidth);
      RunCounts(p, maxWidth, charWidth);
      FeedCounts(s, t[|t| - 1], charWidth);
      EmitCounts(Feed(s, t[|t| - 1], charWidth), maxWidth, charWidth);
    }
  }

  /** The whole loop invariant holds after the loop has read any text. */
  lemma RunInv(t: string, maxWidth: int, charWidth: char -> int)
    ensures WrapInv(Run(t, maxWidth, charWidth), t, charWidth)
  {
    RunHolds(t, maxWidth, charWidth);
    RunShaped(t, maxWidth, charWidth);
    RunCounts(t, maxWidth, charWidth);
  }

  /** Joining the wrapped lines gives back the text: no character is lost, added or moved. */
  lemma WrapConcat(t: string, maxWidth: int, charWidth: char -> int)
    ensures Concat(Wrap(t, maxWidth, charWidth)) == t
  {
    var s := Run(t, maxWidth, charWidth);
    RunHolds(t, maxWidth, charWidth);
    assert HoldsText(s, t);
    ConcatSnoc(s.lines, s.line + s.word);
    assert Concat(s.lines) + (s.line + s.word) == Concat(s.lines) + s.line + s.word;
  }

  /**
   * There is always at least one line, and every line but the last is
   * non-empty and ends at a break character or holds none.
   */
  lemma WrapShape(t: string, maxWidth: int, charWidth: char -> int)
    ensures |Wrap(t, maxWidth, charWidth)| >= 1
    ensures forall i :: 0 <= i < |Wrap(t, maxWidth, charWidth)| - 1 ==> IsWrappedLine(Wrap(t, maxWidth, charWidth)[i])
  {
    RunShaped(t, maxWidth, charWidth);
  }

  /** Every non-empty prefix of `t` is narrower than `maxWidth`. */
  ghost predicate NarrowPrefixes(t: string, maxWidth: int, charWidth: char -> int)
  {
    forall k :: 0 < k <= |t| ==> Width(t[..k], charWidth) < maxWidth
  }

  lemma NarrowSnoc(t: string, maxWidth: int, charWidth: char -> int)
    requires t != []
    ensures NarrowPrefixes(t, maxWidth, charWidth)
        <==> NarrowPrefixes(t[..|t| - 1], maxWidth, charWidth) && Width(t, charWidth) < maxWidth
  {
    var p := t[..|t| - 1];
    assert t[..|t|] == t;
    if NarrowPrefixes(t, maxWidth, charWidth) {
      forall k | 0 < k <= |p| ensures Width(p[..k], charWidth) < maxWidth {
        assert p[..k] == t[..k];
      }
    }
    if NarrowPrefixes(p, maxWidth, charWidth) && Width(t, charWidth) < maxWidth {
      forall k | 0 < k <= |t| ensures Width(t[..k], charWidth) < maxWidth {
        if k < |t| {
          assert t[..k] == p[..k];
        }
      }
    }
  }

  /**
   * The loop finishes no line exactly when every non-empty prefix of the
   * text read is narrower than `maxWidth`: a line ends only once the line
   * counter reaches the limit.
   */
  lemma {:induction false} RunOneLine(t: string, maxWidth: int, charWidth: char -> int)
    ensures Run(t, maxWidth, charWidth).lines == [] <==> NarrowPrefixes(t, maxWidth, charWidth)
  {
    if t != [] {
      var p := t[..|t| - 1];
      var c := t[|t| - 1];
      RunOneLine(p, maxWidth, charWidth);
      NarrowSnoc(t, maxWidth, charWidth);
      var s := Run(p, maxWidth, charWidth);
      if s.lines == [] {
        RunHolds(p, maxWidth, charWidth);
        RunCounts(p, maxWidth, charWidth);
        assert s.line + s.word == p by { assert HoldsText(s, p); }
        assert Feed(s, c, charWidth).lineWidth == Width(t, charWidth) by {
          WidthSnoc(p, c, charWidth);
          assert p + [c] == t;
        }
      }
    }
  }

  /**
   * The text comes back as a single line exactly when every non-empty
   * prefix of it is narrower than `maxWidth`; otherwise it is split.
   */
  lemma WrapOneLine(t: string, maxWidth: int, charWidth: char -> int)
    ensures Wrap(t, maxWidth, charWidth) == [t]
        <==> forall k :: 0 < k <= |t| ==> Width(t[..k], charWidth) < maxWidth
  {
    var s := Run(t, maxWidth, charWidth);
    RunOneLine(t, maxWidth, charWidth);
    RunHolds(t, maxWidth, charWidth);
    assert HoldsText(s, t);
    if s.lines == [] {
      assert s.line + s.word == t;
    }
  }

  /** The empty text wraps to one empty line. */
  lemma WrapEmpty(maxWidth: int, charWidth: char -> int)
    ensures Wrap("", maxWidth, charWidth) == [""]
  {
    assert Run("", maxWidth, charWidth) == Start;
    assert Start.line + Start.word == "";
  }

  /** What `wrapText` promises of its result, gathered for the method that computes it. */
  lemma WrapFacts(t: string, maxWidth: int, charWidth: char -> int)
    ensures |Wrap(t, maxWidth, charWidth)| >= 1 && Concat(Wrap(t, maxWidth, charWidth)) == t
    ensures forall i :: 0 <= i < |Wrap(t, maxWidth, charWidth)| - 1 ==> IsWrappedLine(Wrap(t, maxWidth, charWidth)[i])
    ensures Wrap(t, maxWidth, charWidth) == [t] <==> forall k :: 0 < k <= |t| ==> Width(t[..k], charWidth) < maxWidth
    ensures t == "" ==> Wrap(t, maxWidth, charWidth) == [""]
  {
    WrapConcat(t, maxWidth, charWidth);
    WrapShape(t, maxWidth, charWidth);
    WrapOneLine(t, maxWidth, charWidth);
    if t == "" {
      WrapEmpty(maxWidth, charWidth);
    }
  }

  /** A font in which every character is 2 pixels wide. */
  function TwoWide(c: char): (r: int)
  {
    2
  }

  /**
   * With every character 2 wide, "hello world" at a limit of 11 (more than
   * "hello", less than "hello ") breaks after "hello ". The first line is 12
   * wide: a line is finished once it reaches the limit, so it can pass it.
   */
  lemma WrapHelloWorld()
    ensures Wrap("hello world", 11, TwoWide) == ["hello ", "world"]
    ensures Width("hello ", TwoWide) == 12
  {
    RunHelloWorldWord();
    assert [] + "world" == "world";
    WidthSnoc("hello", ' ', TwoWide);
    assert "hello" + [' '] == "hello ";
    WidthSnoc("hell", 'o', TwoWide);
    assert "hell" + ['o'] == "hello";
    WidthSnoc("hel", 'l', TwoWide);
    assert "hel" + ['l'] == "hell";
    WidthSnoc("he", 'l', TwoWide);
    assert "he" + ['l'] == "hel";
    WidthSnoc("h", 'e', TwoWide);
    assert "h" + ['e'] == "he";
    WidthSnoc("", 'h', TwoWide);
    assert "" + ['h'] == "h";
  }

  lemma RunSnoc(t: string, c: char, maxWidth: int, charWidth: char -> int)
    ensures Run(t + [c], maxWidth, charWidth) == Step(Run(t, maxWidth, charWidth), c, maxWidth, charWidth)
  {
    assert (t + [c])[..|t|] == t;
  }

  /** After "h" the character is the pending word, 2 wide. */
  lemma RunHWord()
    ensures Run("h", 11, TwoWide) == WrapState([], [], "h", 2, 2)
  {
    assert Run("", 11, TwoWide) == Start;
    RunSnoc("", 'h', 11, TwoWide);
    assert "" + ['h'] == "h";
    assert Feed(Start, 'h', TwoWide) == WrapState([], [], "h", 2, 2);
  }

  /** After "he" the pending word is "he", 4 wide. */
  lemma RunHeWord()
    ensures Run("he", 11, TwoWide) == WrapState([], [], "he", 4, 4)
  {
    RunHWord();
    RunSnoc("h", 'e', 11, TwoWide);
    assert "h" + ['e'] == "he";
    assert Feed(WrapState([], [], "h", 2, 2), 'e', TwoWide) == WrapState([], [], "he", 4, 4);
  }

  /** After "hell" the pending word is "hell", 8 wide. */
  lemma RunHellWord()
    ensures Run("hell", 11, TwoWide) == WrapState([], [], "hell", 8, 8)
  {
    RunHeWord();
    RunSnoc("he", 'l', 11, TwoWide);
    assert "he" + ['l'] == "hel";
    assert Feed(WrapState([], [], "he", 4, 4), 'l', TwoWide) == WrapState([], [], "hel", 6, 6);
    assert Run("hel", 11, TwoWide) == WrapState([], [], "hel", 6, 6);
    RunSnoc("hel", 'l', 11, TwoWide);
    assert "hel" + ['l'] == "hell";
    assert Feed(WrapState([], [], "hel", 6, 6), 'l', TwoWide) == WrapState([], [], "hell", 8, 8);
  }

  /** The space after "hello" takes the counter to 12, which finishes the line "hello ". */
  lemma RunHelloSpaceLine()
    ensures Run("hello ", 11, TwoWide) == WrapState(["hello "], [], [], 0, 0)
  {
    RunHellWord();
    RunSnoc("hell", 'o', 11, TwoWide);
    assert "hell" + ['o'] == "hello";
    assert Run("hello", 11, TwoWide) == WrapState([], [], "hello", 10, 10);
    RunSnoc("hello", ' ', 11, TwoWide);
    assert "hello" + [' '] == "hello ";
    assert [] + "hello" + [' '] == "hello ";
  }

  /** After "hello world" the finished line is "hello " and "world" is the pending word, 10 wide. */
  lemma RunHelloWorldWord()
    ensures Run("hello world", 11, TwoWide) == WrapState(["hello "], [], "world", 10, 10)
  {
    RunHelloSpaceLine();
    RunSnoc("hello ", 'w', 11, TwoWide);
    assert "hello " + ['w'] == "hello w";
    RunSnoc("hello w", 'o', 11, TwoWide);
    assert "hello w" + ['o'] == "hello wo";
    RunSnoc("hello wo", 'r', 11, TwoWide);
    assert "hello wo" + ['r'] == "hello wor";
    RunSnoc("hello wor", 'l', 11, TwoWide);
    assert "hello wor" + ['l'] == "hello worl";
    RunSnoc("hello worl", 'd', 11, TwoWide);
    assert "hello worl" + ['d'] == "hello world";
    assert [] + ['w'] == "w";
  }
}
