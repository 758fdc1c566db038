/**
 * The label layout helpers of mapgen/overlay/overlay_util.py: zoom-scaled
 * clamped sizes, the greedy word wrap and its width choice, the label and
 * legend paste positions, and the validation of a zone's label anchor.
 * Fonts enter only through their measurements: `getlength` is an
 * uninterpreted function, `getmetrics` its ascent and descent.
 */
module OverlayUtil {
  import opened Basics
  import opened Text
  import opened Zones
  import MapCoordinates

  /** A loaded font, known only by its size and its measurements. */
  datatype Font = Font(size: int, getLength: string -> real, ascent: int, descent: int)

  // ---------------------------------------------------------------- sizes

  /** `size_multiplier * zoom_factor ** zoom`, with a zoom factor of 2. */
  function ZoomSizeMultiplier(zoom: int, m: real): (r: real)
    ensures m > 0.0 ==> r > 0.0
    ensures m == 0.0 ==> r == 0.0
  {
    m * Pow2Real(zoom)
  }

  lemma Pow2RealStep(z: int)
    ensures Pow2Real(z + 1) == 2.0 * Pow2Real(z)
  {
    if z >= 0 {
      assert Pow2(z + 1) == 2 * Pow2(z);
    } else {
      var p := Pow2(-z - 1) as real;
      assert Pow2(-z) == 2 * Pow2(-z - 1);
      if z == -1 {
        assert Pow2Real(z) == 1.0 / 2.0;
      } else {
        assert Pow2Real(z + 1) == 1.0 / p;
        assert Pow2Real(z) == 1.0 / (2.0 * p);
      }
    }
  }

  /** Each zoom step doubles the multiplier. */
  lemma ZoomSizeMultiplierDoubles(zoom: int, m: real)
    ensures ZoomSizeMultiplier(zoom + 1, m) == 2.0 * ZoomSizeMultiplier(zoom, m)
  {
    Pow2RealStep(zoom);
  }

  /** `min(hi, max(lo, round(k * x)))`. */
  function ClampedSize(lo: int, hi: int, k: real, x: real): (n: int)
    requires lo <= hi
    ensures lo <= n <= hi
    ensures lo <= Round(k * x) <= hi ==> n == Round(k * x)
  {
    Clamp(lo, hi, Round(k * x))
  }

  /** A larger input never gives a smaller clamped size. */
  lemma ClampedSizeMonotone(lo: int, hi: int, k: real, x: real, y: real)
    requires lo <= hi && k >= 0.0 && x <= y
    ensures ClampedSize(lo, hi, k, x) <= ClampedSize(lo, hi, k, y)
  {
    assert k * x <= k * y;
    RoundMonotone(k * x, k * y);
    ClampMonotone(lo, hi, Round(k * x), Round(k * y));
  }

  function MainLabelFontSize(zoom: int, m: real): (n: int)
    ensures 8 <= n <= 64
  {
    ClampedSize(8, 64, 2.5, ZoomSizeMultiplier(zoom, m))
  }

  function SubLabelFontSize(zoom: int, m: real): (n: int)
    ensures 8 <= n <= 32
  {
    ClampedSize(8, 32, 2.0, ZoomSizeMultiplier(zoom, m))
  }

  function LegendFontSize(zoom: int, m: real): (n: int)
    ensures 10 <= n <= 28
  {
    ClampedSize(10, 28, 2.0, ZoomSizeMultiplier(zoom, m))
  }

  function IconSize(zoom: int, m: real): (n: int)
    ensures 12 <= n <= 32
  {
    ClampedSize(12, 32, 3.0, ZoomSizeMultiplier(zoom, m))
  }

  function LineWidth(zoom: int, m: real): (n: int)
    ensures 1 <= n <= 32
  {
    ClampedSize(1, 32, 0.3, ZoomSizeMultiplier(zoom, m))
  }

  function TextOutlineWidth(fontSize: int): (n: int)
    ensures 1 <= n <= 8
  {
    ClampedSize(1, 8, 0.1, fontSize as real)
  }

  /** A larger size multiplier never gives a smaller main label font. */
  lemma MainLabelFontSizeMonotone(zoom: int, a: real, b: real)
    requires a <= b
    ensures MainLabelFontSize(zoom, a) <= MainLabelFontSize(zoom, b)
  {
    var p := Pow2Real(zoom);
    assert a * p <= b * p;
    ClampedSizeMonotone(8, 64, 2.5, ZoomSizeMultiplier(zoom, a), ZoomSizeMultiplier(zoom, b));
  }

  // ---------------------------------------------------------------- wrapping

  /** The line of each group of words: the words joined by single spaces. */
  function JoinEach(groups: seq<seq<string>>): (lines: seq<string>)
    ensures |lines| == |groups|
  {
    seq(|groups|, k requires 0 <= k < |groups| => Join(groups[k], " "))
  }

  /** The words of all groups, in order. */
  function Flatten(groups: seq<seq<string>>): seq<string>
  {
    if |groups| == 0 then [] else Flatten(groups[..|groups| - 1]) + groups[|groups| - 1]
  }

  lemma FlattenOne(g: seq<string>)
    ensures Flatten([g]) == g
  {
    assert [g][..0] == [];
    assert [] + g == g;
  }

  lemma FlattenSnoc(groups: seq<seq<string>>, g: seq<string>)
    ensures Flatten(groups + [g]) == Flatten(groups) + g
  {
    assert (groups + [g])[..|groups|] == groups;
  }

  /**
   * The append rule: the word joins the current line when the joined line
   * measures at most `width`, or when the current line has fewer than 3
   * characters. The first word of the text is the joined line on its own.
   */
  predicate Fits(current: seq<string>, word: string, first: bool, measure: string -> real, width: real)
  {
    var line := if first then word else Join(current, " ") + " " + word;
    measure(line) <= width || |Join(current, " ")| < 3
  }

  /** One word of the greedy wrap: extend the current (last) line, or start a new one. */
  function WrapAdd(prev: seq<seq<string>>, word: string, first: bool, measure: string -> real, width: real)
    : (groups: seq<seq<string>>)
    requires |prev| >= 1
    ensures |groups| >= 1
  {
    if Fits(prev[|prev| - 1], word, first, measure, width) then prev[..|prev| - 1] + [prev[|prev| - 1] + [word]]
    else prev + [[word]]
  }

  /**
   * The greedy wrap, word by word, starting from one empty line: the groups
   * of words that make up the lines.
   */
  function WrapGroups(words: seq<string>, measure: string -> real, width: real): (groups: seq<seq<string>>)
    ensures |groups| >= 1
  {
    if |words| == 0 then [[]]
    else WrapAdd(WrapGroups(words[..|words| - 1], measure, width), words[|words| - 1], |words| == 1, measure, width)
  }

  /** The lines of `get_wrapped_text_lines(text, font, width)`. */
  function WrapText(text: string, font: Font, width: real): seq<string>
  {
    JoinEach(WrapGroups(SplitOn(text, ' '), font.getLength, width))
  }

  /** The first word always lands in the initial empty line. */
  lemma WrapGroupsOne(word: string, measure: string -> real, width: real)
    ensures WrapGroups([word], measure, width) == [[word]]
  {
    assert [word][..0] == [];
    var prev := WrapGroups([], measure, width);
    assert prev == [[]];
    var empty: seq<string> := [];
    assert prev[0] == empty && empty + [word] == [word];
    assert Join(empty, " ") == "";
    assert Fits(prev[0], word, true, measure, width);
    assert WrapGroups([word], measure, width) == WrapAdd(prev, word, true, measure, width);
    assert prev[..0] + [prev[0] + [word]] == [[word]];
  }

  /** Unfolds the wrap of a longer word list by one step. */
  lemma WrapGroupsSnoc(words: seq<string>, word: string, measure: string -> real, width: real)
    requires |words| >= 1
    ensures WrapGroups(words + [word], measure, width)
         == WrapAdd(WrapGroups(words, measure, width), word, false, measure, width)
  {
    assert (words + [word])[..|words|] == words;
  }

  /** No line is without words. */
  ghost predicate NonEmptyGroups(groups: seq<seq<string>>)
  {
    forall k :: 0 <= k < |groups| ==> |groups[k]| >= 1
  }

  /** Extending the last group, or adding a group of one word, keeps the groups non-empty and the words in order. */
  lemma ExtendLastShape(prev: seq<seq<string>>, word: string, groups: seq<seq<string>>)
    requires |prev| >= 1 && NonEmptyGroups(prev)
    requires groups == prev[..|prev| - 1] + [prev[|prev| - 1] + [word]] || groups == prev + [[word]]
    ensures Flatten(groups) == Flatten(prev) + [word] && NonEmptyGroups(groups)
  {
    var front := prev[..|prev| - 1];
    var current := prev[|prev| - 1];
    assert prev == front + [current];
    FlattenSnoc(front, current);
    if groups == front + [current + [word]] {
      FlattenSnoc(front, current + [word]);
      forall k | 0 <= k < |groups| ensures |groups[k]| >= 1 {
        if k < |front| { assert groups[k] == prev[k]; }
      }
    } else {
      FlattenSnoc(prev, [word]);
      forall k | 0 <= k < |groups| ensures |groups[k]| >= 1 {
        if k < |prev| { assert groups[k] == prev[k]; }
      }
    }
  }

  /** Adding a word to non-empty groups keeps the words in order and the groups non-empty. */
  lemma WrapAddShape(prev: seq<seq<string>>, word: string, first: bool, measure: string -> real, width: real)
    requires |prev| >= 1 && NonEmptyGroups(prev)
    ensures var groups := WrapAdd(prev, word, first, measure, width);
            Flatten(groups) == Flatten(prev) + [word] && NonEmptyGroups(groups)
  {
    ExtendLastShape(prev, word, WrapAdd(prev, word, first, measure, width));
  }

  /** The groups hold exactly the words, in order, none of them empty. */
  lemma {:induction false} WrapGroupsShape(words: seq<string>, measure: string -> real, width: real)
    requires |words| >= 1
    ensures var groups := WrapGroups(words, measure, width);
            Flatten(groups) == words && NonEmptyGroups(groups)
    decreases |words|
  {
    var n := |words|;
    if n == 1 {
      var word := words[0];
      assert words == [word];
      WrapGroupsOne(word, measure, width);
      FlattenOne([word]);
      assert NonEmptyGroups([[word]]);
    } else {
      var init, word := words[..n - 1], words[n - 1];
      assert init + [word] == words;
      WrapGroupsShape(init, measure, width);
      WrapGroupsShapeStep(init, word, measure, width);
    }
  }

  /** One more word keeps the groups exactly the words, in order, none of them empty. */
  lemma WrapGroupsShapeStep(init: seq<string>, word: string, measure: string -> real, width: real)
    requires |init| >= 1
    requires var prev := WrapGroups(init, measure, width);
             Flatten(prev) == init && NonEmptyGroups(prev)
    ensures var groups := WrapGroups(init + [word], measure, width);
            Flatten(groups) == init + [word] && NonEmptyGroups(groups)
  {
    WrapGroupsSnoc(init, word, measure, width);
    WrapAddShape(WrapGroups(init, measure, width), word, false, measure, width);
  }

  /** The line breaks of a wrap: each taken because the line had 3 characters and the next word did not fit. */
  ghost predicate BreaksForced(groups: seq<seq<string>>, measure: string -> real, width: real)
  {
    forall l :: 1 <= l < |groups| ==> BreakBefore(groups, l, measure, width)
  }

  /** Line l starts with a word, and the line before it was full: at least 3 characters, and that word did not fit. */
  ghost predicate BreakBefore(groups: seq<seq<string>>, l: int, measure: string -> real, width: real)
    requires 1 <= l < |groups|
  {
    && |groups[l]| >= 1
    && |Join(groups[l - 1], " ")| >= 3
    && !Fits(groups[l - 1], groups[l][0], false, measure, width)
  }

  /** The words after the first of each line: each one accepted by the append rule. */
  ghost predicate AppendsAccepted(groups: seq<seq<string>>, measure: string -> real, width: real)
  {
    forall k, j :: 0 <= k < |groups| && 1 <= j < |groups[k]| ==>
      Fits(groups[k][..j], groups[k][j], false, measure, width)
  }

  lemma ExtendLastBreaks(prev: seq<seq<string>>, word: string, groups: seq<seq<string>>,
                         measure: string -> real, width: real)
    requires |prev| >= 1 && |prev[|prev| - 1]| >= 1
    requires BreaksForced(prev, measure, width)
    requires var current := prev[|prev| - 1];
             || groups == prev[..|prev| - 1] + [current + [word]]
             || (groups == prev + [[word]] && |Join(current, " ")| >= 3 && !Fits(current, word, false, measure, width))
    ensures BreaksForced(groups, measure, width)
  {
    var current := prev[|prev| - 1];
    if groups == prev[..|prev| - 1] + [current + [word]] {
      forall l | 1 <= l < |groups|
        ensures BreakBefore(groups, l, measure, width)
      {
        assert BreakBefore(prev, l, measure, width);
        assert groups[l - 1] == prev[l - 1];
        if l < |prev| - 1 {
          assert groups[l] == prev[l];
        } else {
          assert groups[l] == current + [word];
          assert groups[l][0] == prev[l][0];
        }
      }
    } else {
      forall l | 1 <= l < |groups|
        ensures BreakBefore(groups, l, measure, width)
      {
        assert groups[l - 1] == prev[l - 1];
        if l < |prev| {
          assert BreakBefore(prev, l, measure, width);
          assert groups[l] == prev[l];
        } else {
          assert groups[l] == [word] && groups[l - 1] == current;
        }
      }
    }
  }

  lemma WrapAddBreaks(prev: seq<seq<string>>, word: string, measure: string -> real, width: real)
    requires |prev| >= 1 && |prev[|prev| - 1]| >= 1
    requires BreaksForced(prev, measure, width)
    ensures BreaksForced(WrapAdd(prev, word, false, measure, width), measure, width)
  {
    ExtendLastBreaks(prev, word, WrapAdd(prev, word, false, measure, width), measure, width);
  }

  lemma WrapAddAccepts(prev: seq<seq<string>>, word: string, measure: string -> real, width: real)
    requires |prev| >= 1
    requires AppendsAccepted(prev, measure, width)
    ensures AppendsAccepted(WrapAdd(prev, word, false, measure, width), measure, width)
  {
    var groups := WrapAdd(prev, word, false, measure, width);
    var current := prev[|prev| - 1];
    var last := |prev| - 1;
    if Fits(current, word, false, measure, width) {
      forall k, j | 0 <= k < |groups| && 1 <= j < |groups[k]|
        ensures Fits(groups[k][..j], groups[k][j], false, measure, width)
      {
        if k < last {
          assert groups[k] == prev[k];
        } else if j < |current| {
          assert groups[k][..j] == current[..j] && groups[k][j] == current[j];
        } else {
          assert groups[k][..j] == current && groups[k][j] == word;
        }
      }
    } else {
      assert groups == prev + [[word]];
      forall k, j | 0 <= k < |groups| && 1 <= j < |groups[k]|
        ensures Fits(groups[k][..j], groups[k][j], false, measure, width)
      {
        assert k < |prev| && groups[k] == prev[k];
      }
    }
  }

  /**
   * A line break is only ever taken when it had to be: the line before it
   * has at least 3 characters and would not fit with the next word added.
   */
  lemma {:induction false} WrapBreakRule(words: seq<string>, measure: string -> real, width: real)
    requires |words| >= 1
    ensures BreaksForced(WrapGroups(words, measure, width), measure, width)
    decreases |words|
  {
    var n := |words|;
    if n == 1 {
      var word := words[0];
      assert words == [word];
      WrapGroupsOne(word, measure, width);
    } else {
      var init, word := words[..n - 1], words[n - 1];
      assert init + [word] == words;
      WrapBreakRule(init, measure, width);
      WrapBreakStep(init, word, measure, width);
    }
  }

  lemma WrapBreakStep(init: seq<string>, word: string, measure: string -> real, width: real)
    requires |init| >= 1 && BreaksForced(WrapGroups(init, measure, width), measure, width)
    ensures BreaksForced(WrapGroups(init + [word], measure, width), measure, width)
  {
    WrapGroupsShape(init, measure, width);
    WrapGroupsSnoc(init, word, measure, width);
    WrapAddBreaks(WrapGroups(init, measure, width), word, measure, width);
  }

  /** Every word after the first of a line was accepted by the append rule. */
  lemma {:induction false} WrapAcceptRule(words: seq<string>, measure: string -> real, width: real)
    requires |words| >= 1
    ensures AppendsAccepted(WrapGroups(words, measure, width), measure, width)
    decreases |words|
  {
    var n := |words|;
    if n == 1 {
      var word := words[0];
      assert words == [word];
      WrapGroupsOne(word, measure, width);
    } else {
      var init, word := words[..n - 1], words[n - 1];
      assert init + [word] == words;
      WrapAcceptRule(init, measure, width);
      WrapAcceptStep(init, word, measure, width);
    }
  }

  lemma WrapAcceptStep(init: seq<string>, word: string, measure: string -> real, width: real)
    requires |init| >= 1 && AppendsAccepted(WrapGroups(init, measure, width), measure, width)
    ensures AppendsAccepted(WrapGroups(init + [word], measure, width), measure, width)
  {
    WrapGroupsSnoc(init, word, measure, width);
    WrapAddAccepts(WrapGroups(init, measure, width), word, measure, width);
  }

  lemma {:induction false} FlattenLength(groups: seq<seq<string>>)
    requires NonEmptyGroups(groups)
    ensures |Flatten(groups)| >= |groups|
    decreases |groups|
  {
    if |groups| > 0 {
      FlattenLength(groups[..|groups| - 1]);
    }
  }

  /** Joining the lines of non-empty groups joins all their words. */
  lemma {:induction false} JoinFlatten(groups: seq<seq<string>>)
    requires |groups| >= 1
    requires NonEmptyGroups(groups)
    ensures Join(JoinEach(groups), " ") == Join(Flatten(groups), " ")
    decreases |groups|
  {
    var n := |groups|;
    var init := groups[..n - 1];
    var last := groups[n - 1];
    assert groups == init + [last];
    FlattenSnoc(init, last);
    if n == 1 {
      assert Flatten(groups) == last;
      assert JoinEach(groups) == [Join(last, " ")];
    } else {
      JoinFlatten(init);
      assert JoinEach(groups) == JoinEach(init) + [Join(last, " ")];
      JoinSnoc(JoinEach(init), Join(last, " "), " ");
      FlattenLength(init);
      JoinAppend(Flatten(init), last, " ");
    }
  }

  /**
   * The wrap only inserts line breaks at spaces: joining the lines with
   * single spaces gives back the text, so no word is ever split.
   */
  lemma WrapTextRoundTrip(text: string, font: Font, width: real)
    ensures Join(WrapText(text, font, width), " ") == text
  {
    var words := SplitOn(text, ' ');
    WrapGroupsShape(words, font.getLength, width);
    JoinFlatten(WrapGroups(words, font.getLength, width));
    SplitOnJoin(text, ' ');
  }

  /** The empty text wraps to one empty line. */
  lemma WrapTextEmpty(font: Font, width: real)
    ensures WrapText("", font, width) == [""]
  {
    assert SplitOn("", ' ') == [""];
    WrapGroupsOne("", font.getLength, width);
    assert JoinEach([[""]]) == [Join([""], " ")];
  }

  /**
   * The lines after one more word: the word joins the last line (or, for the
   * first word, replaces the empty start line) when the line still fits or
   * the last line is shorter than three characters, and starts a line otherwise.
   */
  function NextLines(lines: seq<string>, word: string, first: bool, measure: string -> real, width: real): seq<string>
    requires |lines| > 0
  {
    var last := lines[|lines| - 1];
    var line := if first then word else last + " " + word;
    if measure(line) <= width || |last| < 3 then lines[|lines| - 1 := line] else lines + [word]
  }

  /** One step of the loop of `get_wrapped_text_lines`, stated on lines. */
  lemma WrapStep(words: seq<string>, word: string, measure: string -> real, width: real)
    ensures |JoinEach(WrapGroups(words, measure, width))| > 0
    ensures JoinEach(WrapGroups(words + [word], measure, width))
         == NextLines(JoinEach(WrapGroups(words, measure, width)), word, |words| == 0, measure, width)
  {
    if |words| > 0 {
      WrapStepNext(words, word, measure, width);
    } else {
      assert words == [] && words + [word] == [word];
      WrapStepFirst(word, measure, width);
      assert NextLines([""], word, true, measure, width) == [word];
    }
  }

  /** The wrap starts from one empty line, and the first word replaces it. */
  lemma WrapStepFirst(word: string, measure: string -> real, width: real)
    ensures JoinEach(WrapGroups([], measure, width)) == [""]
    ensures JoinEach(WrapGroups([word], measure, width)) == [word]
  {
    assert WrapGroups([], measure, width) == [[]];
    assert JoinEach([[]]) == [Join([], " ")];
    WrapGroupsOne(word, measure, width);
    assert JoinEach([[word]]) == [Join([word], " ")];
  }

  /** A later word extends the last line when the append rule accepts it, and starts a new line otherwise. */
  lemma WrapStepNext(words: seq<string>, word: string, measure: string -> real, width: real)
    requires |words| > 0
    ensures |JoinEach(WrapGroups(words, measure, width))| > 0
    ensures JoinEach(WrapGroups(words + [word], measure, width))
         == NextLines(JoinEach(WrapGroups(words, measure, width)), word, false, measure, width)
  {
    var prev := WrapGroups(words, measure, width);
    WrapGroupsShape(words, measure, width);
    assert |prev[|prev| - 1]| >= 1;
    WrapGroupsSnoc(words, word, measure, width);
    WrapAddLines(prev, word, measure, width);
  }

  /** `WrapAdd` after the first word, seen on the joined lines, is `NextLines`. */
  lemma WrapAddLines(prev: seq<seq<string>>, word: string, measure: string -> real, width: real)
    requires |prev| >= 1 && |prev[|prev| - 1]| >= 1
    ensures |JoinEach(prev)| > 0
    ensures JoinEach(WrapAdd(prev, word, false, measure, width)) == NextLines(JoinEach(prev), word, false, measure, width)
  {
    var current := prev[|prev| - 1];
    var lines := JoinEach(prev);
    assert lines[|lines| - 1] == Join(current, " ");
    if Fits(current, word, false, measure, width) {
      var line := lines[|lines| - 1] + " " + word;
      assert WrapAdd(prev, word, false, measure, width) == prev[..|prev| - 1] + [current + [word]];
      JoinEachExtendLast(prev, word);
      assert measure(line) <= width || |lines[|lines| - 1]| < 3;
      assert NextLines(lines, word, false, measure, width) == lines[|lines| - 1 := line];
    } else {
      JoinEachNewLine(prev, word);
    }
  }

  /** A new line holding one word adds that word as a line. */
  lemma JoinEachNewLine(prev: seq<seq<string>>, word: string)
    ensures JoinEach(prev + [[word]]) == JoinEach(prev) + [word]
  {
    assert Join([word], " ") == word;
  }

  /** A word added to the last group adds a space and the word to the last line. */
  lemma JoinEachExtendLast(prev: seq<seq<string>>, word: string)
    requires |prev| >= 1 && |prev[|prev| - 1]| >= 1
    ensures var lines := JoinEach(prev);
            JoinEach(prev[..|prev| - 1] + [prev[|prev| - 1] + [word]])
              == lines[|lines| - 1 := lines[|lines| - 1] + " " + word]
  {
    JoinSnoc(prev[|prev| - 1], word, " ");
  }

  /** The loop step of `get_wrapped_text_lines` on the first `i` words. */
  lemma WrapLoopStep(words: seq<string>, i: int, lines: seq<string>, measure: string -> real, width: real)
    requires 0 <= i < |words| && lines == JoinEach(WrapGroups(words[..i], measure, width))
    ensures var last := lines[|lines| - 1];
            var line := if i > 0 then last + " " + words[i] else words[i];
            var next := if measure(line) <= width || |last| < 3 then lines[|lines| - 1 := line] else lines + [words[i]];
            next == JoinEach(WrapGroups(words[..i + 1], measure, width))
  {
    var prefix := words[..i];
    assert |prefix| == i;
    assert prefix + [words[i]] == words[..i + 1];
    WrapStep(prefix, words[i], measure, width);
    var last := lines[|lines| - 1];
    var line := if i > 0 then last + " " + words[i] else words[i];
    assert NextLines(lines, words[i], i == 0, measure, width)
        == if measure(line) <= width || |last| < 3 then lines[|lines| - 1 := line] else lines + [words[i]];
  }

  /** `get_wrapped_text_lines`. */
  method GetWrappedTextLines(text: string, font: Font, lineLength: real) returns (lines: seq<string>)
    ensures lines == WrapText(text, font, lineLength)
  {
    var words := SplitOn(text, ' ');
    lines := [""];
    assert words[..0] == [];
    assert JoinEach([[]]) == [Join([], " ")];
    for i := 0 to |words|
      invariant lines == JoinEach(WrapGroups(words[..i], font.getLength, lineLength))
    {
      var word := words[i];
      WrapLoopStep(words, i, lines, font.getLength, lineLength);
      var line := if i > 0 then lines[|lines| - 1] + " " + word else word;
      if font.getLength(line) <= lineLength || |lines[|lines| - 1]| < 3 {
        lines := lines[|lines| - 1 := line];
      } else {
        lines := lines + [word];
      }
    }
    assert words[..|words|] == words;
  }

  /** The factor `2 - clamp(ratio, 0, 1)` that widens the wrap of flat boxes. */
  function WidthFactor(boxHeight: real, heightForMaxWidth: real, heightForMinWidth: real): (f: real)
    requires heightForMinWidth != heightForMaxWidth
    ensures 1.0 <= f <= 2.0
  {
    2.0 - ClampReal(0.0, 1.0, (boxHeight - heightForMaxWidth) / (heightForMinWidth - heightForMaxWidth))
  }

  /** Boxes no taller than the max-width height get twice the width, boxes at least the min-width height once. */
  lemma WidthFactorEnds(boxHeight: real, heightForMaxWidth: real, heightForMinWidth: real)
    requires heightForMinWidth > heightForMaxWidth
    ensures boxHeight <= heightForMaxWidth ==> WidthFactor(boxHeight, heightForMaxWidth, heightForMinWidth) == 2.0
    ensures boxHeight >= heightForMinWidth ==> WidthFactor(boxHeight, heightForMaxWidth, heightForMinWidth) == 1.0
  {
    var d := heightForMinWidth - heightForMaxWidth;
    if boxHeight <= heightForMaxWidth {
      assert (boxHeight - heightForMaxWidth) / d <= 0.0;
    }
    if boxHeight >= heightForMinWidth {
      assert (boxHeight - heightForMaxWidth) / d >= 1.0;
    }
  }

  /** A taller box never gets a wider wrap. */
  lemma WidthFactorMonotone(h1: real, h2: real, heightForMaxWidth: real, heightForMinWidth: real)
    requires heightForMinWidth > heightForMaxWidth && h1 <= h2
    ensures WidthFactor(h2, heightForMaxWidth, heightForMinWidth) <= WidthFactor(h1, heightForMaxWidth, heightForMinWidth)
  {
    var d := heightForMinWidth - heightForMaxWidth;
    assert (h1 - heightForMaxWidth) / d <= (h2 - heightForMaxWidth) / d;
  }

  /** The height at which the wrap reaches its maximum width. */
  function HeightForMaxWidth(font: Font, margin: int): real
  {
    2.75 * ((font.ascent + font.descent + margin) as real)
  }

  lemma ScaleBetween(f: real, x: real)
    requires 1.0 <= f <= 2.0 && x >= 0.0
    ensures x <= f * x <= 2.0 * x
  {
  }

  /** The ideal wrap width: the box width scaled by the width factor, less a zoom-scaled reserve. */
  function IdealWidth(font: Font, margin: int, rect: Rect, zoom: int, scale: real): (w: real)
    requires font.ascent + margin != 0
    ensures var boxWidth := (rect.bottomRight.x - rect.topLeft.x) as real;
            var reserve := ZoomSizeMultiplier(zoom, 2.0 * scale);
            boxWidth >= 0.0 ==> boxWidth - reserve <= w <= 2.0 * boxWidth - reserve
  {
    var boxWidth := (rect.bottomRight.x - rect.topLeft.x) as real;
    var boxHeight := (rect.bottomRight.y - rect.topLeft.y) as real;
    var heightForMax := HeightForMaxWidth(font, margin);
    var heightForMin := 1.0 * ((font.ascent + margin) as real) + heightForMax;
    var factor := WidthFactor(boxHeight, heightForMax, heightForMin);
    if boxWidth >= 0.0 then ScaleBetween(factor, boxWidth); factor * boxWidth - ZoomSizeMultiplier(zoom, 2.0 * scale)
    else factor * boxWidth - ZoomSizeMultiplier(zoom, 2.0 * scale)
  }

  /** The least wrap width: four ascents, or the reserve-reduced box width times the tolerance. */
  function MinWidth(font: Font, rect: Rect, zoom: int, scale: real, tolerance: real): real
  {
    MaxReal(4.0 * font.ascent as real,
            tolerance * ((rect.bottomRight.x - rect.topLeft.x) as real - ZoomSizeMultiplier(zoom, 2.0 * scale)))
  }

  /** The width the lines of a label are wrapped to, inside `wrap_label`. */
  function WrapWidth(font: Font, margin: int, rect: Rect, imageSize: Point, zoom: int, scale: real,
                     tolerance: real): (w: real)
    requires font.ascent + margin != 0
    ensures w <= imageSize.x as real
    ensures var boxWidth := (rect.bottomRight.x - rect.topLeft.x) as real;
            var reserve := ZoomSizeMultiplier(zoom, 2.0 * scale);
            w < imageSize.x as real ==>
              && w >= 4.0 * font.ascent as real
              && w >= tolerance * (boxWidth - reserve)
              && (boxWidth >= 0.0 ==> w >= boxWidth - reserve)
    ensures var boxWidth := (rect.bottomRight.x - rect.topLeft.x) as real;
            var reserve := ZoomSizeMultiplier(zoom, 2.0 * scale);
            boxWidth >= 0.0 ==>
              w <= MaxReal(MaxReal(4.0 * font.ascent as real, tolerance * (boxWidth - reserve)), 2.0 * boxWidth - reserve)
  {
    MinReal(imageSize.x as real,
            MaxReal(MinWidth(font, rect, zoom, scale, tolerance), IdealWidth(font, margin, rect, zoom, scale)))
  }

  /** The wrapped lines of each explicit line, one after the other. */
  function WrapPieces(pieces: seq<string>, font: Font, width: real): seq<string>
  {
    if |pieces| == 0 then []
    else WrapPieces(pieces[..|pieces| - 1], font, width) + WrapText(pieces[|pieces| - 1], font, width)
  }

  /** Each explicit line break starts a new line: the wrap of consecutive pieces is concatenated. */
  lemma {:induction false} WrapPiecesAppend(a: seq<string>, b: seq<string>, font: Font, width: real)
    ensures WrapPieces(a + b, font, width) == WrapPieces(a, font, width) + WrapPieces(b, font, width)
    decreases |b|
  {
    if |b| == 0 {
      assert a + b == a;
    } else {
      var init, last := b[..|b| - 1], b[|b| - 1];
      assert b == init + [last];
      assert a + b == (a + init) + [last];
      WrapPiecesAppend(a, init, font, width);
      WrapPiecesSnoc(a + init, last, font, width);
      WrapPiecesSnoc(init, last, font, width);
      ConcatAssoc(WrapPieces(a, font, width), WrapPieces(init, font, width), WrapText(last, font, width));
    }
  }

  lemma WrapPiecesSnoc(pieces: seq<string>, piece: string, font: Font, width: real)
    ensures WrapPieces(pieces + [piece], font, width) == WrapPieces(pieces, font, width) + WrapText(piece, font, width)
  {
    assert (pieces + [piece])[..|pieces|] == pieces;
  }

  /** Every explicit line gives at least one line. */
  lemma {:induction false} WrapPiecesLength(pieces: seq<string>, font: Font, width: real)
    ensures |WrapPieces(pieces, font, width)| >= |pieces|
    decreases |pieces|
  {
    if |pieces| > 0 {
      WrapPiecesLength(pieces[..|pieces| - 1], font, width);
    }
  }

  /**
   * What `wrap_label` returns: no lines for a missing label; a division by
   * zero when the font's ascent and the margin cancel out; otherwise the
   * label's explicit lines, each wrapped to the chosen width.
   */
  function WrapLabelLines(name: Option<string>, font: Font, margin: int, rect: Rect, imageSize: Point, zoom: int,
                          scale: real, tolerance: real): (r: Result<seq<string>>)
    ensures name.None? ==> r == Ok([])
    ensures r.Err? <==> name.Some? && font.ascent + margin == 0
    ensures r.Err? ==> r.error == DivisionByZero
  {
    if name.None? then Ok([])
    else if font.ascent + margin == 0 then Err(DivisionByZero)
    else Ok(WrapPieces(SplitLines(name.value), font, WrapWidth(font, margin, rect, imageSize, zoom, scale, tolerance)))
  }

  /** `wrap_label`. */
  method WrapLabel(name: Option<string>, font: Font, margin: int, rect: Rect, imageSize: Point, zoom: int,
                   scale: real, tolerance: real) returns (r: Result<seq<string>>)
    ensures r == WrapLabelLines(name, font, margin, rect, imageSize, zoom, scale, tolerance)
  {
    if name.None? {
      return Ok([]);
    }
    if font.ascent + margin == 0 {
      return Err(DivisionByZero);
    }
    var width := WrapWidth(font, margin, rect, imageSize, zoom, scale, tolerance);
    var pieces := SplitLines(name.value);
    var lines := [];
    for i := 0 to |pieces|
      invariant lines == WrapPieces(pieces[..i], font, width)
    {
      var wrapped := GetWrappedTextLines(pieces[i], font, width);
      assert pieces[..i + 1][..i] == pieces[..i];
      lines := lines + wrapped;
    }
    assert pieces[..|pieces|] == pieces;
    return Ok(lines);
  }

  /** A label without line breaks is wrapped as one text; the empty label gives no lines at all. */
  lemma WrapLabelSingleLine(name: string, font: Font, width: real)
    requires forall i :: 0 <= i < |name| ==> !IsLineBreak(name[i])
    ensures name == [] ==> WrapPieces(SplitLines(name), font, width) == []
    ensures name != [] ==> WrapPieces(SplitLines(name), font, width) == WrapText(name, font, width)
  {
    if name != [] {
      SplitLinesSingle(name);
      assert WrapPieces([name], font, width) == WrapPieces([], font, width) + WrapText(name, font, width);
    }
  }

  // ---------------------------------------------------------------- positions

  /** `calculate_zone_label_paste_position`; `bbox` is the drawn label's bounding box. */
  function ZoneLabelPastePosition(anchor: string, labelSize: Point, bbox: Rect, rect: Rect): (pos: Point)
    requires |anchor| >= 2
    ensures anchor[0] == 'l' ==> pos.x == rect.topLeft.x
    ensures anchor[0] == 'r' ==> pos.x + labelSize.x == rect.bottomRight.x
    ensures anchor[0] == 'm' ==>
      rect.topLeft.x + rect.bottomRight.x + 1 - 1 <= 2 * pos.x + labelSize.x <= rect.topLeft.x + rect.bottomRight.x + 1 + 1
    ensures anchor[0] !in "lmr" ==> pos.x == 0
    ensures anchor[1] == 't' ==> pos.y == rect.topLeft.y
    ensures anchor[1] == 'b' ==> pos.y + (bbox.bottomRight.y - bbox.topLeft.y) + 4 == rect.bottomRight.y
    ensures anchor[1] == 'm' ==>
      rect.topLeft.y + rect.bottomRight.y - 1 <= 2 * (pos.y + 2) + (bbox.bottomRight.y - bbox.topLeft.y)
                                             <= rect.topLeft.y + rect.bottomRight.y + 1
    ensures anchor[1] !in "tmb" ==> pos.y == 0
  {
    var height := bbox.bottomRight.y - bbox.topLeft.y;
    var x := match anchor[0]
      case 'l' => rect.topLeft.x
      case 'm' => Round((rect.topLeft.x + rect.bottomRight.x - labelSize.x + 1) as real / 2.0)
      case 'r' => rect.bottomRight.x - labelSize.x
      case _ => 0;
    var y := match anchor[1]
      case 't' => rect.topLeft.y
      case 'm' => Round((rect.topLeft.y + rect.bottomRight.y - height) as real / 2.0) - 2
      case 'b' => rect.bottomRight.y - height - 4
      case _ => 0;
    Point(x, y)
  }

  /** `calculate_legend_paste_position`: the legend box, corners as the 4-tuple's two points. */
  function LegendPastePosition(imageSize: Point, legendSize: Point, align: string, offset: Point): (box: Rect)
    requires |align| >= 2
    ensures box.bottomRight.x - box.topLeft.x == legendSize.x
    ensures box.bottomRight.y - box.topLeft.y == legendSize.y
    ensures align[0] == 'l' ==> box.topLeft.x == offset.x
    ensures align[0] == 'r' ==> imageSize.x - box.bottomRight.x == offset.x
    ensures align[0] !in "lr" ==> box.topLeft.x == 0
    ensures align[1] == 't' ==> box.topLeft.y == offset.y
    ensures align[1] == 'b' ==> imageSize.y - box.bottomRight.y == offset.y
    ensures align[1] !in "tb" ==> box.topLeft.y == 0
  {
    var x := match align[0]
      case 'l' => offset.x
      case 'r' => imageSize.x - offset.x - legendSize.x
      case _ => 0;
    var y := match align[1]
      case 't' => offset.y
      case 'b' => imageSize.y - offset.y - legendSize.y
      case _ => 0;
    Rect(Point(x, y), Point(x + legendSize.x, y + legendSize.y))
  }

  /** Right and bottom alignment mirror left and top alignment in the image. */
  lemma LegendMirror(imageSize: Point, legendSize: Point, offset: Point)
    ensures var left := LegendPastePosition(imageSize, legendSize, "lt", offset);
            var right := LegendPastePosition(imageSize, legendSize, "rb", offset);
            && right.topLeft.x == imageSize.x - left.bottomRight.x
            && right.topLeft.y == imageSize.y - left.bottomRight.y
  {
  }

  // ---------------------------------------------------------------- outlines

  /**
   * The rectangle a zone boundary of `lineWidth` is drawn on: the zone's
   * image rectangle grown by floor((w - 1) / 2) at the top-left corner and
   * by floor(w / 2) at the bottom-right corner.
   */
  function BoundaryOutline(r: Rect, lineWidth: int): Rect
  {
    var grow := (lineWidth - 1) / 2;
    var shrink := lineWidth / 2;
    Rect(Point(r.topLeft.x - grow, r.topLeft.y - grow), Point(r.bottomRight.x + shrink, r.bottomRight.y + shrink))
  }

  /**
   * The outline grows the rectangle by w - 1 on each axis in total, never
   * more at the top-left than at the bottom-right, and for w >= 1 encloses it.
   */
  lemma BoundaryOutlineGrowth(r: Rect, lineWidth: int)
    ensures var o := BoundaryOutline(r, lineWidth);
            && (o.bottomRight.x - o.topLeft.x) - (r.bottomRight.x - r.topLeft.x) == lineWidth - 1
            && (o.bottomRight.y - o.topLeft.y) - (r.bottomRight.y - r.topLeft.y) == lineWidth - 1
            && r.topLeft.x - o.topLeft.x <= o.bottomRight.x - r.bottomRight.x <= r.topLeft.x - o.topLeft.x + 1
    ensures lineWidth >= 1 ==>
              var o := BoundaryOutline(r, lineWidth);
              o.topLeft.x <= r.topLeft.x && o.topLeft.y <= r.topLeft.y
              && r.bottomRight.x <= o.bottomRight.x && r.bottomRight.y <= o.bottomRight.y
  {
    var w := lineWidth;
    FloorDivBounds(w - 1, 2);
    FloorDivBounds(w, 2);
  }

  // ---------------------------------------------------------------- anchors

  /** Two characters: a horizontal 'l', 'm' or 'r', then a vertical 't', 'm' or 'b'. */
  predicate ValidAnchor(a: string)
  {
    |a| == 2 && a[0] in "lmr" && a[1] in "tmb"
  }

  /** `get_zone_pos`: the label anchor and the rectangle the label is placed in. */
  function GetZonePos(cs: MapCoordinates.CoordinateSystem, zone: Zone, zoneImageRect: Rect): (r: Result<(string, Rect)>)
    requires MapCoordinates.Valid(cs)
    ensures r.Err? <==> zone.labelAnchor.Some? && !ValidAnchor(zone.labelAnchor.value)
    ensures r.Err? ==> r.error == InvalidLabelAnchor
    ensures r.Ok? ==> ValidAnchor(r.value.0)
    ensures r.Ok? && zone.labelAnchor.None? ==> r.value.0 == "mm"
    ensures r.Ok? && zone.labelAnchor.Some? ==> r.value.0 == zone.labelAnchor.value
    ensures r.Ok? && zone.labelRect.None? ==> r.value.1 == zoneImageRect
    ensures r.Ok? && zone.labelRect.Some? ==>
      r.value.1 == MapCoordinates.ContinentToSectorImageRect(cs, zone.labelRect.value)
  {
    var labelImageRect :=
      if zone.labelRect.Some? then MapCoordinates.ContinentToSectorImageRect(cs, zone.labelRect.value)
      else zoneImageRect;
    if zone.labelAnchor.Some? then
      var anchor := zone.labelAnchor.value;
      if |anchor| != 2 || anchor[0] !in "lmr" || anchor[1] !in "tmb" then Err(InvalidLabelAnchor)
      else Ok((anchor, labelImageRect))
    else
      Ok(("mm", labelImageRect))
  }
}
