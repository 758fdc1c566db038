/**
 * The Python string operations the modelled code relies on: `sep.join`,
 * `str.split(sep)`, `str.split()`, `str.strip()`, `str.splitlines()`,
 * `str(int)` and `str.replace` of a single character.
 */
module Text {

  /** Python's `sep.join(parts)`. */
  function Join(parts: seq<string>, sep: string): string
  {
    if |parts| == 0 then ""
    else if |parts| == 1 then parts[0]
    else Join(parts[..|parts| - 1], sep) + sep + parts[|parts| - 1]
  }

  lemma JoinSnoc(parts: seq<string>, x: string, sep: string)
    requires |parts| > 0
    ensures Join(parts + [x], sep) == Join(parts, sep) + sep + x
  {
    assert (parts + [x])[..|parts|] == parts;
  }

  lemma {:induction false} JoinCons(x: string, rest: seq<string>, sep: string)
    requires |rest| > 0
    ensures Join([x] + rest, sep) == x + sep + Join(rest, sep)
    decreases |rest|
  {
    if |rest| == 1 {
      assert [x] + rest == [x, rest[0]];
      assert [x, rest[0]][..1] == [x];
    } else {
      var init := rest[..|rest| - 1];
      var last := rest[|rest| - 1];
      assert rest == init + [last];
      assert [x] + rest == ([x] + init) + [last];
      JoinCons(x, init, sep);
      JoinSnoc([x] + init, last, sep);
      JoinSnoc(init, last, sep);
    }
  }

  /** Five parts joined: each pair separated once. */
  lemma Join5(a: string, b: string, c: string, d: string, e: string, sep: string)
    ensures Join([a, b, c, d, e], sep) == a + sep + b + sep + c + sep + d + sep + e
  {
    var parts := [a, b, c, d, e];
    assert parts[..1] == [a];
    assert parts[..2] == [a] + [b];
    assert parts[..3] == parts[..2] + [c];
    assert parts[..4] == parts[..3] + [d];
    assert parts == parts[..4] + [e];
    JoinSnoc([a], b, sep);
    JoinSnoc(parts[..2], c, sep);
    JoinSnoc(parts[..3], d, sep);
    JoinSnoc(parts[..4], e, sep);
  }

  /** A prefix before a separated pair regroups with the pair's left part. */
  lemma PrefixSep(p: string, x: string, sep: string, y: string)
    ensures p + (x + sep + y) == p + x + sep + y
  {
    ConcatAssoc(p, x + sep, y);
    ConcatAssoc(p, x, sep);
  }

  /** Joining two non-empty lists puts one separator between them. */
  lemma {:induction false} JoinAppend(a: seq<string>, b: seq<string>, sep: string)
    requires |a| > 0 && |b| > 0
    ensures Join(a + b, sep) == Join(a, sep) + sep + Join(b, sep)
    decreases |b|
  {
    if |b| == 1 {
      JoinSnoc(a, b[0], sep);
    } else {
      var init := b[..|b| - 1];
      var last := b[|b| - 1];
      assert b == init + [last];
      assert a + b == (a + init) + [last];
      JoinAppend(a, init, sep);
      JoinSnoc(a + init, last, sep);
      JoinSnoc(init, last, sep);
    }
  }

  /**
   * Splits `s` at every character `isSep` accepts, keeping empty pieces:
   * Python's `s.split(c)` when `isSep` accepts exactly `c`.
   */
  function SplitBy(s: string, isSep: char -> bool): (r: seq<string>)
    ensures |r| >= 1
    ensures forall k, i :: 0 <= k < |r| && 0 <= i < |r[k]| ==> !isSep(r[k][i])
    decreases |s|
  {
    if |s| == 0 then [""]
    else
      var prev := SplitBy(s[..|s| - 1], isSep);
      var ch := s[|s| - 1];
      if isSep(ch) then prev + [""]
      else prev[..|prev| - 1] + [prev[|prev| - 1] + [ch]]
  }

  /** Python's `s.split(c)`. */
  function SplitOn(s: string, c: char): (r: seq<string>)
    ensures |r| >= 1
    ensures forall k, i :: 0 <= k < |r| && 0 <= i < |r[k]| ==> r[k][i] != c
  {
    SplitBy(s, ch => ch == c)
  }

  /** Joining the pieces with the one separator character gives `s` back. */
  lemma {:induction false} SplitByJoin(s: string, isSep: char -> bool, c: char)
    requires forall i :: 0 <= i < |s| && isSep(s[i]) ==> s[i] == c
    ensures Join(SplitBy(s, isSep), [c]) == s
    decreases |s|
  {
    if |s| > 0 {
      var init := s[..|s| - 1];
      var ch := s[|s| - 1];
      var prev := SplitBy(init, isSep);
      SplitByJoin(init, isSep, c);
      assert s == init + [ch];
      if isSep(ch) {
        assert SplitBy(s, isSep) == prev + [""];
        JoinSnoc(prev, "", [c]);
      } else {
        var k := |prev| - 1;
        var front := prev[..k];
        assert SplitBy(s, isSep) == front + [prev[k] + [ch]];
        if k == 0 {
          assert front + [prev[k] + [ch]] == [prev[k] + [ch]];
        } else {
          assert prev == front + [prev[k]];
          JoinSnoc(front, prev[k], [c]);
          JoinSnoc(front, prev[k] + [ch], [c]);
          ConcatAssoc(Join(front, [c]) + [c], prev[k], [ch]);
        }
      }
    }
  }

  /** Regrouping a concatenation. */
  lemma ConcatAssoc<T>(x: seq<T>, y: seq<T>, z: seq<T>)
    ensures (x + y) + z == x + (y + z)
  {
  }

  lemma SplitOnJoin(s: string, c: char)
    ensures Join(SplitOn(s, c), [c]) == s
  {
    SplitByJoin(s, ch => ch == c, c);
  }

  /** Appending text without separators extends the last piece. */
  lemma {:induction false} SplitByAppendPlain(s: string, t: string, isSep: char -> bool)
    requires forall i :: 0 <= i < |t| ==> !isSep(t[i])
    ensures var prev := SplitBy(s, isSep);
            SplitBy(s + t, isSep) == prev[..|prev| - 1] + [prev[|prev| - 1] + t]
    decreases |t|
  {
    var prev := SplitBy(s, isSep);
    if |t| == 0 {
      assert s + t == s;
      assert prev[|prev| - 1] + t == prev[|prev| - 1];
      assert prev == prev[..|prev| - 1] + [prev[|prev| - 1]];
    } else {
      var init := t[..|t| - 1];
      var ch := t[|t| - 1];
      SplitByAppendPlain(s, init, isSep);
      var mid := SplitBy(s + init, isSep);
      assert mid == prev[..|prev| - 1] + [prev[|prev| - 1] + init];
      assert (s + t)[..|s + t| - 1] == s + init;
      assert (s + t)[|s + t| - 1] == ch;
      assert !isSep(ch);
      assert SplitBy(s + t, isSep) == mid[..|mid| - 1] + [mid[|mid| - 1] + [ch]];
      assert mid[..|mid| - 1] == prev[..|prev| - 1];
      assert (prev[|prev| - 1] + init) + [ch] == prev[|prev| - 1] + t;
    }
  }

  /** A separator followed by plain text adds exactly that text as a piece. */
  lemma SplitBySepThenPlain(s: string, c: char, t: string, isSep: char -> bool)
    requires isSep(c)
    requires forall i :: 0 <= i < |t| ==> !isSep(t[i])
    ensures SplitBy(s + [c] + t, isSep) == SplitBy(s, isSep) + [t]
  {
    var s' := s + [c];
    assert s'[..|s'| - 1] == s;
    assert s'[|s'| - 1] == c;
    var prev := SplitBy(s', isSep);
    assert prev == SplitBy(s, isSep) + [""];
    SplitByAppendPlain(s', t, isSep);
    assert prev[..|prev| - 1] == SplitBy(s, isSep);
    assert prev[|prev| - 1] + t == t;
  }

  /**
   * The other direction of the round trip: splitting a join gives the parts
   * back when no part holds the separator.
   */
  lemma {:induction false} JoinSplitOn(parts: seq<string>, c: char)
    requires |parts| >= 1
    requires forall k, i :: 0 <= k < |parts| && 0 <= i < |parts[k]| ==> parts[k][i] != c
    ensures SplitOn(Join(parts, [c]), c) == parts
    decreases |parts|
  {
    var last := parts[|parts| - 1];
    if |parts| == 1 {
      assert parts == [last];
      SplitOnPlain(last, c);
    } else {
      var init := parts[..|parts| - 1];
      assert parts == init + [last];
      JoinSplitOn(init, c);
      JoinSnoc(init, last, [c]);
      SplitBySepThenPlain(Join(init, [c]), c, last, ch => ch == c);
    }
  }

  /** A text without the separator splits into itself alone. */
  lemma SplitOnPlain(t: string, c: char)
    requires forall i :: 0 <= i < |t| ==> t[i] != c
    ensures SplitOn(t, c) == [t]
  {
    SplitByAppendPlain("", t, ch => ch == c);
    assert "" + t == t;
    assert SplitBy("", ch => ch == c) == [""];
  }

  /** The characters Python's `str.isspace` accepts. */
  predicate IsSpace(ch: char)
  {
    || ch == ' ' || ('\t' <= ch <= '\r') || ('\U{1c}' <= ch <= '\U{1f}')
    || ch == '\U{85}' || ch == '\U{a0}' || ch == '\U{1680}' || ('\U{2000}' <= ch <= '\U{200a}')
    || ch == '\U{2028}' || ch == '\U{2029}' || ch == '\U{202f}' || ch == '\U{205f}' || ch == '\U{3000}'
  }

  function NonEmpty(pieces: seq<string>): (r: seq<string>)
    ensures forall k :: 0 <= k < |r| ==> r[k] != [] && r[k] in pieces
  {
    if |pieces| == 0 then []
    else if pieces[0] == [] then NonEmpty(pieces[1..])
    else [pieces[0]] + NonEmpty(pieces[1..])
  }

  /** Python's `s.split()`: the maximal runs of non-whitespace characters. */
  function SplitWhitespace(s: string): (words: seq<string>)
    ensures forall k :: 0 <= k < |words| ==> Word(words[k])
  {
    var pieces := SplitBy(s, IsSpace);
    var r := NonEmpty(pieces);
    assert forall k :: 0 <= k < |r| ==> r[k] in pieces;
    r
  }

  /** A non-empty string without whitespace: one element of `s.split()`. */
  predicate Word(w: string)
  {
    |w| > 0 && forall i :: 0 <= i < |w| ==> !IsSpace(w[i])
  }

  lemma SplitWhitespaceOfBlank(s: string)
    requires forall i :: 0 <= i < |s| ==> IsSpace(s[i])
    ensures SplitWhitespace(s) == []
  {
    var pieces := SplitBy(s, IsSpace);
    forall k | 0 <= k < |pieces| ensures pieces[k] == [] {
      if pieces[k] != [] {
        SplitByPieceInString(s, IsSpace, k, 0);
      }
    }
    NonEmptyOfEmpties(pieces);
  }

  lemma {:induction false} NonEmptyOfEmpties(pieces: seq<string>)
    requires forall k :: 0 <= k < |pieces| ==> pieces[k] == []
    ensures NonEmpty(pieces) == []
    decreases |pieces|
  {
    if |pieces| > 0 {
      NonEmptyOfEmpties(pieces[1..]);
    }
  }

  /** Every character of every piece is a character of the split string. */
  lemma {:induction false} SplitByPieceInString(s: string, isSep: char -> bool, k: nat, i: nat)
    requires k < |SplitBy(s, isSep)| && i < |SplitBy(s, isSep)[k]|
    ensures SplitBy(s, isSep)[k][i] in s
    decreases |s|
  {
    var r := SplitBy(s, isSep);
    if |s| > 0 {
      var init := s[..|s| - 1];
      var ch := s[|s| - 1];
      var prev := SplitBy(init, isSep);
      if isSep(ch) {
        assert r[k] == (prev + [""])[k];
        SplitByPieceInString(init, isSep, k, i);
      } else if k < |prev| - 1 || i < |prev[|prev| - 1]| {
        assert r[k][i] == prev[k][i];
        SplitByPieceInString(init, isSep, k, i);
      } else {
        assert r[k][i] == ch;
      }
    }
  }

  function LStrip(s: string): (r: string)
    ensures |r| <= |s|
  {
    if |s| > 0 && IsSpace(s[0]) then LStrip(s[1..]) else s
  }

  function RStrip(s: string): (r: string)
    ensures |r| <= |s|
  {
    if |s| > 0 && IsSpace(s[|s| - 1]) then RStrip(s[..|s| - 1]) else s
  }

  /** Python's `s.strip()`: whitespace removed from both ends. */
  function Strip(s: string): string
  {
    RStrip(LStrip(s))
  }

  /** Non-empty, and neither end is whitespace: `Strip` leaves it alone. */
  predicate Trimmed(s: string)
  {
    |s| > 0 && !IsSpace(s[0]) && !IsSpace(s[|s| - 1])
  }

  lemma StripTrimmed(s: string)
    requires Trimmed(s)
    ensures Strip(s) == s
  {
  }

  lemma StripLeadingSpace(w: string)
    requires Trimmed(w)
    ensures Strip(" " + w) == w
  {
    assert (" " + w)[1..] == w;
    assert LStrip(" " + w) == LStrip(w) == w;
  }

  lemma TrimmedJoin(a: string, b: string)
    requires Trimmed(a) && Trimmed(b)
    ensures Trimmed(a + " " + b)
  {
  }

  /** The characters at which Python's `str.splitlines` breaks a line. */
  predicate IsLineBreak(ch: char)
  {
    ('\n' <= ch <= '\r') || ('\U{1c}' <= ch <= '\U{1e}') || ch == '\U{85}' || ch == '\U{2028}' || ch == '\U{2029}'
  }

  /** The index of the first line break of `s`, or `|s|` if it has none. */
  function FirstLineBreak(s: string): (i: nat)
    ensures i <= |s|
    ensures i < |s| ==> IsLineBreak(s[i])
    ensures forall j :: 0 <= j < i ==> !IsLineBreak(s[j])
  {
    if |s| == 0 then 0
    else if IsLineBreak(s[0]) then 0
    else 1 + FirstLineBreak(s[1..])
  }

  /**
   * Python's `s.splitlines()`: the lines without their terminators, "\r\n"
   * counting as one terminator, and no empty piece after a final terminator.
   */
  function SplitLines(s: string): (lines: seq<string>)
    ensures forall k, i :: 0 <= k < |lines| && 0 <= i < |lines[k]| ==> !IsLineBreak(lines[k][i])
    ensures s == [] <==> lines == []
    decreases |s|
  {
    if |s| == 0 then []
    else
      var i := FirstLineBreak(s);
      if i == |s| then [s]
      else
        var skip := if s[i] == '\r' && i + 1 < |s| && s[i + 1] == '\n' then 2 else 1;
        [s[..i]] + SplitLines(s[i + skip..])
  }

  /** A text without line breaks is one line. */
  lemma SplitLinesSingle(s: string)
    requires |s| > 0 && forall i :: 0 <= i < |s| ==> !IsLineBreak(s[i])
    ensures SplitLines(s) == [s]
  {
  }

  /** A string is the text before position `i`, its character there, and the text after. */
  lemma SplitAround(s: string, i: int)
    requires 0 <= i < |s|
    ensures s == s[..i] + [s[i]] + s[i + 1..]
  {
    assert s == s[..i] + s[i..];
    assert s[i..] == [s[i]] + s[i + 1..];
  }

  /**
   * Lines separated only by '\n', with no terminator at the end, come back
   * when joined with "\n".
   */
  lemma {:induction false} SplitLinesJoin(s: string)
    requires forall i :: 0 <= i < |s| && IsLineBreak(s[i]) ==> s[i] == '\n'
    requires |s| > 0 ==> s[|s| - 1] != '\n'
    ensures Join(SplitLines(s), "\n") == s
    decreases |s|
  {
    if |s| > 0 {
      var i := FirstLineBreak(s);
      if i < |s| {
        var line, rest := s[..i], s[i + 1..];
        assert s[i] == '\n' && |rest| > 0;
        assert SplitLines(s) == [line] + SplitLines(rest);
        SplitLinesJoin(rest);
        JoinCons(line, SplitLines(rest), "\n");
        assert Join(SplitLines(s), "\n") == line + "\n" + rest;
        SplitAround(s, i);
      } else {
        assert SplitLines(s) == [s];
      }
    }
  }

  function DigitChar(d: nat): (c: char)
    requires d < 10
    ensures '0' <= c <= '9'
  {
    "0123456789"[d]
  }

  /** Python's `str(n)` for n >= 0: decimal digits, no leading zero. */
  function NatToString(n: nat): (s: string)
    ensures |s| >= 1
    ensures forall i :: 0 <= i < |s| ==> '0' <= s[i] <= '9'
    ensures n >= 10 <==> |s| >= 2
  {
    if n < 10 then [DigitChar(n)] else NatToString(n / 10) + [DigitChar(n % 10)]
  }

  /** Python's `str(n)`. */
  function IntToString(n: int): (s: string)
    ensures |s| >= 1
    ensures forall i :: 0 <= i < |s| ==> s[i] == '-' || '0' <= s[i] <= '9'
  {
    if n < 0 then "-" + NatToString(-n) else NatToString(n)
  }

  lemma {:induction false} NatToStringInjective(a: nat, b: nat)
    requires NatToString(a) == NatToString(b)
    ensures a == b
    decreases a
  {
    var sa, sb := NatToString(a), NatToString(b);
    if a >= 10 && b >= 10 {
      assert sa[..|sa| - 1] == NatToString(a / 10);
      assert sb[..|sb| - 1] == NatToString(b / 10);
      NatToStringInjective(a / 10, b / 10);
      assert DigitChar(a % 10) == DigitChar(b % 10);
    }
  }

  /** Different integers print differently. */
  lemma IntToStringInjective(a: int, b: int)
    requires IntToString(a) == IntToString(b)
    ensures a == b
  {
    IntToStringSign(a);
    IntToStringSign(b);
    var s := IntToString(a);
    if a < 0 {
      assert b < 0;
      var na: nat, nb: nat := -a, -b;
      assert NatToString(na) == s[1..] == NatToString(nb);
      NatToStringInjective(na, nb);
    } else {
      assert b >= 0 && NatToString(a) == s == NatToString(b);
      NatToStringInjective(a, b);
    }
  }

  /** A minus sign leads exactly the negative numbers, followed by the digits of the magnitude. */
  lemma IntToStringSign(n: int)
    ensures IntToString(n)[0] == '-' <==> n < 0
    ensures n < 0 ==> IntToString(n)[1..] == NatToString(-n)
    ensures n >= 0 ==> IntToString(n) == NatToString(n)
  {
    var digits := NatToString(if n < 0 then -n else n);
    assert '0' <= digits[0] <= '9';
    if n < 0 {
      assert ("-" + digits)[1..] == digits;
    }
  }

  /** Python's `s.replace(a, b)` for single characters. */
  function ReplaceChar(s: string, a: char, b: char): (r: string)
    ensures |r| == |s|
    ensures forall i :: 0 <= i < |s| ==> r[i] == (if s[i] == a then b else s[i])
  {
    if |s| == 0 then [] else ReplaceChar(s[..|s| - 1], a, b) + [if s[|s| - 1] == a then b else s[|s| - 1]]
  }
}
