/**
 * The judgment-text normalisation of `scrape_judgment_text`: the text the HTML
 * parser returns is split on '\n', every line is stripped, blank lines are
 * dropped and the rest are joined again with single '\n' characters.
 * Also the substring test used to detect a redirect to a search page.
 */
module Text {

  /** Whitespace as Python's `str.strip()` removes it (the characters for which `str.isspace()` holds). */
  predicate IsSpace(c: char) {
    || c == ' ' || c == '\t' || c == '\n' || c == '\r' || c == '\U{B}' || c == '\U{C}'
    || ('\U{1C}' <= c <= '\U{1F}')
    || c == '\U{85}' || c == '\U{A0}' || c == '\U{1680}'
    || ('\U{2000}' <= c <= '\U{200A}')
    || c == '\U{2028}' || c == '\U{2029}' || c == '\U{202F}' || c == '\U{205F}' || c == '\U{3000}'
  }

  predicate AllSpace(s: string) {
    forall k :: 0 <= k < |s| ==> IsSpace(s[k])
  }

  /** A string with no whitespace at either end, as `str.strip()` leaves it. */
  predicate IsStripped(s: string) {
    s == [] || (!IsSpace(s[0]) && !IsSpace(s[|s| - 1]))
  }

  // ---------------------------------------------------------------------------
  // str.strip()
  // ---------------------------------------------------------------------------

  /** Drops the leading whitespace. */
  function TrimStart(s: string): (r: string)
    ensures |r| <= |s|
    ensures r == [] || !IsSpace(r[0])
  {
    if s != [] && IsSpace(s[0]) then TrimStart(s[1..]) else s
  }

  /** What `TrimStart` drops is whitespace, and what it keeps is a suffix of `s`. */
  lemma {:induction false} TrimStartDrops(s: string)
    ensures var r := TrimStart(s);
      r == s[|s| - |r|..] && AllSpace(s[..|s| - |r|])
  {
    if s != [] && IsSpace(s[0]) {
      TrimStartDrops(s[1..]);
      var r := TrimStart(s[1..]);
      assert s[1..][|s| - 1 - |r|..] == s[|s| - |r|..];
      assert s[..|s| - |r|] == [s[0]] + s[1..][..|s| - 1 - |r|];
    }
  }

  /** Drops the trailing whitespace. */
  function TrimEnd(s: string): (r: string)
    ensures |r| <= |s|
    ensures r == [] || !IsSpace(r[|r| - 1])
  {
    if s != [] && IsSpace(s[|s| - 1]) then TrimEnd(s[..|s| - 1]) else s
  }

  /** What `TrimEnd` drops is whitespace, and what it keeps is a prefix of `s`. */
  lemma {:induction false} TrimEndDrops(s: string)
    ensures var r := TrimEnd(s);
      r == s[..|r|] && AllSpace(s[|r|..])
  {
    if s != [] && IsSpace(s[|s| - 1]) {
      TrimEndDrops(s[..|s| - 1]);
      var r := TrimEnd(s[..|s| - 1]);
      assert s[..|s| - 1][..|r|] == s[..|r|];
      assert s[|r|..] == s[..|s| - 1][|r|..] + [s[|s| - 1]];
    }
  }

  /** Python's `str.strip()`. */
  function Strip(s: string): (r: string)
    ensures |r| <= |s|
    ensures IsStripped(r)
  {
    var t := TrimStart(s);
    TrimEndDrops(t);
    TrimEnd(t)
  }

  /** Stripping gives "" exactly for blank text. */
  lemma StripBlank(s: string)
    ensures Strip(s) == [] <==> AllSpace(s)
  {
    var t := TrimStart(s);
    TrimStartDrops(s);
    TrimEndDrops(t);
    if Strip(s) == [] {
      // a non-empty `t` starts with a visible character, which `TrimEnd` would keep
      assert t == [];
      forall k | 0 <= k < |s| ensures IsSpace(s[k]) {
        assert s[k] == s[..|s| - |t|][k];
      }
    }
  }

  /** `str.strip()` keeps a middle slice of the line and drops only whitespace on either side of it. */
  lemma StripMiddle(s: string)
    ensures exists i, j :: 0 <= i <= j <= |s| && Strip(s) == s[i..j] && AllSpace(s[..i]) && AllSpace(s[j..])
  {
    var t := TrimStart(s);
    TrimStartDrops(s);
    TrimEndDrops(t);
    var i := |s| - |t|;
    var j := i + |Strip(s)|;
    assert Strip(s) == s[i..j];
    assert s[j..] == t[|Strip(s)|..];
  }

  lemma StripStripped(s: string)
    requires IsStripped(s)
    ensures Strip(s) == s
  {
  }

  lemma StripKeepsNoNewline(s: string)
    requires '\n' !in s
    ensures '\n' !in Strip(s)
  {
    var t := TrimStart(s);
    var r := TrimEnd(t);
    TrimStartDrops(s);
    TrimEndDrops(t);
    forall k | 0 <= k < |r| ensures r[k] != '\n' {
      assert r[k] == t[k] == s[|s| - |t| + k];
    }
  }

  // ---------------------------------------------------------------------------
  // str.split('\n') and '\n'.join(...)
  // ---------------------------------------------------------------------------

  /** Python's `s.split('\n')`: always at least one piece, none containing '\n'. */
  function Split(s: string): (r: seq<string>)
    ensures |r| >= 1
    ensures forall i :: 0 <= i < |r| ==> '\n' !in r[i]
  {
    if s == [] then [[]]
    else
      var rest := Split(s[1..]);
      if s[0] == '\n' then [[]] + rest
      else [[s[0]] + rest[0]] + rest[1..]
  }

  /** Python's `'\n'.join(lines)`. */
  function Join(lines: seq<string>): string {
    if |lines| == 0 then []
    else if |lines| == 1 then lines[0]
    else lines[0] + "\n" + Join(lines[1..])
  }

  /** Joining the pieces of a split gives back the original text. */
  lemma {:induction false} JoinSplit(s: string)
    ensures Join(Split(s)) == s
  {
    if s != [] {
      JoinSplit(s[1..]);
      var rest := Split(s[1..]);
      if s[0] == '\n' {
        assert ([[]] + rest)[1..] == rest;
        assert s == "\n" + s[1..];
      } else {
        var ls := [[s[0]] + rest[0]] + rest[1..];
        if |rest| > 1 {
          assert ls[1..] == rest[1..];
          assert s == [s[0]] + (rest[0] + "\n" + Join(rest[1..]));
        }
      }
    }
  }

  /** Splitting a text that starts with a newline-free piece `l` puts `l` in front of the first piece. */
  lemma {:induction false} SplitPrefix(l: string, rest: string)
    requires '\n' !in l
    ensures Split(l + rest) == [l + Split(rest)[0]] + Split(rest)[1..]
  {
    if l == [] {
      assert l + rest == rest;
      assert Split(rest) == [Split(rest)[0]] + Split(rest)[1..];
      assert l + Split(rest)[0] == Split(rest)[0];
    } else {
      var s, tail := l + rest, Split(rest);
      assert s[0] == l[0] && s[1..] == l[1..] + rest;
      assert l[0] in l;
      SplitPrefix(l[1..], rest);
      var r := Split(s[1..]);
      assert r[0] == l[1..] + tail[0] && r[1..] == tail[1..];
      assert [l[0]] + r[0] == l + tail[0];
    }
  }

  /** Splitting a join of newline-free lines gives back the lines. */
  lemma {:induction false} SplitJoin(lines: seq<string>)
    requires |lines| >= 1
    requires forall i :: 0 <= i < |lines| ==> '\n' !in lines[i]
    ensures Split(Join(lines)) == lines
  {
    if |lines| == 1 {
      SplitPrefix(lines[0], []);
      assert lines[0] + [] == lines[0];
    } else {
      var tail := Join(lines[1..]);
      SplitJoin(lines[1..]);
      SplitPrefix(lines[0], "\n" + tail);
      assert lines[0] + "\n" + tail == lines[0] + ("\n" + tail);
      assert ("\n" + tail)[1..] == tail;
      assert Split("\n" + tail) == [[]] + Split(tail);
      assert lines[0] + [] == lines[0];
      assert lines == [lines[0]] + lines[1..];
    }
  }

  // ---------------------------------------------------------------------------
  // The normalisation
  // ---------------------------------------------------------------------------

  /** `[line.strip() for line in lines if line.strip()]`. */
  function Clean(lines: seq<string>): (r: seq<string>)
    ensures |r| <= |lines|
    ensures forall i :: 0 <= i < |r| ==> |r[i]| > 0 && IsStripped(r[i])
  {
    if lines == [] then []
    else
      var t := Strip(lines[0]);
      if t == [] then Clean(lines[1..])
      else [t] + Clean(lines[1..])
  }

  /** Cleaning newline-free lines gives newline-free lines. */
  /** A single line is dropped when it is blank and otherwise kept stripped. */
  lemma CleanOne(l: string)
    ensures Clean([l]) == (if AllSpace(l) then [] else [Strip(l)])
  {
    StripBlank(l);
    assert [l][1..] == [];
  }

  lemma {:induction false} CleanKeepsNoNewline(lines: seq<string>)
    requires forall i :: 0 <= i < |lines| ==> '\n' !in lines[i]
    ensures forall i :: 0 <= i < |Clean(lines)| ==> '\n' !in Clean(lines)[i]
  {
    if lines != [] {
      CleanKeepsNoNewline(lines[1..]);
      StripKeepsNoNewline(lines[0]);
    }
  }

  /** The cleaned judgment text: lines 143-145 of `scrape_judgment_text`. */
  function Normalise(text: string): string {
    Join(Clean(Split(text)))
  }

  /** A clean line: not blank, no surrounding whitespace, no line break. */
  predicate IsCleanLine(l: string) {
    |l| > 0 && '\n' !in l && IsStripped(l)
  }

  /** The shape normalised text has: empty, or every one of its lines is clean. */
  predicate IsNormalised(t: string) {
    t == [] || forall l :: l in Split(t) ==> |l| > 0 && IsStripped(l)
  }

  /** There are two consecutive line breaks at position `k`. */
  predicate DoubleNewlineAt(t: string, k: int) {
    0 <= k < |t| - 1 && t[k] == '\n' && t[k + 1] == '\n'
  }

  lemma {:induction false} CleanFixpoint(lines: seq<string>)
    requires forall i :: 0 <= i < |lines| ==> |lines[i]| > 0 && IsStripped(lines[i])
    ensures Clean(lines) == lines
  {
    if lines != [] {
      CleanFixpoint(lines[1..]);
      StripStripped(lines[0]);
    }
  }

  /** A join of clean lines starts and ends with a non-space character and has no blank line inside. */
  lemma {:induction false} JoinCleanShape(lines: seq<string>)
    requires forall i :: 0 <= i < |lines| ==> IsCleanLine(lines[i])
    ensures var t := Join(lines);
      && (t == [] <==> lines == [])
      && (t != [] ==> !IsSpace(t[0]) && !IsSpace(t[|t| - 1]))
      && forall k :: !DoubleNewlineAt(t, k)
  {
    if |lines| > 1 {
      var l, tail := lines[0], Join(lines[1..]);
      JoinCleanShape(lines[1..]);
      var t := Join(lines);
      assert t == l + "\n" + tail;
      forall k ensures !DoubleNewlineAt(t, k) {
        if 0 <= k < |t| - 1 {
          if k + 1 < |l| {
            assert t[k] == l[k];
            assert l[k] != '\n';
          } else if k + 1 == |l| {
            assert t[k] == l[|l| - 1];
          } else if k == |l| {
            assert t[k + 1] == tail[0];
          } else {
            assert t[k] == tail[k - |l| - 1] && t[k + 1] == tail[k - |l|];
            assert !DoubleNewlineAt(tail, k - |l| - 1);
          }
        }
      }
    }
  }

  /** Normalisation always produces normalised text. */
  lemma NormaliseIsNormalised(text: string)
    ensures IsNormalised(Normalise(text))
  {
    var cs := Clean(Split(text));
    CleanKeepsNoNewline(Split(text));
    if cs != [] {
      SplitJoin(cs);
    }
  }

  /** Normalised judgment text has no blank line: there is no "\n\n" in it. */
  lemma NormaliseNoBlankLine(text: string)
    ensures !HasInfix(Normalise(text), "\n\n")
  {
    var lines := Clean(Split(text));
    CleanLines(text);
    JoinCleanShape(lines);
    NoDoubleNewline(Join(lines));
  }

  /** Normalised judgment text neither starts nor ends with a line break or any other whitespace. */
  lemma NormaliseEnds(text: string)
    ensures var t := Normalise(text);
      t != [] ==> t[0] != '\n' && t[|t| - 1] != '\n' && !IsSpace(t[0]) && !IsSpace(t[|t| - 1])
  {
    CleanLines(text);
    JoinCleanShape(Clean(Split(text)));
  }

  /** Every line normalisation keeps is clean. */
  lemma CleanLines(text: string)
    ensures forall i :: 0 <= i < |Clean(Split(text))| ==> IsCleanLine(Clean(Split(text))[i])
  {
    CleanKeepsNoNewline(Split(text));
  }

  /** The lines of a non-empty cleaned judgment are exactly the lines the cleaning kept. */
  lemma NormaliseLines(text: string)
    requires Clean(Split(text)) != []
    ensures Split(Normalise(text)) == Clean(Split(text))
  {
    CleanKeepsNoNewline(Split(text));
    SplitJoin(Clean(Split(text)));
  }

  lemma NoDoubleNewline(t: string)
    requires forall k :: !DoubleNewlineAt(t, k)
    ensures !HasInfix(t, "\n\n")
  {
    HasInfixAt(t, "\n\n");
    forall i ensures !InfixAt(t, "\n\n", i) {
      if 0 <= i <= |t| - 2 {
        assert t[i..i + 2][0] == t[i] && t[i..i + 2][1] == t[i + 1];
        assert !DoubleNewlineAt(t, i);
      }
    }
  }

  /** Normalised text is exactly the text normalisation leaves unchanged. */
  lemma NormalisedIffFixpoint(t: string)
    ensures IsNormalised(t) <==> Normalise(t) == t
  {
    if IsNormalised(t) {
      if t == [] {
        assert Split(t) == [[]];
        assert Strip([]) == [];
        assert Clean([[]]) == [];
      } else {
        var ls := Split(t);
        forall i | 0 <= i < |ls| ensures |ls[i]| > 0 && IsStripped(ls[i]) {
          assert ls[i] in ls;
        }
        CleanFixpoint(ls);
        JoinSplit(t);
      }
    }
    if Normalise(t) == t {
      NormaliseIsNormalised(t);
    }
  }

  /** Normalising already-normalised text changes nothing. */
  lemma NormaliseIdempotent(text: string)
    ensures Normalise(Normalise(text)) == Normalise(text)
  {
    NormaliseIsNormalised(text);
    NormalisedIffFixpoint(Normalise(text));
  }

  // ---------------------------------------------------------------------------
  // Only whitespace is ever removed
  // ---------------------------------------------------------------------------

  /** The non-whitespace characters of `s`, in order. */
  function Visible(s: string): string {
    if s == [] then []
    else (if IsSpace(s[0]) then [] else [s[0]]) + Visible(s[1..])
  }

  /** The visible characters of each line, concatenated. */
  function VisibleLines(lines: seq<string>): string {
    if lines == [] then [] else Visible(lines[0]) + VisibleLines(lines[1..])
  }

  lemma {:induction false} VisibleAppend(a: string, b: string)
    ensures Visible(a + b) == Visible(a) + Visible(b)
  {
    if a != [] {
      assert (a + b)[1..] == a[1..] + b;
      VisibleAppend(a[1..], b);
    } else {
      assert a + b == b;
    }
  }

  lemma {:induction false} VisibleAllSpace(s: string)
    ensures AllSpace(s) <==> Visible(s) == []
  {
    if s != [] {
      VisibleAllSpace(s[1..]);
      if AllSpace(s[1..]) && IsSpace(s[0]) {
        forall k | 0 <= k < |s| ensures IsSpace(s[k]) {
          if k > 0 { assert s[k] == s[1..][k - 1]; }
        }
      }
      if AllSpace(s) {
        assert forall k :: 0 <= k < |s| - 1 ==> s[1..][k] == s[k + 1];
      }
    }
  }

  lemma VisibleStrip(s: string)
    ensures Visible(Strip(s)) == Visible(s)
  {
    VisibleTrimStart(s);
    VisibleTrimEnd(TrimStart(s));
  }

  lemma {:induction false} VisibleTrimStart(s: string)
    ensures Visible(TrimStart(s)) == Visible(s)
  {
    if s != [] && IsSpace(s[0]) {
      VisibleTrimStart(s[1..]);
    }
  }

  lemma {:induction false} VisibleTrimEnd(s: string)
    ensures Visible(TrimEnd(s)) == Visible(s)
  {
    if s != [] && IsSpace(s[|s| - 1]) {
      var p, c := s[..|s| - 1], s[|s| - 1];
      VisibleTrimEnd(p);
      assert s == p + [c];
      VisibleAppend(p, [c]);
      assert Visible([c]) == [];
    }
  }

  lemma {:induction false} VisibleJoin(lines: seq<string>)
    ensures Visible(Join(lines)) == VisibleLines(lines)
  {
    if |lines| == 1 {
      assert VisibleLines(lines[1..]) == [];
    } else if |lines| > 1 {
      VisibleJoin(lines[1..]);
      VisibleAppend(lines[0] + "\n", Join(lines[1..]));
      VisibleAppend(lines[0], "\n");
      assert Visible("\n") == [];
    }
  }

  lemma {:induction false} VisibleClean(lines: seq<string>)
    ensures VisibleLines(Clean(lines)) == VisibleLines(lines)
  {
    if lines != [] {
      var rest := lines[1..];
      VisibleClean(rest);
      VisibleStrip(lines[0]);
      var t := Strip(lines[0]);
      if t != [] {
        var r := [t] + Clean(rest);
        assert r[0] == t && r[1..] == Clean(rest);
      }
    }
  }

  /** Normalisation only removes whitespace: the visible characters are kept, in order. */
  lemma NormaliseKeepsVisible(text: string)
    ensures Visible(Normalise(text)) == Visible(text)
  {
    JoinSplit(text);
    VisibleJoin(Split(text));
    VisibleClean(Split(text));
    VisibleJoin(Clean(Split(text)));
  }

  /** Empty or all-whitespace text, and only such text, normalises to "". */
  lemma NormaliseBlank(text: string)
    ensures Normalise(text) == [] <==> AllSpace(text)
  {
    var t := Normalise(text);
    NormaliseKeepsVisible(text);
    NormaliseEnds(text);
    VisibleAllSpace(text);
    VisibleAllSpace(t);
    if t != [] {
      assert !IsSpace(t[0]);
    }
  }

  // ---------------------------------------------------------------------------
  // Python's `p in s` on strings
  // ---------------------------------------------------------------------------

  /** Python's substring test `p in s`. */
  function HasInfix(s: string, p: string): bool
    decreases |s|
  {
    if |s| < |p| then false else s[..|p|] == p || HasInfix(s[1..], p)
  }

  /** `p` occurs in `s` at position `i`. */
  predicate InfixAt(s: string, p: string, i: int) {
    0 <= i <= |s| - |p| && s[i..i + |p|] == p
  }

  /** The substring test holds exactly when `p` occurs at some position of `s`. */
  lemma {:induction false} HasInfixAt(s: string, p: string)
    ensures HasInfix(s, p) <==> exists i :: InfixAt(s, p, i)
    decreases |s|
  {
    if |s| >= |p| && s != [] {
      HasInfixAt(s[1..], p);
      if s[..|p|] == p {
        assert InfixAt(s, p, 0);
      } else if HasInfix(s[1..], p) {
        var i :| InfixAt(s[1..], p, i);
        assert s[i + 1..i + 1 + |p|] == s[1..][i..i + |p|];
        assert InfixAt(s, p, i + 1);
      }
      if exists i :: InfixAt(s, p, i) {
        var i :| InfixAt(s, p, i);
        if i > 0 {
          assert s[1..][i - 1..i - 1 + |p|] == s[i..i + |p|];
          assert InfixAt(s[1..], p, i - 1);
        }
      }
    } else if |s| >= |p| {
      assert InfixAt(s, p, 0);
    }
  }
}
