/** The Python `str` operations the core uses, on `seq<char>`: `split`,
    `strip`, `lower`/`upper` (ASCII letters only), `join`, decimal rendering
    and the code-point order that `sorted` uses. */
module Text {

  /** The characters for which Python's `str.isspace` holds; `strip()` and
      `split()` without arguments remove exactly these. */
  predicate IsSpace(c: char) {
    InRanges(c as int, SpaceRanges)
  }

  /** The code-point ranges, both ends included, of the whitespace
      characters. */
  const SpaceRanges: seq<(int, int)> := [
    (9, 13), (28, 32), (0x85, 0x85), (0xA0, 0xA0), (0x1680, 0x1680), (0x2000, 0x200A),
    (0x2028, 0x2029), (0x202F, 0x202F), (0x205F, 0x205F), (0x3000, 0x3000)
  ]

  predicate InRanges(n: int, ranges: seq<(int, int)>) {
    ranges != [] && ((ranges[0].0 <= n <= ranges[0].1) || InRanges(n, ranges[1..]))
  }

  /** `s.split(sep)` for a one-character separator: every occurrence splits,
      so the result always has one more part than there are separators. */
  function Split(s: string, sep: char): (parts: seq<string>)
    ensures |parts| >= 1
    ensures forall i :: 0 <= i < |parts| ==> sep !in parts[i]
  {
    if s == [] then [""]
    else
      var rest := Split(s[1..], sep);
      if s[0] == sep then [""] + rest
      else [[s[0]] + rest[0]] + rest[1..]
  }

  /** Number of occurrences of `c` in `s`. */
  function Occurrences(s: string, c: char): nat {
    if s == [] then 0 else (if s[0] == c then 1 else 0) + Occurrences(s[1..], c)
  }

  /** `s.lstrip()` */
  function StripLeft(s: string): (r: string)
    ensures |r| <= |s| && r == s[|s| - |r|..]
    ensures r == [] || !IsSpace(r[0])
  {
    if s != [] && IsSpace(s[0]) then StripLeft(s[1..]) else s
  }

  /** `s.rstrip()` */
  function StripRight(s: string): (r: string)
    ensures |r| <= |s| && r == s[..|r|]
    ensures r == [] || !IsSpace(r[|r| - 1])
  {
    if s != [] && IsSpace(s[|s| - 1]) then StripRight(s[..|s| - 1]) else s
  }

  /** `s.strip()` */
  function Strip(s: string): (r: string)
    ensures r == [] || (!IsSpace(r[0]) && !IsSpace(r[|r| - 1]))
  {
    StripRight(StripLeft(s))
  }

  /** `s.split()` with no argument: the maximal runs of non-space characters. */
  function Words(s: string): (ws: seq<string>)
    ensures forall i :: 0 <= i < |ws| ==> ws[i] != [] && NoSpace(ws[i])
    decreases |s|
  {
    var t := StripLeft(s);
    if t == [] then []
    else
      var w := FirstWord(t);
      var rest := Words(t[|w|..]);
      WordsCons(w, rest);
      [w] + rest
  }

  lemma WordsCons(w: string, rest: seq<string>)
    requires w != [] && NoSpace(w)
    requires forall i :: 0 <= i < |rest| ==> rest[i] != [] && NoSpace(rest[i])
    ensures var ws := [w] + rest; forall i :: 0 <= i < |ws| ==> ws[i] != [] && NoSpace(ws[i])
  {
    var ws := [w] + rest;
    forall i | 0 <= i < |ws|
      ensures ws[i] != [] && NoSpace(ws[i])
    {
      if i > 0 {
        assert ws[i] == rest[i - 1];
      }
    }
  }

  /** The longest prefix of `s` without whitespace. */
  function FirstWord(s: string): (w: string)
    ensures |w| <= |s| && w == s[..|w|] && NoSpace(w)
    ensures s != [] && !IsSpace(s[0]) ==> w != []
    ensures |w| < |s| ==> IsSpace(s[|w|])
  {
    if s == [] || IsSpace(s[0]) then [] else [s[0]] + FirstWord(s[1..])
  }

  predicate NoSpace(s: string) {
    forall i :: 0 <= i < |s| ==> !IsSpace(s[i])
  }

  /** `sep.join(parts)` */
  function Join(sep: string, parts: seq<string>): string {
    if parts == [] then ""
    else if |parts| == 1 then parts[0]
    else parts[0] + sep + Join(sep, parts[1..])
  }

  /** There is one more part than there are separators. */
  lemma {:induction false} SplitCount(s: string, sep: char)
    ensures |Split(s, sep)| == Occurrences(s, sep) + 1
  {
    if s != [] {
      SplitCount(s[1..], sep);
    }
  }

  /** Joining the parts with the separator gives back the text. */
  lemma {:induction false} SplitJoin(s: string, sep: char)
    ensures Join([sep], Split(s, sep)) == s
  {
    if s != [] {
      var rest := Split(s[1..], sep);
      SplitJoin(s[1..], sep);
      assert s == [s[0]] + s[1..];
      if s[0] != sep && |rest| > 1 {
        var parts := [[s[0]] + rest[0]] + rest[1..];
        assert parts[1..] == rest[1..];
      }
    }
  }

  /** `sep.join(s.split(sep))` gives back `s`, no part holds `sep`, and
      there is one more part than there are separators. */
  lemma SplitParts(s: string, sep: char)
    ensures forall i :: 0 <= i < |Split(s, sep)| ==> sep !in Split(s, sep)[i]
    ensures |Split(s, sep)| == Occurrences(s, sep) + 1
    ensures Join([sep], Split(s, sep)) == s
  {
    SplitCount(s, sep);
    SplitJoin(s, sep);
  }

  /** `s` is whitespace only (`s.isspace()`, or `s` is empty). */
  predicate AllSpace(s: string) {
    forall i :: 0 <= i < |s| ==> IsSpace(s[i])
  }

  /** `lstrip` keeps a suffix of `s` that is empty or starts with a
      non-space, and what it removes before that suffix is all whitespace. */
  lemma {:induction false} StripLeftTrims(s: string)
    ensures var r := StripLeft(s); r == s[|s| - |r|..] && (r == [] || !IsSpace(r[0]))
    ensures AllSpace(s[..|s| - |StripLeft(s)|])
  {
    if s != [] && IsSpace(s[0]) {
      var tail := s[1..];
      StripLeftTrims(tail);
      var k := |tail| - |StripLeft(tail)|;
      assert s[..k + 1] == [s[0]] + tail[..k];
    }
  }

  /** `rstrip` keeps a prefix of `s` that is empty or ends with a
      non-space, and what it removes after that prefix is all whitespace. */
  lemma {:induction false} StripRightTrims(s: string)
    ensures var r := StripRight(s); r == s[..|r|] && (r == [] || !IsSpace(r[|r| - 1]))
    ensures AllSpace(s[|StripRight(s)|..])
  {
    if s != [] && IsSpace(s[|s| - 1]) {
      var init := s[..|s| - 1];
      StripRightTrims(init);
      var k := |StripRight(init)|;
      assert s[k..] == init[k..] + [s[|s| - 1]];
    }
  }

  lemma SliceOfSuffix(s: string, i: nat, n: nat)
    requires i + n <= |s|
    ensures s[i..][..n] == s[i..i + n] && s[i..][n..] == s[i + n..]
  {
  }

  /** `strip()` keeps one slice of `s`, starting where `lstrip` stops. */
  lemma StripSlice(s: string)
    ensures |s| - |StripLeft(s)| + |Strip(s)| <= |s|
    ensures var i := |s| - |StripLeft(s)|; Strip(s) == s[i..i + |Strip(s)|]
  {
    SliceOfSuffix(s, |s| - |StripLeft(s)|, |Strip(s)|);
  }

  lemma TrimmedEnds(s: string, t: string, r: string)
    requires |t| <= |s| && t == s[|s| - |t|..] && |r| <= |t| && r == t[..|r|]
    requires AllSpace(s[..|s| - |t|]) && AllSpace(t[|r|..])
    ensures AllSpace(s[|s| - |t| + |r|..])
  {
    assert s[|s| - |t| + |r|..] == t[|r|..];
  }

  /** What `strip()` removes on either side of its slice is whitespace. */
  lemma StripEnds(s: string)
    ensures |s| - |StripLeft(s)| + |Strip(s)| <= |s|
    ensures var i := |s| - |StripLeft(s)|; AllSpace(s[..i]) && AllSpace(s[i + |Strip(s)|..])
  {
    var t := StripLeft(s);
    var r := StripRight(t);
    StripLeftTrims(s);
    StripRightTrims(t);
    TrimmedEnds(s, t, r);
  }

  /** `strip()` keeps one slice of `s`, starting where `lstrip` stops, and
      everything it removes on either side is whitespace. */
  lemma StripTrims(s: string)
    ensures Strip(s) == [] || (!IsSpace(Strip(s)[0]) && !IsSpace(Strip(s)[|Strip(s)| - 1]))
    ensures |s| - |StripLeft(s)| + |Strip(s)| <= |s|
    ensures var i := |s| - |StripLeft(s)|; Strip(s) == s[i..i + |Strip(s)|]
    ensures var i := |s| - |StripLeft(s)|; AllSpace(s[..i]) && AllSpace(s[i + |Strip(s)|..])
  {
    StripSlice(s);
    StripEnds(s);
  }

  /** The text `gaps[0] + ws[0] + gaps[1] + ... + ws[n - 1] + gaps[n]`. */
  function Interleave(gaps: seq<string>, ws: seq<string>): string
    requires |gaps| == |ws| + 1
    decreases |ws|
  {
    if ws == [] then gaps[0] else gaps[0] + ws[0] + Interleave(gaps[1..], ws[1..])
  }

  lemma InterleaveCons(g: string, w: string, gaps: seq<string>, ws: seq<string>)
    requires |gaps| == |ws| + 1
    ensures Interleave([g] + gaps, [w] + ws) == g + w + Interleave(gaps, ws)
  {
    assert ([g] + gaps)[1..] == gaps && ([w] + ws)[1..] == ws;
  }

  lemma Rejoin(a: string, t: string, n: nat)
    requires n <= |t|
    ensures a + t == a + t[..n] + t[n..]
  {
    assert t == t[..n] + t[n..];
  }

  /** Past leading whitespace, `split()` takes the first word and goes on
      after it. */
  lemma WordsStep(s: string)
    requires StripLeft(s) != []
    ensures var t := StripLeft(s); var w := FirstWord(t);
      Words(s) == [w] + Words(t[|w|..])
  {
  }

  /** With an empty first gap the text starts with the first word. */
  lemma InterleaveStart(gaps: seq<string>, ws: seq<string>)
    requires |gaps| == |ws| + 1 && ws != [] && ws[0] != [] && gaps[0] == []
    ensures Interleave(gaps, ws) != [] && Interleave(gaps, ws)[0] == ws[0][0]
  {
  }

  /** The whitespace around the words of `s`: what comes before the first
      word, between two words and after the last. */
  function Gaps(s: string): seq<string>
    decreases |s|
  {
    var t := StripLeft(s);
    var lead := s[..|s| - |t|];
    if t == [] then [s]
    else
      var w := FirstWord(t);
      [lead] + Gaps(t[|w|..])
  }

  /** There is one gap more than there are words. */
  lemma {:induction false} GapsCount(s: string)
    ensures |Gaps(s)| == |Words(s)| + 1
    decreases |s|
  {
    var t := StripLeft(s);
    if t != [] {
      GapsCount(t[|FirstWord(t)|..]);
      WordsStep(s);
      GapsStep(s);
    }
  }

  /** The words and their gaps make up `s` again. */
  lemma {:induction false} GapsRebuild(s: string)
    ensures |Gaps(s)| == |Words(s)| + 1 && s == Interleave(Gaps(s), Words(s))
    decreases |s|
  {
    GapsCount(s);
    var t := StripLeft(s);
    if t == [] {
      GapsEnd(s);
    } else {
      var w := FirstWord(t);
      var u := t[|w|..];
      GapsRebuild(u);
      RebuildCons(s, s[..|s| - |t|], t, w, Gaps(u), Words(u));
      WordsStep(s);
      GapsStep(s);
    }
  }

  lemma RebuildCons(s: string, lead: string, t: string, w: string, gaps: seq<string>, ws: seq<string>)
    requires |t| <= |s| && t == s[|s| - |t|..] && lead == s[..|s| - |t|]
    requires |w| <= |t| && w == t[..|w|]
    requires |gaps| == |ws| + 1 && t[|w|..] == Interleave(gaps, ws)
    ensures s == Interleave([lead] + gaps, [w] + ws)
  {
    assert s == lead + t;
    Rejoin(lead, t, |w|);
    InterleaveCons(lead, w, gaps, ws);
  }

  /** All whitespace: no word, and the whole text is the one gap. */
  lemma GapsEnd(s: string)
    requires StripLeft(s) == []
    ensures Words(s) == [] && Gaps(s) == [s] && AllSpace(s)
  {
    StripLeftTrims(s);
    assert s[..|s|] == s;
  }

  /** Past leading whitespace, the first gap is that whitespace and the
      rest are the gaps after the first word. */
  lemma GapsStep(s: string)
    requires StripLeft(s) != []
    ensures var t := StripLeft(s);
      Gaps(s) == [s[..|s| - |t|]] + Gaps(t[|FirstWord(t)|..])
  {
  }

  /** Every string of `gaps` is whitespace only. */
  predicate AllGaps(gaps: seq<string>) {
    forall i :: 0 <= i < |gaps| ==> AllSpace(gaps[i])
  }

  lemma AllGapsCons(g: string, gaps: seq<string>)
    requires AllSpace(g) && AllGaps(gaps)
    ensures AllGaps([g] + gaps)
  {
    var all := [g] + gaps;
    forall i | 0 <= i < |all|
      ensures AllSpace(all[i])
    {
      if i > 0 {
        assert all[i] == gaps[i - 1];
      }
    }
  }

  /** Every gap is whitespace only. */
  lemma {:induction false} GapsSpace(s: string)
    ensures AllGaps(Gaps(s))
    decreases |s|
  {
    var t := StripLeft(s);
    if t == [] {
      GapsEnd(s);
      AllGapsCons(s, []);
      assert [s] + [] == [s];
    } else {
      var u := t[|FirstWord(t)|..];
      GapsSpace(u);
      StripLeftTrims(s);
      AllGapsCons(s[..|s| - |t|], Gaps(u));
      GapsStep(s);
    }
  }

  /** A gap between two words is never empty, so each word is a maximal
      run of non-space characters. */
  lemma {:induction false} GapsInner(s: string)
    ensures |Gaps(s)| == |Words(s)| + 1 && forall i :: 0 < i < |Words(s)| ==> Gaps(s)[i] != []
    decreases |s|
  {
    GapsCount(s);
    var t := StripLeft(s);
    if t != [] {
      var w := FirstWord(t);
      var u := t[|w|..];
      GapsInner(u);
      if Words(u) != [] {
        AfterWord(t);
        FirstGap(u);
      }
      InnerCons(s[..|s| - |t|], Gaps(u), w, Words(u));
      WordsStep(s);
      GapsStep(s);
    }
  }

  lemma InnerCons(lead: string, more: seq<string>, w: string, rest: seq<string>)
    requires |more| == |rest| + 1
    requires rest != [] ==> more[0] != []
    requires forall j :: 0 < j < |rest| ==> more[j] != []
    ensures forall i :: 0 < i < |[w] + rest| ==> ([lead] + more)[i] != []
  {
    forall i | 0 < i < |[w] + rest|
      ensures ([lead] + more)[i] != []
    {
      assert ([lead] + more)[i] == more[i - 1];
    }
  }

  /** Text that starts with whitespace and has a word has a non-empty first
      gap. */
  /** What follows the first word, when it holds another word, starts with
      whitespace. */
  lemma AfterWord(t: string)
    requires t != []
    ensures var u := t[|FirstWord(t)|..]; Words(u) != [] ==> u != [] && IsSpace(u[0])
  {
    var w := FirstWord(t);
    if |w| == |t| {
      assert t[|w|..] == [];
    }
  }

  lemma FirstGap(u: string)
    requires u != [] && IsSpace(u[0]) && Words(u) != []
    ensures Gaps(u)[0] != []
  {
    if Gaps(u)[0] == [] {
      GapsRebuild(u);
      InterleaveStart(Gaps(u), Words(u));
      assert false;
    }
  }

  /** `split()` cuts `s` into its maximal runs of non-space characters, in
      order: `s` is its words separated by non-empty runs of whitespace,
      with possibly empty runs of whitespace before the first and after the
      last. */
  lemma WordsSplit(s: string)
    ensures forall i :: 0 <= i < |Words(s)| ==> Words(s)[i] != [] && NoSpace(Words(s)[i])
    ensures var ws, gaps := Words(s), Gaps(s);
      |gaps| == |ws| + 1 && s == Interleave(gaps, ws) &&
      (forall i :: 0 <= i < |gaps| ==> AllSpace(gaps[i])) &&
      (forall i :: 0 < i < |ws| ==> gaps[i] != [])
  {
    GapsRebuild(s);
    GapsSpace(s);
    assert AllGaps(Gaps(s));
    GapsInner(s);
  }

  function LowerChar(c: char): char {
    if 'A' <= c <= 'Z' then (c as int + 32) as char else c
  }

  function UpperChar(c: char): char {
    if 'a' <= c <= 'z' then (c as int - 32) as char else c
  }

  /** `s.lower()` (ASCII letters only). */
  function Lower(s: string): (r: string)
    ensures |r| == |s|
    ensures forall i :: 0 <= i < |s| ==> r[i] == LowerChar(s[i])
  {
    seq(|s|, i requires 0 <= i < |s| => LowerChar(s[i]))
  }

  /** `s.upper()` (ASCII letters only). */
  function Upper(s: string): (r: string)
    ensures |r| == |s|
    ensures forall i :: 0 <= i < |s| ==> r[i] == UpperChar(s[i])
  {
    seq(|s|, i requires 0 <= i < |s| => UpperChar(s[i]))
  }

  function DigitChar(d: nat): char
    requires d < 10
  {
    "0123456789"[d]
  }

  /** `str(n)` for a natural number. */
  function NatToDecimal(n: nat): (r: string)
    ensures r != []
    ensures 0 < n < 10 ==> r == [DigitChar(n)]
  {
    if n < 10 then [DigitChar(n)] else NatToDecimal(n / 10) + [DigitChar(n % 10)]
  }

  /** `str(i)` for an integer. */
  function IntToDecimal(i: int): string {
    if i < 0 then "-" + NatToDecimal(-i) else NatToDecimal(i)
  }

  predicate HasPrefix(s: string, p: string) {
    |p| <= |s| && s[..|p|] == p
  }

  predicate HasSuffix(s: string, t: string) {
    |t| <= |s| && s[|s| - |t|..] == t
  }

  /** Python's `<=` on strings: lexicographic by code point. */
  predicate LessEq(a: string, b: string)
    decreases |a|
  {
    a == [] || (b != [] && (a[0] < b[0] || (a[0] == b[0] && LessEq(a[1..], b[1..]))))
  }

  lemma {:induction false} LessEqTotal(a: string, b: string)
    ensures LessEq(a, b) || LessEq(b, a)
    decreases |a|
  {
    if a != [] && b != [] && a[0] == b[0] {
      LessEqTotal(a[1..], b[1..]);
    }
  }

  lemma {:induction false} LessEqTransitive(a: string, b: string, c: string)
    requires LessEq(a, b) && LessEq(b, c)
    ensures LessEq(a, c)
    decreases |a|
  {
    if a != [] && b != [] && c != [] && a[0] == b[0] == c[0] {
      LessEqTransitive(a[1..], b[1..], c[1..]);
    }
  }

  lemma {:induction false} LessEqAntisymmetric(a: string, b: string)
    requires LessEq(a, b) && LessEq(b, a)
    ensures a == b
    decreases |a|
  {
    if a != [] {
      LessEqAntisymmetric(a[1..], b[1..]);
    }
  }

  /** Ascending in Python's string order. */
  predicate Ascending(s: seq<string>) {
    forall i, j :: 0 <= i < j < |s| ==> LessEq(s[i], s[j])
  }

  function Insert(x: string, s: seq<string>): seq<string> {
    if s == [] then [x]
    else if LessEq(x, s[0]) then [x] + s
    else [s[0]] + Insert(x, s[1..])
  }

  /** `sorted(xs)` for strings. */
  function SortStrings(xs: seq<string>): seq<string> {
    if xs == [] then [] else Insert(xs[0], SortStrings(xs[1..]))
  }

  lemma {:induction false} InsertMultiset(x: string, s: seq<string>)
    ensures multiset(Insert(x, s)) == multiset(s) + multiset{x}
  {
    if s != [] && !LessEq(x, s[0]) {
      InsertMultiset(x, s[1..]);
      assert s == [s[0]] + s[1..];
    }
  }

  lemma {:induction false} InsertSorted(x: string, s: seq<string>)
    requires Ascending(s)
    ensures Ascending(Insert(x, s))
  {
    if s == [] {
    } else if LessEq(x, s[0]) {
      var r := [x] + s;
      forall i, j | 0 <= i < j < |r|
        ensures LessEq(r[i], r[j])
      {
        if i == 0 && j > 1 {
          LessEqTransitive(x, s[0], s[j - 1]);
        }
      }
    } else {
      var t := Insert(x, s[1..]);
      InsertSorted(x, s[1..]);
      InsertMultiset(x, s[1..]);
      LessEqTotal(x, s[0]);
      forall k | 0 <= k < |t|
        ensures LessEq(s[0], t[k])
      {
        assert t[k] in multiset(t);
        if t[k] != x {
          assert t[k] in multiset(s[1..]);
          var j :| 0 <= j < |s[1..]| && s[1..][j] == t[k];
          assert s[j + 1] == t[k];
        }
      }
      var r := [s[0]] + t;
      forall i, j | 0 <= i < j < |r|
        ensures LessEq(r[i], r[j])
      {
        if i > 0 {
          assert r[i] == t[i - 1] && r[j] == t[j - 1];
        }
      }
    }
  }

  /** `sorted` orders the strings and keeps each of them, as often as it occurs. */
  lemma {:induction false} SortStringsCorrect(xs: seq<string>)
    ensures Ascending(SortStrings(xs))
    ensures multiset(SortStrings(xs)) == multiset(xs)
  {
    if xs != [] {
      SortStringsCorrect(xs[1..]);
      InsertSorted(xs[0], SortStrings(xs[1..]));
      InsertMultiset(xs[0], SortStrings(xs[1..]));
      assert xs == [xs[0]] + xs[1..];
    }
  }
}
