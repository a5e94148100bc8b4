/** The greedy word wrap both broker-notes layouts use: words are added to
    the current line while the line stays within the width; a word that does
    not fit closes the line and starts the next one. */
module WordWrap {
  import opened Text

  /** The loop state: the closed lines and the line being built. */
  datatype WrapState = WrapState(lines: seq<string>, line: string)

  /** `test = f"{line} {w}" if line else w`, then close the line when
      `len(test) > width`. */
  function Step(st: WrapState, w: string, width: nat): WrapState {
    var test := if st.line != "" then st.line + " " + w else w;
    if |test| > width then WrapState(st.lines + [st.line], w) else WrapState(st.lines, test)
  }

  /** The state after the loop has consumed `words`. */
  function Consume(words: seq<string>, width: nat): WrapState {
    if words == [] then WrapState([], "")
    else Step(Consume(words[..|words| - 1], width), words[|words| - 1], width)
  }

  /** The lines: the closed ones, then the last one if it is not empty. */
  function Wrap(words: seq<string>, width: nat): seq<string> {
    var st := Consume(words, width);
    if st.line != "" then st.lines + [st.line] else st.lines
  }

  /** The words as `str.split()` yields them: none empty, none with a space. */
  predicate AreWords(words: seq<string>) {
    forall i :: 0 <= i < |words| ==> words[i] != "" && NoSpace(words[i])
  }

  /** The non-empty lines. */
  function NonEmpty(lines: seq<string>): seq<string> {
    if lines == [] then []
    else NonEmpty(lines[..|lines| - 1]) + (if lines[|lines| - 1] == "" then [] else [lines[|lines| - 1]])
  }

  /** A line fits or holds one word only. */
  predicate FitsOrSingle(l: string, words: seq<string>, width: nat) {
    |l| <= width || l in words
  }

  // ----- width -----

  lemma {:induction false} ConsumeWidth(words: seq<string>, width: nat)
    ensures var st := Consume(words, width);
      FitsOrSingle(st.line, words, width) &&
      forall i :: 0 <= i < |st.lines| ==> FitsOrSingle(st.lines[i], words, width)
  {
    if words != [] {
      var init := words[..|words| - 1];
      ConsumeWidth(init, width);
      assert forall x :: x in init ==> x in words;
    }
  }

  /** No wrapped line is longer than the width unless it is a single word
      that is longer on its own. */
  lemma WrapWidth(words: seq<string>, width: nat)
    ensures forall i :: 0 <= i < |Wrap(words, width)| ==> FitsOrSingle(Wrap(words, width)[i], words, width)
  {
    ConsumeWidth(words, width);
  }

  // ----- content -----

  lemma {:induction false} JoinSnoc(sep: string, xs: seq<string>, a: string)
    requires xs != []
    ensures Join(sep, xs + [a]) == Join(sep, xs) + sep + a
  {
    if |xs| == 1 {
      assert xs + [a] == [xs[0], a];
    } else {
      assert (xs + [a])[1..] == xs[1..] + [a];
      JoinSnoc(sep, xs[1..], a);
    }
  }

  lemma {:induction false} NonEmptyAppend(lines: seq<string>, l: string)
    ensures NonEmpty(lines + [l]) == NonEmpty(lines) + (if l == "" then [] else [l])
  {
    assert (lines + [l])[..|lines|] == lines;
  }

  /** The current line is empty only before the first word. */
  lemma {:induction false} ConsumeLineEmpty(words: seq<string>, width: nat)
    requires AreWords(words)
    ensures Consume(words, width).line == "" <==> words == []
  {
    if words != [] {
      var init := words[..|words| - 1];
      ConsumeLineEmpty(init, width);
    }
  }

  /** The text a state holds: its non-empty closed lines, then its current line. */
  function Held(st: WrapState): seq<string> {
    NonEmpty(st.lines) + (if st.line == "" then [] else [st.line])
  }

  /** One step with a current line in progress appends the word to the held text. */
  lemma StepContent(st: WrapState, w: string, width: nat)
    requires st.line != "" && w != ""
    ensures Join(" ", Held(Step(st, w, width))) == Join(" ", Held(st)) + " " + w
  {
    var closed := NonEmpty(st.lines);
    var test := st.line + " " + w;
    if |test| > width {
      NonEmptyAppend(st.lines, st.line);
      JoinSnoc(" ", closed + [st.line], w);
    } else if closed == [] {
      assert Held(Step(st, w, width)) == [test];
    } else {
      JoinSnoc(" ", closed, st.line);
      JoinSnoc(" ", closed, test);
    }
  }

  /** What the loop keeps: the non-empty closed lines and the current line,
      joined with single spaces, spell the consumed words joined with single
      spaces. */
  lemma {:induction false} ConsumeContent(words: seq<string>, width: nat)
    requires AreWords(words)
    ensures Join(" ", Held(Consume(words, width))) == Join(" ", words)
  {
    if words != [] {
      var n := |words| - 1;
      var init := words[..n];
      var w := words[n];
      assert words == init + [w];
      var st := Consume(init, width);
      assert Consume(words, width) == Step(st, w, width);
      if init == [] {
        assert st == WrapState([], "");
        NonEmptyAppend([], "");
        assert Held(Step(st, w, width)) == [w];
      } else {
        ConsumeContent(init, width);
        ConsumeLineEmpty(init, width);
        StepContent(st, w, width);
        JoinSnoc(" ", init, w);
      }
    }
  }

  /** Rejoining the wrapped lines gives back the text: no word is lost,
      duplicated, reordered or split. The one empty line the loop can emit
      (see `WrapBlankFirstLine`) carries no text. */
  lemma WrapContent(words: seq<string>, width: nat)
    requires AreWords(words)
    ensures Join(" ", NonEmpty(Wrap(words, width))) == Join(" ", words)
  {
    ConsumeContent(words, width);
    var st := Consume(words, width);
    if st.line != "" {
      NonEmptyAppend(st.lines, st.line);
    }
    assert NonEmpty(Wrap(words, width)) == Held(st);
  }

  /** An empty line is ever emitted only as the first line, and exactly when
      the very first word is by itself longer than the width. */
  lemma {:induction false} ConsumeBlank(words: seq<string>, width: nat)
    requires AreWords(words)
    ensures var st := Consume(words, width);
      (forall i :: 0 < i < |st.lines| ==> st.lines[i] != "") &&
      (st.lines != [] && st.lines[0] == "" <==> words != [] && |words[0]| > width)
  {
    if words != [] {
      var init := words[..|words| - 1];
      ConsumeBlank(init, width);
      ConsumeLineEmpty(init, width);
      if init != [] {
        assert init[0] == words[0];
      }
    }
  }

  lemma WrapBlankFirstLine(words: seq<string>, width: nat)
    requires AreWords(words)
    ensures forall i :: 0 < i < |Wrap(words, width)| ==> Wrap(words, width)[i] != ""
    ensures |Wrap(words, width)| > 0 && Wrap(words, width)[0] == "" <==> words != [] && |words[0]| > width
  {
    ConsumeBlank(words, width);
  }

  /** The wrap loop of the ACORD 125 broker-notes page, which collects the
      lines in a list. */
  method WrapWords(words: seq<string>, width: nat) returns (lines: seq<string>)
    ensures lines == Wrap(words, width)
  {
    lines := [];
    var line := "";
    var i := 0;
    while i < |words|
      invariant 0 <= i <= |words|
      invariant WrapState(lines, line) == Consume(words[..i], width)
    {
      var w := words[i];
      var test := if line != "" then line + " " + w else w;
      if |test| > width {
        lines := lines + [line];
        line := w;
      } else {
        line := test;
      }
      assert words[..i + 1][..i] == words[..i];
      i := i + 1;
    }
    assert words[..i] == words;
    if line != "" {
      lines := lines + [line];
    }
  }
}
