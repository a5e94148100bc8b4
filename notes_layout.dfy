/** How the broker-notes pages place their boxes: each note gets a box of a
    computed height at the current y; when the box would reach below
    y = 750 it goes to the top (y = 50) of a new page instead; y then moves
    past the box and a fixed gap. */
module NotesLayout {
  import opened Document

  /** Notes pages are US Letter. */
  const PageWidth := 612
  const PageHeight := 792
  /** A box may not reach below this y. */
  const BreakY := 750
  /** The y at which a new notes page starts. */
  const TopY := 50

  /** Where the next box goes. */
  datatype Cursor = Cursor(page: nat, y: int)

  /** Where one box went. */
  datatype Placement = Placement(page: nat, top: int, height: nat)

  /** A drawn rectangle or a text line of a notes page. */
  datatype Mark = Frame(page: nat, x0: int, y0: int, x1: int, y1: int) | Write(d: Draw)

  /** The notes document: how many pages it has and what is on them. */
  datatype NotesPdf = NotesPdf(pageCount: nat, marks: seq<Mark>)

  /** `if y + box_height > 750: new page, y = 50`. */
  function Place(c: Cursor, h: nat): Placement {
    if c.y + h > BreakY then Placement(c.page + 1, TopY, h) else Placement(c.page, c.y, h)
  }

  /** `y += box_height + gap`. */
  function After(p: Placement, gap: nat): Cursor {
    Cursor(p.page, p.top + p.height + gap)
  }

  /** The cursor once the boxes of `hs` are placed. */
  function EndCursor(hs: seq<nat>, start: Cursor, gap: nat): Cursor {
    if hs == [] then start
    else After(Place(EndCursor(hs[..|hs| - 1], start, gap), hs[|hs| - 1]), gap)
  }

  /** Where every box goes. */
  function PlaceAll(hs: seq<nat>, start: Cursor, gap: nat): (ps: seq<Placement>)
    ensures |ps| == |hs|
  {
    if hs == [] then []
    else PlaceAll(hs[..|hs| - 1], start, gap) + [Place(EndCursor(hs[..|hs| - 1], start, gap), hs[|hs| - 1])]
  }

  /** The text lines `lines`, drawn from `y0` downwards `step` apart. */
  function LineMarks(page: nat, x: int, y0: int, step: int, lines: seq<string>, size: nat): (ms: seq<Mark>)
    ensures |ms| == |lines|
  {
    if lines == [] then []
    else
      var n := |lines| - 1;
      LineMarks(page, x, y0, step, lines[..n], size) + [Write(Draw(page, x, y0 + step * n, lines[n], size))]
  }

  // ----- properties of the placement -----

  lemma {:induction false} PlaceAllPrefix(hs: seq<nat>, start: Cursor, gap: nat, n: nat)
    requires n <= |hs|
    ensures PlaceAll(hs[..n], start, gap) == PlaceAll(hs, start, gap)[..n]
  {
    if n < |hs| {
      var init := hs[..|hs| - 1];
      assert hs[..n] == init[..n];
      PlaceAllPrefix(init, start, gap, n);
    } else {
      assert hs[..n] == hs;
    }
  }

  /** Box `i` goes at the cursor left by the boxes before it. */
  lemma PlaceAllAt(hs: seq<nat>, start: Cursor, gap: nat, i: nat)
    requires i < |hs|
    ensures PlaceAll(hs, start, gap)[i] == Place(EndCursor(hs[..i], start, gap), hs[i])
  {
    PlaceAllPrefix(hs, start, gap, i + 1);
    assert hs[..i + 1][..i] == hs[..i];
  }

  /** Consecutive boxes: the next one starts a new page at y = 50 exactly
      when it would reach below y = 750 at the current y; otherwise it sits
      on the same page, `gap` below the previous box. */
  lemma Consecutive(hs: seq<nat>, start: Cursor, gap: nat, i: nat)
    requires i + 1 < |hs|
    ensures var ps := PlaceAll(hs, start, gap);
      var y := ps[i].top + ps[i].height + gap;
      (y + hs[i + 1] > BreakY ==> ps[i + 1] == Placement(ps[i].page + 1, TopY, hs[i + 1])) &&
      (y + hs[i + 1] <= BreakY ==> ps[i + 1] == Placement(ps[i].page, y, hs[i + 1]))
  {
    PlaceAllAt(hs, start, gap, i);
    PlaceAllAt(hs, start, gap, i + 1);
    assert hs[..i + 1][..i] == hs[..i];
  }

  /** No box reaches below y = 750 unless it is taller than a whole page
      allows (700 points, from y = 50 to y = 750). */
  lemma PlaceAllFits(hs: seq<nat>, start: Cursor, gap: nat)
    ensures forall i :: 0 <= i < |hs| ==>
      PlaceAll(hs, start, gap)[i].top + hs[i] <= BreakY || hs[i] > BreakY - TopY
  {
    forall i | 0 <= i < |hs|
      ensures PlaceAll(hs, start, gap)[i].top + hs[i] <= BreakY || hs[i] > BreakY - TopY
    {
      PlaceAllAt(hs, start, gap, i);
    }
  }

  lemma {:induction false} EndCursorBelow(hs: seq<nat>, start: Cursor, gap: nat)
    requires start.y >= TopY
    ensures EndCursor(hs, start, gap).y >= TopY
    ensures EndCursor(hs, start, gap).page >= start.page
    ensures EndCursor(hs, start, gap).page <= start.page + |hs|
  {
    if hs != [] {
      EndCursorBelow(hs[..|hs| - 1], start, gap);
    }
  }

  /** Starting below y = 50, no box starts above it, and the boxes use at
      most one new page per box. */
  lemma PlaceAllTops(hs: seq<nat>, start: Cursor, gap: nat)
    requires start.y >= TopY
    ensures forall i :: 0 <= i < |hs| ==> PlaceAll(hs, start, gap)[i].top >= TopY
    ensures forall i :: 0 <= i < |hs| ==> start.page <= PlaceAll(hs, start, gap)[i].page <= start.page + i + 1
  {
    forall i | 0 <= i < |hs|
      ensures PlaceAll(hs, start, gap)[i].top >= TopY
      ensures start.page <= PlaceAll(hs, start, gap)[i].page <= start.page + i + 1
    {
      PlaceAllAt(hs, start, gap, i);
      EndCursorBelow(hs[..i], start, gap);
    }
  }
}
