/** The ACORD 125/140 filler's document side: filling the widgets from the
    flat field map, flattening (optionally without the general-liability
    pages), and the two overlays drawn on the flattened third page. */
module AcordFiller {
  import opened Wrappers
  import opened Json
  import opened FieldMap
  import opened Document
  import opened WidgetFill
  import opened Text
  import opened WordWrap
  import opened NotesLayout

  /** `_fill_widgets`: one pass over every widget of every page, recording
      each name and filling the widgets whose names are keys. Returns the
      number of widgets filled and the keys no widget carries. */
  method FillWidgets(doc: Pdf, fields: FieldMap) returns (filled: nat, skipped: seq<string>)
    modifies doc
    ensures doc.pages == FillPages(old(doc.pages), fields)
    ensures filled == MatchCountPages(old(doc.pages), fields)
    ensures skipped == Unmatched(Keys(fields), AllNames(old(doc.pages)))
  {
    ghost var src := doc.pages;
    var allNames: set<string> := {};
    filled := 0;
    var p := 0;
    while p < |doc.pages|
      invariant |doc.pages| == |src| && 0 <= p <= |src|
      invariant forall q :: 0 <= q < p ==> doc.pages[q] == FillPage(src[q], fields)
      invariant forall q :: p <= q < |src| ==> doc.pages[q] == src[q]
      invariant allNames == AllNames(src[..p])
      invariant filled == MatchCountPages(src[..p], fields)
    {
      var names, count := FillPageWidgets(doc, p, fields);
      PagesStep(src, p, fields);
      allNames := allNames + names;
      filled := filled + count;
      p := p + 1;
    }
    assert src[..p] == src;
    assert doc.pages == FillPages(src, fields);
    skipped := Unmatched(Keys(fields), allNames);
  }

  /** One more widget adds its name, and counts when its name is a key. */
  lemma WidgetsStep(ws: seq<Widget>, i: nat, fields: FieldMap)
    requires i < |ws|
    ensures NamesOf(ws[..i + 1]) == NamesOf(ws[..i]) + {ws[i].name}
    ensures MatchCount(ws[..i + 1], fields) == MatchCount(ws[..i], fields) + if Lookup(fields, ws[i].name).Some? then 1 else 0
  {
    assert ws[..i + 1][..i] == ws[..i];
    assert forall x :: x in ws[..i + 1] <==> x in ws[..i] || x == ws[i];
  }

  /** One more page adds its names and its matched widgets. */
  lemma PagesStep(ps: seq<Page>, p: nat, fields: FieldMap)
    requires p < |ps|
    ensures AllNames(ps[..p + 1]) == AllNames(ps[..p]) + NamesOf(ps[p].widgets)
    ensures MatchCountPages(ps[..p + 1], fields) == MatchCountPages(ps[..p], fields) + MatchCount(ps[p].widgets, fields)
  {
    assert ps[..p + 1][..p] == ps[..p];
  }

  /** `_fill_widgets` on page `p`: its widgets filled in place. */
  method FillPageWidgets(doc: Pdf, p: nat, fields: FieldMap) returns (names: set<string>, count: nat)
    requires p < |doc.pages|
    modifies doc
    ensures doc.pages == old(doc.pages)[p := FillPage(old(doc.pages[p]), fields)]
    ensures names == NamesOf(old(doc.pages[p].widgets))
    ensures count == MatchCount(old(doc.pages[p].widgets), fields)
  {
    var page := doc.pages[p];
    var ws;
    ws, names, count := FillWidgetRun(page.widgets, fields);
    doc.pages := doc.pages[p := page.(widgets := ws)];
  }

  /** The inner loop of `_fill_widgets` over the widgets of one page:
      each widget whose name is a key takes the key's value as text. */
  method FillWidgetRun(src: seq<Widget>, fields: FieldMap) returns (ws: seq<Widget>, names: set<string>, count: nat)
    ensures ws == FillAll(src, fields)
    ensures names == NamesOf(src)
    ensures count == MatchCount(src, fields)
  {
    ws := src;
    names, count := {}, 0;
    var i := 0;
    while i < |ws|
      invariant |ws| == |src| && 0 <= i <= |ws|
      invariant forall j :: 0 <= j < i ==> ws[j] == FillWidget(src[j], fields)
      invariant forall j :: i <= j < |ws| ==> ws[j] == src[j]
      invariant names == NamesOf(src[..i])
      invariant count == MatchCount(src[..i], fields)
    {
      var w := ws[i];
      names := names + {w.name};
      var v := Lookup(fields, w.name);
      if v.Some? {
        ws := ws[i := w.(value := Text(PyStr(v.value)))];
        count := count + 1;
      }
      WidgetsStep(src, i, fields);
      i := i + 1;
    }
    assert src[..i] == src;
  }

  // ----- flattening without the general-liability pages -----

  /** The general-liability pages of the ACORD 125 packet (pages 5 to 8). */
  const GlPageIndices: seq<nat> := [4, 5, 6, 7]

  /** `[i for i in range(n) if i not in GL_PAGE_INDICES]`. */
  function PagesToKeep(n: nat): (ks: seq<nat>)
    ensures |ks| <= n
  {
    if n == 0 then [] else PagesToKeep(n - 1) + (if n - 1 in GlPageIndices then [] else [n - 1])
  }

  /** The general-liability pages are pages 4 to 7 (0-based). */
  lemma GlPageRange(i: nat)
    ensures i in GlPageIndices <==> 4 <= i <= 7
  {
  }

  /** The kept indices are exactly the page indices that are not
      general-liability pages. */
  lemma {:induction false} PagesToKeepMembers(n: nat)
    ensures forall j :: 0 <= j < |PagesToKeep(n)| ==> PagesToKeep(n)[j] < n && PagesToKeep(n)[j] !in GlPageIndices
    ensures forall i :: 0 <= i < n && i !in GlPageIndices ==> i in PagesToKeep(n)
  {
    if n > 0 {
      PagesToKeepMembers(n - 1);
    }
  }

  /** The kept indices are in increasing order, so the kept pages keep
      their order. */
  lemma {:induction false} PagesToKeepIncreasing(n: nat)
    ensures forall j, k :: 0 <= j < k < |PagesToKeep(n)| ==> PagesToKeep(n)[j] < PagesToKeep(n)[k]
  {
    if n > 0 {
      PagesToKeepIncreasing(n - 1);
      PagesToKeepMembers(n - 1);
    }
  }

  /** A packet of at most 4 pages keeps them all, one of 5 to 8 pages keeps
      its first 4, and a longer one loses exactly 4. */
  lemma {:induction false} PagesToKeepCount(n: nat)
    ensures |PagesToKeep(n)| == if n <= 4 then n else if n <= 8 then 4 else n - 4
  {
    if n > 0 {
      PagesToKeepCount(n - 1);
      GlPageRange(n - 1);
    }
  }

  /** The `skip_gl` branch of the flattening: the kept pages, in order,
      each rendered at its own size. */
  method FlattenWithoutGl(src: seq<Page>) returns (dst: seq<ImagePage>)
    ensures |dst| == |PagesToKeep(|src|)|
    ensures forall j :: 0 <= j < |dst| ==> PagesToKeep(|src|)[j] < |src| && dst[j] == Render(src[PagesToKeep(|src|)[j]])
  {
    PagesToKeepMembers(|src|);
    var pagesToKeep := PagesToKeep(|src|);
    dst := [];
    var j := 0;
    while j < |pagesToKeep|
      invariant 0 <= j <= |pagesToKeep| && |dst| == j
      invariant forall m :: 0 <= m < j ==> dst[m] == Render(src[pagesToKeep[m]])
    {
      var i := pagesToKeep[j];
      dst := dst + [Render(src[i])];
      j := j + 1;
    }
  }

  // ----- overlays on the flattened third page -----

  /** A General Information question: the key under `general_info` (the
      field name without its `ACORD_General_` prefix), the x of the Y and
      of the N column, and the row's y. */
  datatype YnSpot = YnSpot(short: string, xYes: int, xNo: int, y: int)

  const GeneralInfoSpots: seq<YnSpot> := [
    YnSpot("CoverageTerminated", 498, 524, 164),
    YnSpot("Subsidiary", 498, 524, 179),
    YnSpot("Parent", 498, 524, 194),
    YnSpot("OtherVentures", 498, 524, 232),
    YnSpot("Exposure", 498, 524, 247),
    YnSpot("Foreign", 498, 524, 262),
    YnSpot("Trust", 498, 524, 277),
    YnSpot("OtherInsurance", 498, 524, 315),
    YnSpot("PossessDrones", 498, 524, 353),
    YnSpot("HireDrones", 498, 524, 368),
    YnSpot("IndictedOrConvicted", 498, 524, 406),
    YnSpot("SafetyViolations", 498, 524, 421),
    YnSpot("NegativeFinancialAction", 498, 524, 459),
    YnSpot("JudgementLien", 498, 524, 474),
    YnSpot("Safety", 498, 524, 512),
    YnSpot("PastAllegations", 498, 524, 550)
  ]

  /** `yn_overrides.get(short, "N" if all_no else "")`. */
  function YnValue(config: Json, short: string): Json {
    GetOr(Sub(config, "general_info"), short, if Flag(config, "general_info_all_no") then JStr("N") else JStr(""))
  }

  /** One question: nothing for a falsy value; otherwise the upper-cased
      value, at the Y column when it is "Y" and at the N column otherwise.
      `.upper()` on a value that is not a string raises. */
  function YnDraw(spot: YnSpot, value: Json, pageIndex: nat): Result<seq<Draw>, string> {
    if !Truthy(value) then Success([])
    else if !value.JStr? then Failure("general_info value is not a string")
    else
      var upper := Upper(value.s);
      Success([Draw(pageIndex, if upper == "Y" then spot.xYes else spot.xNo, spot.y, upper, 8)])
  }

  function YnDraws(spots: seq<YnSpot>, config: Json, pageIndex: nat): Result<seq<Draw>, string> {
    if spots == [] then Success([])
    else
      var init := YnDraws(spots[..|spots| - 1], config, pageIndex);
      var last := spots[|spots| - 1];
      var d := YnDraw(last, YnValue(config, last.short), pageIndex);
      if init.Failure? then init
      else if d.Failure? then d
      else Success(init.value + d.value)
  }

  /** `_draw_general_info_yn`: nothing when the page does not exist. */
  function GeneralInfoOverlay(pageCount: nat, config: Json, pageIndex: nat): Result<seq<Draw>, string> {
    if pageIndex >= pageCount then Success([]) else YnDraws(GeneralInfoSpots, config, pageIndex)
  }

  /** The value upper-cases to "Y" exactly when it is "Y" or "y". */
  lemma UpperIsY(s: string)
    ensures Upper(s) == "Y" <==> s == "Y" || s == "y"
  {
    if Upper(s) == "Y" {
      assert |s| == 1 && UpperChar(s[0]) == 'Y';
      assert s == [s[0]];
    }
  }

  /** A drawn answer sits on its question's row, at the Y column exactly
      when the answer is "Y" in either case, and reads as the answer
      upper-cased; a falsy answer draws nothing. */
  lemma YnDrawPlaced(spot: YnSpot, value: Json, pageIndex: nat)
    ensures !Truthy(value) ==> YnDraw(spot, value, pageIndex) == Success([])
    ensures Truthy(value) && value.JStr? ==>
      var r := YnDraw(spot, value, pageIndex);
      r.Success? && |r.value| == 1 &&
      r.value[0].page == pageIndex && r.value[0].y == spot.y && r.value[0].size == 8 &&
      r.value[0].text == Upper(value.s) &&
      (r.value[0].x == spot.xYes <==> value.s == "Y" || value.s == "y" || spot.xYes == spot.xNo)
  {
    if Truthy(value) && value.JStr? {
      UpperIsY(value.s);
    }
  }

  /** With `general_info_all_no` set and no answers given, every question
      is answered "N" at its N column, in table order. */
  lemma {:induction false} AllNoDrawsEveryRow(spots: seq<YnSpot>, config: Json, pageIndex: nat)
    requires Flag(config, "general_info_all_no")
    requires Members(Sub(config, "general_info")) == []
    ensures var r := YnDraws(spots, config, pageIndex);
      r.Success? && |r.value| == |spots| &&
      forall i :: 0 <= i < |spots| ==> r.value[i] == Draw(pageIndex, spots[i].xNo, spots[i].y, "N", 8)
  {
    if spots != [] {
      var n := |spots| - 1;
      AllNoDrawsEveryRow(spots[..n], config, pageIndex);
      var last := spots[n];
      assert !Has(Sub(config, "general_info"), last.short);
      assert YnValue(config, last.short) == JStr("N");
      assert Upper("N") == "N";
    }
  }

  /** Every drawn answer is on the overlay page, on the row of one of the
      questions; each question draws at most once, so there are no more
      draws than questions. */
  lemma {:induction false} YnDrawsRows(spots: seq<YnSpot>, config: Json, pageIndex: nat)
    ensures var r := YnDraws(spots, config, pageIndex);
      r.Success? ==>
        |r.value| <= |spots| &&
        (forall d :: d in r.value ==> d.page == pageIndex && exists s :: s in spots && d.y == s.y) &&
        forall i :: 0 <= i < |spots| ==>
          var q := YnDraw(spots[i], YnValue(config, spots[i].short), pageIndex);
          q.Success? && |q.value| <= 1
  {
    if spots != [] {
      var n := |spots| - 1;
      YnDrawsRows(spots[..n], config, pageIndex);
      assert forall s :: s in spots[..n] ==> s in spots;
      assert forall i :: 0 <= i < n ==> spots[..n][i] == spots[i];
    }
  }

  /** The Property column of the prior-carrier block. */
  const PropertyX := 355

  /** The rows of the Property column: the key under `prior_carrier` and its y. */
  const PriorCarrierRows: seq<(string, int)> := [
    ("carrier", 614), ("policy_number", 629), ("premium", 644), ("effective", 659), ("expiration", 674)
  ]

  function PriorRowDraws(rows: seq<(string, int)>, prior: Json, pageIndex: nat): seq<Draw> {
    if rows == [] then []
    else
      var init := PriorRowDraws(rows[..|rows| - 1], prior, pageIndex);
      var (key, y) := rows[|rows| - 1];
      var value := GetOr(prior, key, JStr(""));
      init + (if Truthy(value) then [Draw(pageIndex, PropertyX, y, PyStr(value), 7)] else [])
  }

  /** `_draw_prior_carrier_property`: nothing without prior-carrier data or
      without the page. */
  function PriorCarrierOverlay(pageCount: nat, config: Json, pageIndex: nat): seq<Draw> {
    var prior := GetOr(config, "prior_carrier", JObj([]));
    if !Truthy(prior) || pageIndex >= pageCount then [] else PriorRowDraws(PriorCarrierRows, prior, pageIndex)
  }

  /** Every Property value is drawn at x = 355 in size 7 on its row, holds
      the text of a truthy value, and a row is drawn exactly when its value
      is truthy. */
  lemma {:induction false} PriorRowsPlaced(rows: seq<(string, int)>, prior: Json, pageIndex: nat)
    ensures |PriorRowDraws(rows, prior, pageIndex)| <= |rows|
    ensures forall d :: d in PriorRowDraws(rows, prior, pageIndex) ==>
      d.page == pageIndex && d.x == PropertyX && d.size == 7 &&
      exists r :: r in rows && d.y == r.1 && Truthy(GetOr(prior, r.0, JStr(""))) && d.text == PyStr(GetOr(prior, r.0, JStr("")))
    ensures (forall r :: r in rows ==> !Truthy(GetOr(prior, r.0, JStr("")))) <==> PriorRowDraws(rows, prior, pageIndex) == []
  {
    if rows != [] {
      var n := |rows| - 1;
      PriorRowsPlaced(rows[..n], prior, pageIndex);
      assert forall r :: r in rows <==> r in rows[..n] || r == rows[n];
    }
  }

  // ----- the broker-notes document -----

  /** Note text is wrapped at 85 characters. */
  const NoteWidth := 85
  /** The first note box starts at y = 90, under the two heading lines. */
  const NotesStart := Cursor(0, 90)
  const NoteGap := 6

  function NoteLines(note: string): seq<string> {
    Wrap(Words(note), NoteWidth)
  }

  /** `box_height = 20 + len(lines) * 12 + 8`. */
  function NoteHeight(note: string): nat {
    20 + |NoteLines(note)| * 12 + 8
  }

  function NoteHeights(notes: seq<string>): (hs: seq<nat>)
    ensures |hs| == |notes|
  {
    if notes == [] then [] else NoteHeights(notes[..|notes| - 1]) + [NoteHeight(notes[|notes| - 1])]
  }

  const NotesHeading: seq<Mark> := [
    Write(Draw(0, 50, 50, "BROKER NOTES — VALUATION & COVERAGE FLAGS", 14)),
    Write(Draw(0, 50, 68, "CONFIDENTIAL — Not part of the signed application", 8))
  ]

  /** One note's box and its lines, 12 points apart from 14 below the top. */
  function NoteMarks(p: Placement, lines: seq<string>): seq<Mark> {
    [Frame(p.page, 40, p.top, 572, p.top + p.height)] + LineMarks(p.page, 48, p.top + 14, 12, lines, 8)
  }

  function AllNoteMarks(notes: seq<string>): seq<Mark> {
    if notes == [] then []
    else
      var init := notes[..|notes| - 1];
      var last := notes[|notes| - 1];
      AllNoteMarks(init) + NoteMarks(Place(EndCursor(NoteHeights(init), NotesStart, NoteGap), NoteHeight(last)), NoteLines(last))
  }

  /** The notes document: as many pages as the last box needs, the
      heading, then one box per note placed by the shared page-break rule. */
  function NotesDocument(notes: seq<string>): NotesPdf {
    NotesPdf(EndCursor(NoteHeights(notes), NotesStart, NoteGap).page + 1, NotesHeading + AllNoteMarks(notes))
  }

  /** `_create_broker_notes_pdf`. */
  method CreateBrokerNotes(notes: seq<string>) returns (pdf: NotesPdf)
    ensures pdf == NotesDocument(notes)
  {
    var cursor := NotesStart;
    var marks := [];
    var i := 0;
    while i < |notes|
      invariant 0 <= i <= |notes|
      invariant cursor == EndCursor(NoteHeights(notes[..i]), NotesStart, NoteGap)
      invariant marks == AllNoteMarks(notes[..i])
    {
      var lines := WrapWords(Words(notes[i]), NoteWidth);
      var next, ms := DrawNote(cursor, lines);
      NoteSized(notes[i], lines);
      NotesStep(notes, i);
      cursor, marks := next, marks + ms;
      i := i + 1;
    }
    assert notes[..i] == notes;
    pdf := NotesPdf(cursor.page + 1, NotesHeading + marks);
  }

  /** Adding note `i` to the first `i` notes adds its box and lines at the
      cursor they leave. */
  lemma NotesStep(notes: seq<string>, i: nat)
    requires i < |notes|
    ensures var c := EndCursor(NoteHeights(notes[..i]), NotesStart, NoteGap);
      var p := Place(c, NoteHeight(notes[i]));
      AllNoteMarks(notes[..i + 1]) == AllNoteMarks(notes[..i]) + NoteMarks(p, NoteLines(notes[i])) &&
      EndCursor(NoteHeights(notes[..i + 1]), NotesStart, NoteGap) == After(p, NoteGap)
  {
    assert notes[..i + 1][..i] == notes[..i];
  }

  /** The wrapped lines of a note give its box height. */
  lemma NoteSized(note: string, lines: seq<string>)
    requires lines == Wrap(Words(note), NoteWidth)
    ensures lines == NoteLines(note) && NoteHeight(note) == 20 + |lines| * 12 + 8
  {
  }

  /** One pass of the note loop after the wrap: size the box, break the
      page if needed, draw the box and the lines, and advance y. */
  method DrawNote(c: Cursor, lines: seq<string>) returns (next: Cursor, ms: seq<Mark>)
    ensures ms == NoteMarks(Place(c, 20 + |lines| * 12 + 8), lines)
    ensures next == After(Place(c, 20 + |lines| * 12 + 8), NoteGap)
  {
    var boxHeight := 20 + |lines| * 12 + 8;
    var page, y := c.page, c.y;
    if y + boxHeight > BreakY {
      page := page + 1;
      y := TopY;
    }
    ms := [Frame(page, 40, y, 572, y + boxHeight)];
    var ty := y + 14;
    var k := 0;
    var drawn := [];
    while k < |lines|
      invariant 0 <= k <= |lines|
      invariant ty == y + 14 + 12 * k
      invariant drawn == LineMarks(page, 48, y + 14, 12, lines[..k], 8)
    {
      assert lines[..k + 1][..k] == lines[..k];
      drawn := drawn + [Write(Draw(page, 48, ty, lines[k], 8))];
      ty := ty + 12;
      k := k + 1;
    }
    assert lines[..k] == lines;
    ms := ms + drawn;
    next := Cursor(page, y + boxHeight + NoteGap);
  }

  /** Every line of a note lies inside its box. */
  lemma NoteLinesInBox(p: Placement, lines: seq<string>)
    requires p.height == 20 + |lines| * 12 + 8
    ensures forall k :: 0 <= k < |lines| ==> p.top < p.top + 14 + 12 * k < p.top + p.height
  {
  }
}
