/** The generic form filler: fill every widget named by a key, report the
    keys no widget carries, count the distinct widget names, and flatten. */
module FillAcord {
  import opened Wrappers
  import opened Json
  import opened FieldMap
  import opened Document
  import opened WidgetFill
  import opened Text
  import opened WordWrap
  import opened NotesLayout

  /** The saved document: image-only when flattened, editable otherwise. */
  datatype Output = Flat(images: seq<ImagePage>) | Editable(pages: seq<Page>)

  datatype FormStats = FormStats(filledCount: nat, totalFields: nat, skippedFields: seq<string>, output: Output)

  /** `fill_acord_form`. */
  method FillAcordForm(doc: Pdf, fieldData: FieldMap, flatten: bool) returns (stats: FormStats)
    modifies doc
    ensures doc.pages == FillPages(old(doc.pages), fieldData)
    ensures stats.filledCount == MatchCountPages(old(doc.pages), fieldData)
    ensures stats.totalFields == |AllNames(old(doc.pages))|
    ensures stats.skippedFields == Unmatched(Keys(fieldData), AllNames(old(doc.pages)))
    ensures flatten ==> stats.output.Flat? && |stats.output.images| == |doc.pages|
    ensures flatten ==> forall i :: 0 <= i < |doc.pages| ==> stats.output.images[i] == Render(doc.pages[i])
    ensures !flatten ==> stats.output == Editable(doc.pages)
  {
    ghost var src := doc.pages;
    var filledCount := FillLoop(doc, fieldData);
    var allFieldNames := CollectNames(doc.pages);
    FillKeepsNames(src, fieldData);
    var skipped := SkippedKeys(fieldData, allFieldNames);
    var output;
    if flatten {
      var images := Flatten(doc.pages);
      output := Flat(images);
    } else {
      output := Editable(doc.pages);
    }
    stats := FormStats(filledCount, |allFieldNames|, skipped, output);
  }

  /** The first loop: fill and count, page by page. */
  method FillLoop(doc: Pdf, fieldData: FieldMap) returns (filledCount: nat)
    modifies doc
    ensures doc.pages == FillPages(old(doc.pages), fieldData)
    ensures filledCount == MatchCountPages(old(doc.pages), fieldData)
  {
    ghost var src := doc.pages;
    filledCount := 0;
    var p := 0;
    while p < |doc.pages|
      invariant |doc.pages| == |src| && 0 <= p <= |src|
      invariant forall q :: 0 <= q < p ==> doc.pages[q] == FillPage(src[q], fieldData)
      invariant forall q :: p <= q < |src| ==> doc.pages[q] == src[q]
      invariant filledCount == MatchCountPages(src[..p], fieldData)
    {
      var count := FillPageLoop(doc, p, fieldData);
      filledCount := filledCount + count;
      assert src[..p + 1][..p] == src[..p];
      p := p + 1;
    }
    assert src[..p] == src;
    assert doc.pages == FillPages(src, fieldData);
  }

  /** The inner loop of the first pass, over the widgets of page `p`. */
  method FillPageLoop(doc: Pdf, p: nat, fieldData: FieldMap) returns (count: nat)
    requires p < |doc.pages|
    modifies doc
    ensures doc.pages == old(doc.pages)[p := FillPage(old(doc.pages[p]), fieldData)]
    ensures count == MatchCount(old(doc.pages[p].widgets), fieldData)
  {
    var page := doc.pages[p];
    var ws := page.widgets;
    count := 0;
    var i := 0;
    while i < |ws|
      invariant |ws| == |page.widgets| && 0 <= i <= |ws|
      invariant forall j :: 0 <= j < i ==> ws[j] == FillWidget(page.widgets[j], fieldData)
      invariant forall j :: i <= j < |ws| ==> ws[j] == page.widgets[j]
      invariant count == MatchCount(page.widgets[..i], fieldData)
    {
      var w := ws[i];
      var v := Lookup(fieldData, w.name);
      if v.Some? {
        ws := ws[i := w.(value := Text(PyStr(v.value)))];
        count := count + 1;
      }
      assert page.widgets[..i + 1][..i] == page.widgets[..i];
      i := i + 1;
    }
    assert page.widgets[..i] == page.widgets;
    assert ws == FillAll(page.widgets, fieldData);
    doc.pages := doc.pages[p := page.(widgets := ws)];
  }

  /** The second loop: the set of all widget names. */
  method CollectNames(pages: seq<Page>) returns (names: set<string>)
    ensures names == AllNames(pages)
  {
    names := {};
    var p := 0;
    while p < |pages|
      invariant 0 <= p <= |pages|
      invariant names == AllNames(pages[..p])
    {
      var ws := pages[p].widgets;
      var pageNames: set<string> := {};
      var i := 0;
      while i < |ws|
        invariant 0 <= i <= |ws|
        invariant pageNames == NamesOf(ws[..i])
      {
        assert forall x :: x in ws[..i + 1] <==> x in ws[..i] || x == ws[i];
        pageNames := pageNames + {ws[i].name};
        i := i + 1;
      }
      assert ws[..i] == ws;
      names := names + pageNames;
      assert pages[..p + 1][..p] == pages[..p];
      p := p + 1;
    }
    assert pages[..p] == pages;
  }

  /** The third loop: the keys, in map order, that no widget carries. */
  method SkippedKeys(fieldData: FieldMap, allFieldNames: set<string>) returns (skipped: seq<string>)
    ensures skipped == Unmatched(Keys(fieldData), allFieldNames)
  {
    var keys := Keys(fieldData);
    skipped := [];
    var i := 0;
    while i < |keys|
      invariant 0 <= i <= |keys|
      invariant skipped == Unmatched(keys[..i], allFieldNames)
    {
      assert keys[..i + 1][..i] == keys[..i];
      if keys[i] !in allFieldNames {
        skipped := skipped + [keys[i]];
      }
      i := i + 1;
    }
    assert keys[..i] == keys;
  }

  // ----- the appended broker-notes pages -----

  /** Note bodies are wrapped at 90 characters. */
  const BodyWidth := 90
  /** The first box starts at y = 80, under the heading. */
  const NotesStart := Cursor(0, 80)
  const NoteGap := 8

  /** `lines_needed = len(body) // 90 + 2`: an estimate from the length of
      the body, not from its wrap. */
  function LinesNeeded(body: string): nat {
    |body| / BodyWidth + 2
  }

  /** `box_height = 28 + lines_needed * 11 + 8`. */
  function BoxHeight(body: string): nat {
    28 + LinesNeeded(body) * 11 + 8
  }

  function BoxHeights(notes: seq<(string, string)>): (hs: seq<nat>)
    ensures |hs| == |notes|
  {
    if notes == [] then [] else BoxHeights(notes[..|notes| - 1]) + [BoxHeight(notes[|notes| - 1].1)]
  }

  function BodyLines(body: string): seq<string> {
    Wrap(Words(body), BodyWidth)
  }

  const NotesHeading: seq<Mark> := [Write(Draw(0, 50, 50, "BROKER NOTES — VALUATION & COVERAGE FLAGS", 14))]

  /** A note's box, its title 14 below the top and its body lines 11 apart
      from 28 below the top. */
  function NoteMarks(p: Placement, title: string, body: string): seq<Mark> {
    [Frame(p.page, 40, p.top, 572, p.top + p.height), Write(Draw(p.page, 48, p.top + 14, "⚠️ " + title, 9))] +
    LineMarks(p.page, 52, p.top + 28, 11, BodyLines(body), 8)
  }

  function AllNoteMarks(notes: seq<(string, string)>): seq<Mark> {
    if notes == [] then []
    else
      var init := notes[..|notes| - 1];
      var last := notes[|notes| - 1];
      AllNoteMarks(init) + NoteMarks(Place(EndCursor(BoxHeights(init), NotesStart, NoteGap), BoxHeight(last.1)), last.0, last.1)
  }

  /** `add_broker_notes`: the notes pages that are appended to the PDF,
      given as `(title, body)` pairs. */
  method AddBrokerNotes(notes: seq<(string, string)>) returns (pdf: NotesPdf)
    ensures pdf.pageCount == EndCursor(BoxHeights(notes), NotesStart, NoteGap).page + 1
    ensures pdf.marks == NotesHeading + AllNoteMarks(notes)
  {
    var cursor := NotesStart;
    var marks := [];
    var i := 0;
    while i < |notes|
      invariant 0 <= i <= |notes|
      invariant cursor == EndCursor(BoxHeights(notes[..i]), NotesStart, NoteGap)
      invariant marks == AllNoteMarks(notes[..i])
    {
      var (title, body) := notes[i];
      var ms;
      cursor, ms := DrawNote(cursor, title, body);
      NotesStep(notes, i);
      marks := marks + ms;
      i := i + 1;
    }
    assert notes[..i] == notes;
    pdf := NotesPdf(cursor.page + 1, NotesHeading + marks);
  }

  lemma NotesStep(notes: seq<(string, string)>, i: nat)
    requires i < |notes|
    ensures var c := EndCursor(BoxHeights(notes[..i]), NotesStart, NoteGap);
      var p := Place(c, BoxHeight(notes[i].1));
      AllNoteMarks(notes[..i + 1]) == AllNoteMarks(notes[..i]) + NoteMarks(p, notes[i].0, notes[i].1) &&
      EndCursor(BoxHeights(notes[..i + 1]), NotesStart, NoteGap) == After(p, NoteGap)
  {
    assert notes[..i + 1][..i] == notes[..i];
  }

  /** One pass of the note loop: size the box from the body length, break
      the page if needed, draw the box, the title and the wrapped body, and
      advance y. */
  method DrawNote(c: Cursor, title: string, body: string) returns (next: Cursor, ms: seq<Mark>)
    ensures ms == NoteMarks(Place(c, BoxHeight(body)), title, body)
    ensures next == After(Place(c, BoxHeight(body)), NoteGap)
  {
    var linesNeeded := |body| / 90 + 2;
    var boxHeight := 28 + linesNeeded * 11 + 8;
    var page, y := c.page, c.y;
    if y + boxHeight > BreakY {
      page := page + 1;
      y := TopY;
    }
    assert Place(c, BoxHeight(body)) == Placement(page, y, boxHeight);
    var drawn := DrawBody(page, Words(body), y + 28);
    assert drawn == LineMarks(page, 52, y + 28, 11, BodyLines(body), 8);
    ms := [Frame(page, 40, y, 572, y + boxHeight), Write(Draw(page, 48, y + 14, "⚠️ " + title, 9))] + drawn;
    next := Cursor(page, y + boxHeight + NoteGap);
  }

  /** The body loop, which wraps and draws in one pass: a line is drawn
      when the next word does not fit, and the last line after the loop. */
  method DrawBody(page: nat, words: seq<string>, ty0: int) returns (ms: seq<Mark>)
    ensures ms == LineMarks(page, 52, ty0, 11, Wrap(words, BodyWidth), 8)
  {
    ms := [];
    ghost var closed: seq<string> := [];
    var line := "";
    var ty := ty0;
    var i := 0;
    while i < |words|
      invariant 0 <= i <= |words|
      invariant WrapState(closed, line) == Consume(words[..i], BodyWidth)
      invariant ms == LineMarks(page, 52, ty0, 11, closed, 8)
      invariant ty == ty0 + 11 * |closed|
    {
      var w := words[i];
      var test := if line != "" then line + " " + w else w;
      if |test| > 90 {
        assert (closed + [line])[..|closed|] == closed;
        ms := ms + [Write(Draw(page, 52, ty, line, 8))];
        closed := closed + [line];
        ty := ty + 11;
        line := w;
      } else {
        line := test;
      }
      assert words[..i + 1][..i] == words[..i];
      i := i + 1;
    }
    assert words[..i] == words;
    if line != "" {
      assert (closed + [line])[..|closed|] == closed;
      ms := ms + [Write(Draw(page, 52, ty, line, 8))];
    }
  }

  /** The box is sized from the body's length, so the wrapped body fits
      inside it exactly when it has at most `len(body) // 90 + 3` lines; a
      body of long words can wrap into more lines than that, and its last
      lines are then drawn below the box. */
  lemma BodyFitsIff(p: Placement, body: string)
    requires p.height == BoxHeight(body)
    ensures (forall k :: 0 <= k < |BodyLines(body)| ==> p.top + 28 + 11 * k <= p.top + p.height) <==>
      |BodyLines(body)| <= LinesNeeded(body) + 1
  {
    var n := |BodyLines(body)|;
    if n > LinesNeeded(body) + 1 {
      assert p.top + 28 + 11 * (n - 1) > p.top + p.height;
    }
  }
}
