/** `fill_acord`: the ACORD 125/140 pipeline. It builds the flat field dict
    from the configuration, fills the form's widgets and counts them, then
    either flattens the pages (optionally without the general-liability
    pages) and draws the two overlays on the third page, or keeps the
    editable form; it applies OCR when asked, and writes the broker notes to
    a separate document. */
module AcordPipeline {
  import opened Wrappers
  import opened Json
  import opened FieldMap
  import opened Document
  import opened WidgetFill
  import opened FieldData
  import opened AcordFiller
  import opened NotesLayout

  /** What the main output file holds. */
  datatype Output =
    | Flattened(images: seq<ImagePage>, draws: seq<Draw>)
    | Editable(form: seq<Page>)

  /** The dict `fill_acord` returns; `brokerNotes` is the notes document
      written when a notes path was given and there are notes. */
  datatype FillSummary = FillSummary(
    filledCount: nat, totalFields: nat, skippedFields: seq<string>,
    ocrApplied: bool, output: Output, brokerNotes: Option<NotesPdf>)

  /** The overlays are drawn on the third page of the flattened output. */
  const OverlayPage := 2

  /** `sum(1 for p in doc for _ in p.widgets())`. */
  method CountWidgets(ps: seq<Page>) returns (total: nat)
    ensures total == WidgetTotal(ps)
  {
    total := 0;
    var p := 0;
    while p < |ps|
      invariant 0 <= p <= |ps|
      invariant total == WidgetTotal(ps[..p])
    {
      var ws := ps[p].widgets;
      var i := 0;
      while i < |ws|
        invariant 0 <= i <= |ws|
        invariant total == WidgetTotal(ps[..p]) + i
      {
        total := total + 1;
        i := i + 1;
      }
      assert ps[..p + 1][..p] == ps[..p];
      p := p + 1;
    }
    assert ps[..p] == ps;
  }

  /** Filling changes no page's widget count, so the total counted after
      filling is the form's widget total. */
  lemma {:induction false} FillKeepsTotal(ps: seq<Page>, fields: FieldMap)
    ensures WidgetTotal(FillPages(ps, fields)) == WidgetTotal(ps)
  {
    if ps != [] {
      var n := |ps| - 1;
      FillKeepsTotal(ps[..n], fields);
      assert FillPages(ps, fields)[..n] == FillPages(ps[..n], fields);
    }
  }

  /** The flattened pages: every page, or with `skip_gl` the pages that
      are not general-liability pages, each rendered at its own size. */
  function FlatPages(ps: seq<Page>, skipGl: bool): (r: seq<ImagePage>)
    ensures |r| == if skipGl then |PagesToKeep(|ps|)| else |ps|
  {
    if skipGl then
      PagesToKeepMembers(|ps|);
      seq(|PagesToKeep(|ps|)|, j requires 0 <= j < |PagesToKeep(|ps|)| => Render(ps[PagesToKeep(|ps|)[j]]))
    else seq(|ps|, i requires 0 <= i < |ps| => Render(ps[i]))
  }

  /** Both overlays on the third page: the General Information answers,
      then the prior carrier's Property column. */
  function Overlays(pageCount: nat, config: Json): Result<seq<Draw>, string> {
    var yn := GeneralInfoOverlay(pageCount, config, OverlayPage);
    if yn.Failure? then yn else Success(yn.value + PriorCarrierOverlay(pageCount, config, OverlayPage))
  }

  /** The texts of the notes list. */
  function ItemTexts(items: seq<Json>): (r: Result<seq<string>, string>)
    ensures r.Success? <==> forall i :: 0 <= i < |items| ==> items[i].JStr?
    ensures r.Success? ==> |r.value| == |items| && forall i :: 0 <= i < |items| ==> r.value[i] == items[i].s
  {
    if items == [] then Success([])
    else
      var init := ItemTexts(items[..|items| - 1]);
      var last := items[|items| - 1];
      assert forall i :: 0 <= i < |items| - 1 ==> items[..|items| - 1][i] == items[i];
      if init.Failure? then init
      else if !last.JStr? then Failure("a broker note is not a string")
      else Success(init.value + [last.s])
  }

  /** `for note in notes: note.split()`: the notes of a list, the
      characters of a string, the keys of a dict; a note that is not a
      string, or a value that cannot be iterated, raises. */
  function NoteTexts(notes: Json): Result<seq<string>, string> {
    match notes
    case JArr(items) => ItemTexts(items)
    case JStr(s) => Success(seq(|s|, i requires 0 <= i < |s| => [s[i]]))
    case JObj(m) => Success(Keys(m))
    case _ => Failure("broker_notes cannot be iterated")
  }

  /** `config.get("broker_notes", [])`. */
  function BrokerNotes(config: Json): Json {
    GetOr(config, "broker_notes", JArr([]))
  }

  /** The main output: the filled form as it is, or its flattened pages
      with both overlays; an overlay that raises fails the run. */
  function OutputOf(pages: seq<Page>, config: Json, flatten: bool, skipGl: bool): Result<Output, string> {
    if !flatten then Success(Editable(pages))
    else
      var flat := FlatPages(pages, skipGl);
      var drawn := Overlays(|flat|, config);
      if drawn.Failure? then Failure(drawn.error) else Success(Flattened(flat, drawn.value))
  }

  /** The broker-notes document: written only when a notes path was given
      and the notes are truthy. */
  function NotesOutput(config: Json, notesWanted: bool): Result<Option<NotesPdf>, string> {
    var notes := BrokerNotes(config);
    if !(notesWanted && Truthy(notes)) then Success(None)
    else
      var texts := NoteTexts(notes);
      if texts.Failure? then Failure(texts.error) else Success(Some(NotesDocument(texts.value)))
  }

  /** `fill_acord`. Reading the configuration and the form, the temporary
      file and saving are left to the caller: `doc` is the opened form.
      `ocrSucceeds` is what `_apply_ocr` would answer, and `notesWanted`
      says whether a broker-notes path was given. The run fails when an
      overlay or the notes meet a value Python would raise on. */
  method FillAcord(doc: Pdf, config: Json, today: string, flatten: bool, ocr: bool, ocrSucceeds: bool,
                   notesWanted: bool, skipGl: bool)
    returns (r: Result<FillSummary, string>)
    modifies doc
    ensures doc.pages == FillPages(old(doc.pages), FieldDict(config, today))
    ensures r.Failure? <==> OutputOf(doc.pages, config, flatten, skipGl).Failure? || NotesOutput(config, notesWanted).Failure?
    ensures r.Success? ==>
      var fields := FieldDict(config, today);
      r.value.filledCount == MatchCountPages(old(doc.pages), fields) &&
      r.value.totalFields == WidgetTotal(old(doc.pages)) &&
      r.value.filledCount <= r.value.totalFields &&
      r.value.skippedFields == Unmatched(Keys(fields), AllNames(old(doc.pages))) &&
      r.value.ocrApplied == (ocr && flatten && ocrSucceeds) &&
      r.value.output == OutputOf(doc.pages, config, flatten, skipGl).value &&
      r.value.brokerNotes == NotesOutput(config, notesWanted).value
  {
    var fields := BuildFieldData(config, today);
    r := FillWith(doc, fields, config, flatten, ocr, ocrSucceeds, notesWanted, skipGl);
  }

  /** The body of `fill_acord` once the field dict is built. */
  method FillWith(doc: Pdf, fields: FieldMap, config: Json, flatten: bool, ocr: bool, ocrSucceeds: bool,
                  notesWanted: bool, skipGl: bool)
    returns (r: Result<FillSummary, string>)
    modifies doc
    ensures doc.pages == FillPages(old(doc.pages), fields)
    ensures r.Failure? <==> OutputOf(doc.pages, config, flatten, skipGl).Failure? || NotesOutput(config, notesWanted).Failure?
    ensures r.Success? ==>
      r.value.filledCount == MatchCountPages(old(doc.pages), fields) &&
      r.value.totalFields == WidgetTotal(old(doc.pages)) &&
      r.value.filledCount <= r.value.totalFields &&
      r.value.skippedFields == Unmatched(Keys(fields), AllNames(old(doc.pages))) &&
      r.value.ocrApplied == (ocr && flatten && ocrSucceeds) &&
      r.value.output == OutputOf(doc.pages, config, flatten, skipGl).value &&
      r.value.brokerNotes == NotesOutput(config, notesWanted).value
  {
    var filledCount, totalFields, skipped := FillForm(doc, fields);
    var output := WriteOutput(doc.pages, config, flatten, skipGl);
    if output.Failure? {
      return Failure(output.error);
    }
    var ocrApplied := false;
    if ocr && flatten {
      ocrApplied := ocrSucceeds;
    }
    var notes := WriteNotes(config, notesWanted);
    if notes.Failure? {
      return Failure(notes.error);
    }
    r := Success(FillSummary(filledCount, totalFields, skipped, ocrApplied, output.value, notes.value));
  }

  /** `_fill_widgets` followed by the widget count. */
  method FillForm(doc: Pdf, fields: FieldMap) returns (filledCount: nat, totalFields: nat, skipped: seq<string>)
    modifies doc
    ensures doc.pages == FillPages(old(doc.pages), fields)
    ensures filledCount == MatchCountPages(old(doc.pages), fields)
    ensures totalFields == WidgetTotal(old(doc.pages))
    ensures filledCount <= totalFields
    ensures skipped == Unmatched(Keys(fields), AllNames(old(doc.pages)))
  {
    ghost var src := doc.pages;
    filledCount, skipped := FillWidgets(doc, fields);
    totalFields := CountWidgets(doc.pages);
    FillKeepsTotal(src, fields);
    MatchCountPagesBound(src, fields);
  }

  /** The `if flatten` branch: flatten, with or without the
      general-liability pages, and draw the overlays. */
  method WriteOutput(pages: seq<Page>, config: Json, flatten: bool, skipGl: bool) returns (r: Result<Output, string>)
    ensures r == OutputOf(pages, config, flatten, skipGl)
  {
    if !flatten {
      return Success(Editable(pages));
    }
    var dst;
    if skipGl {
      dst := FlattenWithoutGl(pages);
    } else {
      dst := Flatten(pages);
    }
    assert dst == FlatPages(pages, skipGl);
    var drawn := Overlays(|dst|, config);
    if drawn.Failure? {
      return Failure(drawn.error);
    }
    r := Success(Flattened(dst, drawn.value));
  }

  /** `if broker_notes_path and notes: _create_broker_notes_pdf(...)`. */
  method WriteNotes(config: Json, notesWanted: bool) returns (r: Result<Option<NotesPdf>, string>)
    ensures r == NotesOutput(config, notesWanted)
  {
    var notes := GetOr(config, "broker_notes", JArr([]));
    if !(notesWanted && Truthy(notes)) {
      return Success(None);
    }
    var texts := NoteTexts(notes);
    if texts.Failure? {
      return Failure(texts.error);
    }
    var pdf := CreateBrokerNotes(texts.value);
    r := Success(Some(pdf));
  }
}
