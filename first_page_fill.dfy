/** The single-page certificate fillers (ACORD 24, 25 and 37) share one
    loop: over the widgets of page 0 only, a widget named in the text table
    takes `str(value)` when its data value is truthy, a widget named only in
    the checkbox table is ticked when its data value is truthy, and two
    counters record what was set. The filled page is then flattened to one
    image page, and a signature image may be placed centred under it. */
module FirstPageFill {
  import opened Wrappers
  import opened Json
  import opened FieldMap
  import opened Document

  /** `data.get(key, "")` for a text field. */
  function TextValue(data: Json, key: string): Json {
    GetOr(data, key, JStr(""))
  }

  /** A text widget is set when its name is in the text table and the data
      value is truthy. */
  predicate SetsText(w: Widget, data: Json, textMap: FieldTable) {
    DictGet(textMap, w.name).Some? && Truthy(TextValue(data, DictGet(textMap, w.name).value))
  }

  /** A checkbox is ticked when its name is in the checkbox table but not in
      the text table (the text table is consulted first) and `data.get(key)`
      is truthy. */
  predicate SetsCheck(w: Widget, data: Json, textMap: FieldTable, checkMap: FieldTable) {
    DictGet(textMap, w.name).None? && DictGet(checkMap, w.name).Some? &&
    Truthy(Get(data, DictGet(checkMap, w.name).value))
  }

  /** One widget after the loop. */
  function FillWidget(w: Widget, data: Json, textMap: FieldTable, checkMap: FieldTable): Widget {
    if SetsText(w, data, textMap) then w.(value := Text(PyStr(TextValue(data, DictGet(textMap, w.name).value))))
    else if SetsCheck(w, data, textMap, checkMap) then w.(value := Checked(true))
    else w
  }

  function FillAll(ws: seq<Widget>, data: Json, textMap: FieldTable, checkMap: FieldTable): (r: seq<Widget>)
    ensures |r| == |ws|
  {
    seq(|ws|, i requires 0 <= i < |ws| => FillWidget(ws[i], data, textMap, checkMap))
  }

  /** `filled_t`: the widgets given a text value. */
  function TextCount(ws: seq<Widget>, data: Json, textMap: FieldTable): nat {
    if ws == [] then 0
    else TextCount(ws[..|ws| - 1], data, textMap) + (if SetsText(ws[|ws| - 1], data, textMap) then 1 else 0)
  }

  /** `filled_c`: the widgets ticked. */
  function CheckCount(ws: seq<Widget>, data: Json, textMap: FieldTable, checkMap: FieldTable): nat {
    if ws == [] then 0
    else CheckCount(ws[..|ws| - 1], data, textMap, checkMap) + (if SetsCheck(ws[|ws| - 1], data, textMap, checkMap) then 1 else 0)
  }

  /** The two counters. */
  datatype Counts = Counts(textFields: nat, checkboxes: nat)

  /** The widget loop over page 0. A document without a page 0 is an error
      (`doc[0]` raises). Pages after the first are never looked at. */
  method FillFirstPage(doc: Pdf, data: Json, textMap: FieldTable, checkMap: FieldTable) returns (r: Result<Counts, string>)
    modifies doc
    ensures |old(doc.pages)| == 0 <==> r.Failure?
    ensures r.Failure? ==> doc.pages == old(doc.pages)
    ensures r.Success? ==>
      var page := old(doc.pages[0]);
      doc.pages == old(doc.pages)[0 := page.(widgets := FillAll(page.widgets, data, textMap, checkMap))] &&
      r.value.textFields == TextCount(page.widgets, data, textMap) &&
      r.value.checkboxes == CheckCount(page.widgets, data, textMap, checkMap)
  {
    if |doc.pages| == 0 {
      return Failure("document has no page 0");
    }
    var page := doc.pages[0];
    var ws, filledT, filledC := FillWidgets(page.widgets, data, textMap, checkMap);
    doc.pages := doc.pages[0 := page.(widgets := ws)];
    r := Success(Counts(filledT, filledC));
  }

  /** `for widget in doc[0].widgets()`, updating each widget in turn. */
  method FillWidgets(widgets: seq<Widget>, data: Json, textMap: FieldTable, checkMap: FieldTable)
    returns (ws: seq<Widget>, filledT: nat, filledC: nat)
    ensures ws == FillAll(widgets, data, textMap, checkMap)
    ensures filledT == TextCount(widgets, data, textMap)
    ensures filledC == CheckCount(widgets, data, textMap, checkMap)
  {
    ws, filledT, filledC := widgets, 0, 0;
    var i := 0;
    while i < |ws|
      invariant |ws| == |widgets| && 0 <= i <= |ws|
      invariant forall j :: 0 <= j < i ==> ws[j] == FillWidget(widgets[j], data, textMap, checkMap)
      invariant forall j :: i <= j < |ws| ==> ws[j] == widgets[j]
      invariant filledT == TextCount(widgets[..i], data, textMap)
      invariant filledC == CheckCount(widgets[..i], data, textMap, checkMap)
    {
      var w, t, c := FillOne(ws[i], data, textMap, checkMap);
      ws := ws[i := w];
      filledT, filledC := filledT + t, filledC + c;
      assert widgets[..i + 1][..i] == widgets[..i];
      i := i + 1;
    }
    assert widgets[..i] == widgets;
    assert ws == FillAll(widgets, data, textMap, checkMap);
  }

  /** The body of the widget loop: the text table first, then the
      checkbox table; returns the widget and what it adds to each counter. */
  method FillOne(w: Widget, data: Json, textMap: FieldTable, checkMap: FieldTable)
    returns (filled: Widget, t: nat, c: nat)
    ensures filled == FillWidget(w, data, textMap, checkMap)
    ensures t == (if SetsText(w, data, textMap) then 1 else 0)
    ensures c == (if SetsCheck(w, data, textMap, checkMap) then 1 else 0)
  {
    filled, t, c := w, 0, 0;
    var fieldKey := DictGet(textMap, w.name);
    if fieldKey.Some? {
      var value := TextValue(data, fieldKey.value);
      if Truthy(value) {
        filled, t := w.(value := Text(PyStr(value))), 1;
      }
    } else {
      var checkKey := DictGet(checkMap, w.name);
      if checkKey.Some? {
        if Truthy(Get(data, checkKey.value)) {
          filled, c := w.(value := Checked(true)), 1;
        }
      }
    }
  }

  /** A widget named in neither table is never changed, and a widget is
      changed only into a text value or a ticked box. */
  lemma FillWidgetUntouched(w: Widget, data: Json, textMap: FieldTable, checkMap: FieldTable)
    ensures DictGet(textMap, w.name).None? && DictGet(checkMap, w.name).None? ==>
      FillWidget(w, data, textMap, checkMap) == w
    ensures FillWidget(w, data, textMap, checkMap).name == w.name
    ensures FillWidget(w, data, textMap, checkMap) != w ==>
      SetsText(w, data, textMap) || SetsCheck(w, data, textMap, checkMap)
  {
  }

  /** No widget is counted twice: the two counters together never exceed
      the number of widgets on page 0. */
  lemma {:induction false} CountsBound(ws: seq<Widget>, data: Json, textMap: FieldTable, checkMap: FieldTable)
    ensures TextCount(ws, data, textMap) + CheckCount(ws, data, textMap, checkMap) <= |ws|
  {
    if ws != [] {
      CountsBound(ws[..|ws| - 1], data, textMap, checkMap);
    }
  }

  /** With no checkbox table (the ACORD 37 loop) nothing is ticked. */
  lemma {:induction false} NoCheckboxTable(ws: seq<Widget>, data: Json, textMap: FieldTable)
    ensures CheckCount(ws, data, textMap, []) == 0
    ensures forall i :: 0 <= i < |ws| ==> !FillWidget(ws[i], data, textMap, []).value.Checked? || ws[i].value.Checked?
  {
    if ws != [] {
      NoCheckboxTable(ws[..|ws| - 1], data, textMap);
    }
  }

  /** The single image page of the flattened certificate. */
  function FlatFirstPage(page: Page): (r: ImagePage)
    ensures r.width == page.width && r.height == page.height && r.shows == page.widgets
  {
    Render(page)
  }

  /** Where the signature image goes: `(x0, y0, x1, y1)`. */
  datatype Rect = Rect(x0: int, y0: int, x1: int, y1: int)

  const SigHeight := 22
  const SigTop := 721
  /** The signature line spans x = 310 to x = 590. */
  const SigLeft := 310
  const SigSpan := 280

  /** `sig_x = 310 + (280 - sig_w) // 2`; Python's `//` floors, as Dafny's
      `/` does for a positive divisor. */
  function SignatureRect(sigW: nat): (r: Rect)
    ensures r.y0 == SigTop && r.y1 - r.y0 == SigHeight
    ensures r.x1 - r.x0 == sigW
  {
    var sigX := SigLeft + (SigSpan - sigW) / 2;
    Rect(sigX, SigTop, sigX + sigW, SigTop + SigHeight)
  }

  /** A signature no wider than the line sits inside it, with margins that
      differ by at most one point, the right one never the smaller. A wider
      one starts left of the line and ends at or beyond its right end. */
  lemma SignatureCentred(sigW: nat)
    ensures var r := SignatureRect(sigW);
      var leftMargin := r.x0 - SigLeft;
      var rightMargin := SigLeft + SigSpan - r.x1;
      0 <= rightMargin - leftMargin <= 1 &&
      (sigW <= SigSpan ==> 0 <= leftMargin && 0 <= rightMargin) &&
      (sigW > SigSpan ==> leftMargin < 0 && rightMargin <= 0)
  {
  }

  /** A filled, flattened certificate: the counters, the single image page
      and, when a signature image was given, where it was placed. */
  datatype Certificate = Certificate(counts: Counts, page: ImagePage, signature: Option<Rect>)

  /** Fill page 0, flatten it to one image page of the same size, and place
      the signature (given by its width at height 22) when there is one. */
  method FillCertificate(doc: Pdf, data: Json, textMap: FieldTable, checkMap: FieldTable, signatureWidth: Option<nat>)
    returns (r: Result<Certificate, string>)
    modifies doc
    ensures r.Success? <==> |old(doc.pages)| > 0
    ensures r.Failure? ==> doc.pages == old(doc.pages)
    ensures r.Success? ==>
      var page := old(doc.pages[0]);
      doc.pages == old(doc.pages)[0 := page.(widgets := FillAll(page.widgets, data, textMap, checkMap))] &&
      r.value.counts == Counts(TextCount(page.widgets, data, textMap), CheckCount(page.widgets, data, textMap, checkMap)) &&
      r.value.page == ImagePage(page.width, page.height, FillAll(page.widgets, data, textMap, checkMap)) &&
      r.value.signature == (if signatureWidth.Some? then Some(SignatureRect(signatureWidth.value)) else None)
  {
    var filled := FillFirstPage(doc, data, textMap, checkMap);
    if filled.Failure? {
      return Failure(filled.error);
    }
    var image := FlatFirstPage(doc.pages[0]);
    var signature := None;
    if signatureWidth.Some? {
      signature := Some(SignatureRect(signatureWidth.value));
    }
    r := Success(Certificate(filled.value, image, signature));
  }
}
