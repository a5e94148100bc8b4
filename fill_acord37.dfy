/** The ACORD 37 (statement of no loss) filler: its field tables and the call into the
    shared page-0 loop. */
module FillAcord37 {
  import opened Wrappers
  import opened Json
  import opened FieldMap
  import opened Document
  import opened FirstPageFill

  /** Text widgets of page 0 and the data keys that fill them. */
  const TextFields: FieldTable := [
    ("F[0].P1[0].Text1[0]", "agency_name"),
    ("F[0].P1[0].Text2[0]", "agency_address_1"),
    ("F[0].P1[0].Text3[0]", "agency_address_2"),
    ("F[0].P1[0].Text4[0]", "agency_code"),
    ("F[0].P1[0].Text5[0]", "agency_subcode"),
    ("F[0].P1[0].Text7[0]", "contact_name"),
    ("F[0].P1[0].Text8[0]", "phone"),
    ("F[0].P1[0].Text9[0]", "fax"),
    ("F[0].P1[0].Text10[0]", "email"),
    ("F[0].P1[0].Text13[0]", "agency_customer_id"),
    ("F[0].P1[0].Text14[0]", "insured_name"),
    ("F[0].P1[0].Text15[0]", "insured_name_2"),
    ("F[0].P1[0].Text16[0]", "insured_address"),
    ("F[0].P1[0].Text17[0]", "insured_address_2"),
    ("F[0].P1[0].Text18[0]", "carrier"),
    ("F[0].P1[0].Text19[0]", "naic_code"),
    ("F[0].P1[0].Text20[0]", "policy_number"),
    ("F[0].P1[0].Text21[0]", "approved_by"),
    ("F[0].P1[0].Text22[0]", "from_date"),
    ("F[0].P1[0].Text23[0]", "to_date"),
    ("F[0].P1[0].Text24[0]", "cancellation_date"),
    ("F[0].P1[0].Text25[0]", "applicant_name"),
    ("F[0].P1[0].Text26[0]", "receipt_amount"),
    ("F[0].P1[0].Text27[0]", "received_by"),
    ("F[0].P1[0].Text28[0]", "witness"),
    ("F[0].P1[0].Text29[0]", "witness_date"),
    ("F[0].P1[0].Text30[0]", "receipt_date")
  ]

  /** The ACORD 37 loop has no checkbox branch, which is the shared loop
      with an empty checkbox table. */
  const CheckboxFields: FieldTable := []

  /** `fill_acord37`: returns `fields_filled` and the single image page.
      The OCR pass is not part of this model. */
  method Fill(doc: Pdf, data: Json) returns (r: Result<(nat, ImagePage), string>)
    modifies doc
    ensures r.Success? <==> |old(doc.pages)| > 0
    ensures r.Failure? ==> doc.pages == old(doc.pages)
    ensures r.Success? ==>
      var page := old(doc.pages[0]);
      doc.pages == old(doc.pages)[0 := page.(widgets := FillAll(page.widgets, data, TextFields, []))] &&
      r.value.0 == TextCount(page.widgets, data, TextFields) &&
      r.value.1 == ImagePage(page.width, page.height, FillAll(page.widgets, data, TextFields, []))
  {
    var c := FillCertificate(doc, data, TextFields, CheckboxFields, None);
    if c.Failure? {
      return Failure(c.error);
    }
    NoCheckboxTable(old(doc.pages[0]).widgets, data, TextFields);
    r := Success((c.value.counts.textFields, c.value.page));
  }
}
