/** The ACORD 24 (certificate of property insurance) filler: its field tables and the call into the
    shared page-0 loop. */
module FillAcord24 {
  import opened Wrappers
  import opened Json
  import opened FieldMap
  import opened Document
  import opened FirstPageFill

  /** Text widgets of page 0 and the data keys that fill them. */
  const TextFields: FieldTable := [
    ("Form_CompletionDate_A", "date"),
    ("Producer_FullName_A", "agency_name"),
    ("Producer_MailingAddress_LineOne_A", "agency_address_1"),
    ("Producer_MailingAddress_LineTwo_A", "agency_address_2"),
    ("Producer_MailingAddress_CityName_A", "agency_city"),
    ("Producer_MailingAddress_StateOrProvinceCode_A", "agency_state"),
    ("Producer_MailingAddress_PostalCode_A", "agency_zip"),
    ("Producer_ContactPerson_FullName_A", "contact_name"),
    ("Producer_ContactPerson_PhoneNumber_A", "phone"),
    ("Producer_FaxNumber_A", "fax"),
    ("Producer_ContactPerson_EmailAddress_A", "email"),
    ("NamedInsured_FullName_A", "insured_name"),
    ("NamedInsured_MailingAddress_LineOne_A", "insured_address_1"),
    ("NamedInsured_MailingAddress_LineTwo_A", "insured_address_2"),
    ("NamedInsured_MailingAddress_CityName_A", "insured_city"),
    ("NamedInsured_MailingAddress_StateOrProvinceCode_A", "insured_state"),
    ("NamedInsured_MailingAddress_PostalCode_A", "insured_zip"),
    ("Insurer_FullName_A", "insurer_a"),
    ("Insurer_NAICCode_A", "naic_a"),
    ("Insurer_FullName_B", "insurer_b"),
    ("Insurer_NAICCode_B", "naic_b"),
    ("Property_InsurerLetterCode_A", "prop_insurer_letter"),
    ("Policy_Property_PolicyNumberIdentifier_A", "prop_policy_number"),
    ("Policy_Property_EffectiveDate_A", "prop_eff_date"),
    ("Policy_Property_ExpirationDate_A", "prop_exp_date"),
    ("CommercialProperty_Premises_DeductibleAmount_A", "prop_deductible"),
    ("Property_Building_LimitAmount_A", "prop_building_limit"),
    ("Property_PersonalProperty_LimitAmount_A", "prop_bpp_limit"),
    ("CommercialPropertyCoverage_BusinessIncome_LimitAmount_A", "prop_bi_limit"),
    ("CommercialPropertyCoverage_ExtraExpense_LimitAmount_A", "prop_ee_limit"),
    ("CommercialPropertyCoverage_RentalValue_LimitAmount_A", "prop_rental_limit"),
    ("CertificateOfLiabilityInsurance_ACORDForm_RemarkText_A", "location_description"),
    ("CertificateOfLiabilityInsurance_ACORDForm_RemarkText_B", "remarks"),
    ("CertificateHolder_FullName_A", "holder_name"),
    ("CertificateHolder_MailingAddress_LineOne_A", "holder_address_1"),
    ("CertificateHolder_MailingAddress_LineTwo_A", "holder_address_2"),
    ("CertificateHolder_MailingAddress_CityName_A", "holder_city"),
    ("CertificateHolder_MailingAddress_StateOrProvinceCode_A", "holder_state"),
    ("CertificateHolder_MailingAddress_PostalCode_A", "holder_zip")
  ]

  /** Checkbox widgets of page 0 and the data keys that tick them. */
  const CheckboxFields: FieldTable := [
    ("Policy_PolicyType_PropertyIndicator_A", "type_property"),
    ("Policy_PolicyType_BasicIndicator_A", "cause_basic"),
    ("Policy_PolicyType_BroadIndicator_A", "cause_broad"),
    ("Policy_PolicyType_SpecialIndicator_A", "cause_special"),
    ("CommercialPropertyCoverage_EarthquakeOption_IncludedIndicator_A", "cause_earthquake"),
    ("Policy_PolicyType_WindIndicator_A", "cause_wind"),
    ("CommercialPropertyCoverage_Flood_YesIndicator_A", "cause_flood"),
    ("Property_Building_CoverageIndicator_A", "cov_building"),
    ("Property_PersonalProperty_CoverageIndicator_A", "cov_bpp"),
    ("CommercialPropertyCoverage_BusinessIncomeOption_IncludedIndicator_A", "cov_bi"),
    ("CommercialPropertyCoverage_ExtraExpenseOption_IncludedIndicator_A", "cov_ee"),
    ("CommercialPropertyCoverage_RentalValueOption_IncludedIndicator_A", "cov_rental")
  ]

  /** `fill_acord24`: the OCR pass is not part of this model. */
  method Fill(doc: Pdf, data: Json, signatureWidth: Option<nat>) returns (r: Result<Certificate, string>)
    modifies doc
    ensures r.Success? <==> |old(doc.pages)| > 0
    ensures r.Failure? ==> doc.pages == old(doc.pages)
    ensures r.Success? ==>
      var page := old(doc.pages[0]);
      doc.pages == old(doc.pages)[0 := page.(widgets := FillAll(page.widgets, data, TextFields, CheckboxFields))] &&
      r.value.counts == Counts(TextCount(page.widgets, data, TextFields), CheckCount(page.widgets, data, TextFields, CheckboxFields)) &&
      r.value.page == ImagePage(page.width, page.height, FillAll(page.widgets, data, TextFields, CheckboxFields)) &&
      r.value.signature == (if signatureWidth.Some? then Some(SignatureRect(signatureWidth.value)) else None)
  {
    r := FillCertificate(doc, data, TextFields, CheckboxFields, signatureWidth);
  }
}
