/** The ACORD 25 (certificate of liability insurance) filler: its field tables and the call into the
    shared page-0 loop. */
module FillAcord25 {
  import opened Wrappers
  import opened Json
  import opened FieldMap
  import opened Document
  import opened FirstPageFill

  /** Text widgets of page 0 and the data keys that fill them. */
  const TextFields: FieldTable := [
    ("F[0].P1[0].Form_CompletionDate_A[0]", "date"),
    ("F[0].P1[0].Producer_FullName_A[0]", "agency_name"),
    ("F[0].P1[0].Producer_MailingAddress_LineOne_A[0]", "agency_address_1"),
    ("F[0].P1[0].Producer_MailingAddress_LineTwo_A[0]", "agency_address_2"),
    ("F[0].P1[0].Producer_MailingAddress_CityName_A[0]", "agency_city"),
    ("F[0].P1[0].Producer_MailingAddress_StateOrProvinceCode_A[0]", "agency_state"),
    ("F[0].P1[0].Producer_MailingAddress_PostalCode_A[0]", "agency_zip"),
    ("F[0].P1[0].Producer_ContactPerson_FullName_A[0]", "contact_name"),
    ("F[0].P1[0].Producer_ContactPerson_PhoneNumber_A[0]", "phone"),
    ("F[0].P1[0].Producer_FaxNumber_A[0]", "fax"),
    ("F[0].P1[0].Producer_ContactPerson_EmailAddress_A[0]", "email"),
    ("F[0].P1[0].NamedInsured_FullName_A[0]", "insured_name"),
    ("F[0].P1[0].NamedInsured_MailingAddress_LineOne_A[0]", "insured_address_1"),
    ("F[0].P1[0].NamedInsured_MailingAddress_LineTwo_A[0]", "insured_address_2"),
    ("F[0].P1[0].NamedInsured_MailingAddress_CityName_A[0]", "insured_city"),
    ("F[0].P1[0].NamedInsured_MailingAddress_StateOrProvinceCode_A[0]", "insured_state"),
    ("F[0].P1[0].NamedInsured_MailingAddress_PostalCode_A[0]", "insured_zip"),
    ("F[0].P1[0].Insurer_FullName_A[0]", "insurer_a"),
    ("F[0].P1[0].Insurer_NAICCode_A[0]", "naic_a"),
    ("F[0].P1[0].Insurer_FullName_B[0]", "insurer_b"),
    ("F[0].P1[0].Insurer_NAICCode_B[0]", "naic_b"),
    ("F[0].P1[0].Insurer_FullName_C[0]", "insurer_c"),
    ("F[0].P1[0].Insurer_NAICCode_C[0]", "naic_c"),
    ("F[0].P1[0].GeneralLiability_InsurerLetterCode_A[0]", "gl_insurer_letter"),
    ("F[0].P1[0].Policy_GeneralLiability_PolicyNumberIdentifier_A[0]", "gl_policy_number"),
    ("F[0].P1[0].Policy_GeneralLiability_EffectiveDate_A[0]", "gl_eff_date"),
    ("F[0].P1[0].Policy_GeneralLiability_ExpirationDate_A[0]", "gl_exp_date"),
    ("F[0].P1[0].GeneralLiability_EachOccurrence_LimitAmount_A[0]", "gl_each_occurrence"),
    ("F[0].P1[0].GeneralLiability_FireDamageRentedPremises_EachOccurrenceLimitAmount_A[0]", "gl_fire_damage"),
    ("F[0].P1[0].GeneralLiability_MedicalExpense_EachPersonLimitAmount_A[0]", "gl_med_exp"),
    ("F[0].P1[0].GeneralLiability_PersonalAndAdvertisingInjury_LimitAmount_A[0]", "gl_personal_adv_injury"),
    ("F[0].P1[0].GeneralLiability_GeneralAggregate_LimitAmount_A[0]", "gl_general_agg"),
    ("F[0].P1[0].GeneralLiability_ProductsAndCompletedOperations_AggregateLimitAmount_A[0]", "gl_products_agg"),
    ("F[0].P1[0].GeneralLiability_OtherCoverageLimitDescription_A[0]", "gl_other_desc"),
    ("F[0].P1[0].GeneralLiability_OtherCoverageLimitAmount_A[0]", "gl_other_limit"),
    ("F[0].P1[0].Vehicle_InsurerLetterCode_A[0]", "auto_insurer_letter"),
    ("F[0].P1[0].Policy_AutomobileLiability_PolicyNumberIdentifier_A[0]", "auto_policy_number"),
    ("F[0].P1[0].Policy_AutomobileLiability_EffectiveDate_A[0]", "auto_eff_date"),
    ("F[0].P1[0].Policy_AutomobileLiability_ExpirationDate_A[0]", "auto_exp_date"),
    ("F[0].P1[0].Vehicle_CombinedSingleLimit_EachAccidentAmount_A[0]", "auto_combined_single"),
    ("F[0].P1[0].Vehicle_BodilyInjury_PerPersonLimitAmount_A[0]", "auto_bi_person"),
    ("F[0].P1[0].Vehicle_BodilyInjury_PerAccidentLimitAmount_A[0]", "auto_bi_accident"),
    ("F[0].P1[0].Vehicle_PropertyDamage_PerAccidentLimitAmount_A[0]", "auto_pd"),
    ("F[0].P1[0].ExcessUmbrella_InsurerLetterCode_A[0]", "umb_insurer_letter"),
    ("F[0].P1[0].Policy_ExcessLiability_PolicyNumberIdentifier_A[0]", "umb_policy_number"),
    ("F[0].P1[0].Policy_ExcessLiability_EffectiveDate_A[0]", "umb_eff_date"),
    ("F[0].P1[0].Policy_ExcessLiability_ExpirationDate_A[0]", "umb_exp_date"),
    ("F[0].P1[0].ExcessUmbrella_Umbrella_EachOccurrenceAmount_A[0]", "umb_each_occurrence"),
    ("F[0].P1[0].ExcessUmbrella_Umbrella_AggregateAmount_A[0]", "umb_aggregate"),
    ("F[0].P1[0].ExcessUmbrella_Umbrella_DeductibleOrRetentionAmount_A[0]", "umb_ded_retention"),
    ("F[0].P1[0].WorkersCompensationEmployersLiability_InsurerLetterCode_A[0]", "wc_insurer_letter"),
    ("F[0].P1[0].Policy_WorkersCompensationAndEmployersLiability_PolicyNumberIdentifier_A[0]", "wc_policy_number"),
    ("F[0].P1[0].Policy_WorkersCompensationAndEmployersLiability_EffectiveDate_A[0]", "wc_eff_date"),
    ("F[0].P1[0].Policy_WorkersCompensationAndEmployersLiability_ExpirationDate_A[0]", "wc_exp_date"),
    ("F[0].P1[0].WorkersCompensationEmployersLiability_EmployersLiability_EachAccidentLimitAmount_A[0]", "wc_each_accident"),
    ("F[0].P1[0].WorkersCompensationEmployersLiability_EmployersLiability_DiseaseEachEmployeeLimitAmount_A[0]", "wc_disease_employee"),
    ("F[0].P1[0].WorkersCompensationEmployersLiability_EmployersLiability_DiseasePolicyLimitAmount_A[0]", "wc_disease_policy"),
    ("F[0].P1[0].CertificateOfLiabilityInsurance_ACORDForm_RemarkText_A[0]", "description"),
    ("F[0].P1[0].CertificateHolder_FullName_A[0]", "holder_name"),
    ("F[0].P1[0].CertificateHolder_MailingAddress_LineOne_A[0]", "holder_address_1"),
    ("F[0].P1[0].CertificateHolder_MailingAddress_LineTwo_A[0]", "holder_address_2"),
    ("F[0].P1[0].CertificateHolder_MailingAddress_CityName_A[0]", "holder_city"),
    ("F[0].P1[0].CertificateHolder_MailingAddress_StateOrProvinceCode_A[0]", "holder_state"),
    ("F[0].P1[0].CertificateHolder_MailingAddress_PostalCode_A[0]", "holder_zip")
  ]

  /** Checkbox widgets of page 0 and the data keys that tick them. */
  const CheckboxFields: FieldTable := [
    ("F[0].P1[0].GeneralLiability_CoverageIndicator_A[0]", "gl_enabled"),
    ("F[0].P1[0].GeneralLiability_OccurrenceIndicator_A[0]", "gl_occurrence"),
    ("F[0].P1[0].GeneralLiability_ClaimsMadeIndicator_A[0]", "gl_claims_made"),
    ("F[0].P1[0].GeneralLiability_GeneralAggregate_LimitAppliesPerPolicyIndicator_A[0]", "gl_agg_per_policy"),
    ("F[0].P1[0].GeneralLiability_GeneralAggregate_LimitAppliesPerProjectIndicator_A[0]", "gl_agg_per_project"),
    ("F[0].P1[0].GeneralLiability_GeneralAggregate_LimitAppliesPerLocationIndicator_A[0]", "gl_agg_per_location"),
    ("F[0].P1[0].Vehicle_AnyAutoIndicator_A[0]", "auto_any"),
    ("F[0].P1[0].Vehicle_AllOwnedAutosIndicator_A[0]", "auto_owned"),
    ("F[0].P1[0].Vehicle_HiredAutosIndicator_A[0]", "auto_hired"),
    ("F[0].P1[0].Vehicle_ScheduledAutosIndicator_A[0]", "auto_scheduled"),
    ("F[0].P1[0].Vehicle_NonOwnedAutosIndicator_A[0]", "auto_non_owned"),
    ("F[0].P1[0].Policy_PolicyType_UmbrellaIndicator_A[0]", "umb_umbrella"),
    ("F[0].P1[0].Policy_PolicyType_ExcessIndicator_A[0]", "umb_excess"),
    ("F[0].P1[0].ExcessUmbrella_OccurrenceIndicator_A[0]", "umb_occurrence"),
    ("F[0].P1[0].ExcessUmbrella_ClaimsMadeIndicator_A[0]", "umb_claims_made"),
    ("F[0].P1[0].ExcessUmbrella_DeductibleIndicator_A[0]", "umb_deductible"),
    ("F[0].P1[0].ExcessUmbrella_RetentionIndicator_A[0]", "umb_retention"),
    ("F[0].P1[0].WorkersCompensationEmployersLiability_WorkersCompensationStatutoryLimitIndicator_A[0]", "wc_statutory")
  ]

  /** `fill_acord25`: the OCR pass is not part of this model. */
  method Fill(doc: Pdf, data: Json, signatureWidth: Option<nat>) returns (r: Result<Certificate, string>)
    modifies doc
    ensures r.Success? <==> |old(doc.pages)| > 0
    ensures r.Failure? ==> doc.pages == old(doc.pages)
    ensures r.Success? ==>
      var page := old(doc.pages[0]);
      doc.pages == old(doc.pages)[0 := page.(widgets := FillAll(page.widgets, data, TextFields, CheckboxFields))] &&
      r.value.counts == Counts(TextCount(page.widgets, data, TextFields), CheckCount(page.widgets, data, TextFields, CheckboxFields)) &&
      r.value.page == ImagePage(page.width, page.height, FillAll(page.widgets, data, TextFields, CheckboxFields)) &&
      r.value.signature == (if signatureWidth.Some? then Some(SignatureRect(signatureWidth.value)) else None)
  {
    r := FillCertificate(doc, data, TextFields, CheckboxFields, signatureWidth);
  }
}
