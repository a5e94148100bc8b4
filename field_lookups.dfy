/** The dict `_build_field_data` returns, read field by field. Every field
    name belongs to exactly one mapping step, told apart by a few of its
    characters, and only that step writes it; so a name that neither the
    raw checkboxes nor the overrides mention holds what its own step gives
    it, and what the mapper promises about a step holds of the returned
    dict. */
module FieldLookups {
  import opened Wrappers
  import opened Json
  import opened Text
  import opened FieldMap
  import opened FieldData
  import opened FieldFacts
  import opened HistoryFacts
  import opened OverrideFacts

  // ----- which step a field belongs to -----

  /** The mapping steps before the raw checkboxes, in program order. */
  datatype Stage =
    | DirectStage | DateStage | TransactionStage | EntityStage
    | LocationStage | SectionStage | HeaderStage
    | PriorStage | LossNoneStage | LossRowStage

  /** Character `i` of `k` is `c`. */
  predicate At(k: string, i: nat, c: char) {
    i < |k| && k[i] == c
  }

  /** The step a field name belongs to. The ACORD 140 property sections
      start with `B` or `C`, its header with another letter than `A`; the
      ACORD 125 names start with `ACORD_` and are told apart by the letters
      after it. */
  function StageOf(k: string): Stage {
    if !At(k, 0, 'A') then
      if At(k, 0, 'B') || At(k, 0, 'C') then SectionStage else HeaderStage
    else if At(k, 6, 'L') then
      if At(k, 8, 'c') then LocationStage
      else if k == LossNoneKey then LossNoneStage
      else LossRowStage
    else if At(k, 6, 'P') && At(k, 7, 'r') && At(k, 8, 'i') then PriorStage
    else if At(k, 6, 'T') then
      if At(k, 18, 'D') then DateStage else TransactionStage
    else if At(k, 6, 'C') && At(k, 7, 'u') then DateStage
    else if At(k, 13, 'I') && At(k, 22, 'T') then EntityStage
    else DirectStage
  }

  /** The locations in key order. */
  function Locs(config: Json): seq<Json> {
    LocationValues(Sub(config, "locations"), LocationKeys(config))
  }

  /** The location rows: one per location, at most four. */
  function LocationRun(config: Json): Writes {
    var locs := Locs(config);
    LocationRows(locs, Min(4, |locs|))
  }

  /** The ACORD 140 sections: one per location, at most two. */
  function SectionRun(config: Json): Writes {
    var locs := Locs(config);
    SectionRows(locs, Min(2, |locs|), Section140)
  }

  /** The loss rows: one per loss, at most three. */
  function LossRun(config: Json): Writes {
    var losses := Losses(config);
    LossRows(losses, Min(3, |losses|), LossKeys)
  }

  /** The group of steps a step belongs to: 0 for the applicant, 1 for the
      property, 2 for the history. */
  function GroupOf(s: Stage): nat {
    match s
    case DirectStage | DateStage | TransactionStage | EntityStage => 0
    case LocationStage | SectionStage | HeaderStage => 1
    case PriorStage | LossNoneStage | LossRowStage => 2
  }

  /** Every assignment of a run names a field of step `s`. */
  predicate OfStage(ws: Writes, s: Stage) {
    forall j :: 0 <= j < |ws| ==> StageOf(ws[j].0) == s
  }

  /** A run of step `s` leaves the fields of every other step alone. */
  lemma OfStageMiss(ws: Writes, s: Stage, k: string)
    requires OfStage(ws, s)
    ensures StageOf(k) != s ==> LastValue(ws, k) == None
  {
    if StageOf(k) != s {
      LastValueAbsent(ws, k);
    }
  }

  // ----- the names each step writes -----

  lemma DirectLiterals0()
    ensures StageOf("ACORD_AgencyName") == DirectStage
      && StageOf("ACORD_CarrierName") == DirectStage
      && StageOf("ACORD_PolicyNumber") == DirectStage
  {
  }

  lemma DirectLiterals1()
    ensures StageOf("ACORD_Policy_EffectiveDate") == DirectStage
      && StageOf("ACORD_Policy_ExpirationDate") == DirectStage
      && StageOf("ACORD_Policy_Insured1_Name") == DirectStage
  {
  }

  lemma DirectLiterals2()
    ensures StageOf("ACORD_Policy_Insured1_MailingAddress") == DirectStage
      && StageOf("ACORD_Policy_Insured1_SIC") == DirectStage
      && StageOf("ACORD_Policy_Insured1_PhoneNumber") == DirectStage
  {
  }

  lemma DirectLiterals3()
    ensures StageOf("ACORD_Policy_Insured1_FEINSSN") == DirectStage
      && StageOf("ACORD_Policy_Insured1_Website") == DirectStage
      && StageOf("ACORD_Policy_PolicyPremium") == DirectStage
  {
  }

  lemma DirectLiterals4()
    ensures StageOf("ACORD_NAICCode") == DirectStage
      && StageOf("ACORD_NatureOfBusiness_Description") == DirectStage
      && StageOf("ACORD_ProducerContact") == DirectStage
  {
  }

  lemma DirectLiterals5()
    ensures StageOf("ACORD_ProducerPhoneNumber") == DirectStage
      && StageOf("ACORD_ProducerEmailAddress") == DirectStage
      && StageOf("ACORD_ProducerCode") == DirectStage
  {
  }

  lemma DirectNames0()
    ensures StageOf(DirectKeys[0]) == DirectStage && StageOf(DirectKeys[1]) == DirectStage && StageOf(DirectKeys[2]) == DirectStage
  {
    assert DirectKeys[0] == "ACORD_AgencyName"
      && DirectKeys[1] == "ACORD_CarrierName"
      && DirectKeys[2] == "ACORD_PolicyNumber";
    DirectLiterals0();
  }

  lemma DirectNames1()
    ensures StageOf(DirectKeys[3]) == DirectStage && StageOf(DirectKeys[4]) == DirectStage && StageOf(DirectKeys[5]) == DirectStage
  {
    assert DirectKeys[3] == "ACORD_Policy_EffectiveDate"
      && DirectKeys[4] == "ACORD_Policy_ExpirationDate"
      && DirectKeys[5] == "ACORD_Policy_Insured1_Name";
    DirectLiterals1();
  }

  lemma DirectNames2()
    ensures StageOf(DirectKeys[6]) == DirectStage && StageOf(DirectKeys[7]) == DirectStage && StageOf(DirectKeys[8]) == DirectStage
  {
    assert DirectKeys[6] == "ACORD_Policy_Insured1_MailingAddress"
      && DirectKeys[7] == "ACORD_Policy_Insured1_SIC"
      && DirectKeys[8] == "ACORD_Policy_Insured1_PhoneNumber";
    DirectLiterals2();
  }

  lemma DirectNames3()
    ensures StageOf(DirectKeys[9]) == DirectStage && StageOf(DirectKeys[10]) == DirectStage && StageOf(DirectKeys[11]) == DirectStage
  {
    assert DirectKeys[9] == "ACORD_Policy_Insured1_FEINSSN"
      && DirectKeys[10] == "ACORD_Policy_Insured1_Website"
      && DirectKeys[11] == "ACORD_Policy_PolicyPremium";
    DirectLiterals3();
  }

  lemma DirectNames4()
    ensures StageOf(DirectKeys[12]) == DirectStage && StageOf(DirectKeys[13]) == DirectStage && StageOf(DirectKeys[14]) == DirectStage
  {
    assert DirectKeys[12] == "ACORD_NAICCode"
      && DirectKeys[13] == "ACORD_NatureOfBusiness_Description"
      && DirectKeys[14] == "ACORD_ProducerContact";
    DirectLiterals4();
  }

  lemma DirectNames5()
    ensures StageOf(DirectKeys[15]) == DirectStage && StageOf(DirectKeys[16]) == DirectStage && StageOf(DirectKeys[17]) == DirectStage
  {
    assert DirectKeys[15] == "ACORD_ProducerPhoneNumber"
      && DirectKeys[16] == "ACORD_ProducerEmailAddress"
      && DirectKeys[17] == "ACORD_ProducerCode";
    DirectLiterals5();
  }

  /** Each direct key is a field of the direct step. */
  lemma DirectNamed(i: nat)
    requires i < |DirectKeys|
    ensures StageOf(DirectKeys[i]) == DirectStage
  {
    if i < 3 { DirectNames0(); }
    else if i < 6 { DirectNames1(); }
    else if i < 9 { DirectNames2(); }
    else if i < 12 { DirectNames3(); }
    else if i < 15 { DirectNames4(); }
    else { DirectNames5(); }
  }

  lemma DirectOwn(config: Json, k: string)
    ensures StageOf(k) != DirectStage ==> LastValue(DirectWrites(config, DirectKeys), k) == None
  {
    DirectCopies(config, DirectKeys, k);
    if k in DirectKeys {
      var i :| 0 <= i < |DirectKeys| && DirectKeys[i] == k;
      DirectNamed(i);
    }
  }

  lemma DateLiterals()
    ensures StageOf("ACORD_CurrentDate") == DateStage && StageOf("ACORD_Transaction_Date") == DateStage
  {
  }

  lemma DateOwn(config: Json, today: string)
    ensures OfStage(DateWrites(config, today), DateStage)
  {
    DateLiterals();
  }

  lemma TransactionLiterals0()
    ensures StageOf("ACORD_Transaction_Quote") == TransactionStage
      && StageOf("ACORD_Transaction_Bound") == TransactionStage
      && StageOf("ACORD_Transaction_Renew") == TransactionStage
  {
  }

  lemma TransactionLiterals1()
    ensures StageOf("ACORD_Transaction_Cancel") == TransactionStage
      && StageOf("ACORD_Transaction_Change") == TransactionStage
      && StageOf("ACORD_Transaction_IssuePolicy") == TransactionStage
  {
  }

  lemma TransactionOwn(config: Json)
    ensures OfStage(TransactionWrites(config), TransactionStage)
  {
    TransactionLiterals0();
    TransactionLiterals1();
  }

  lemma EntityLiterals0()
    ensures StageOf("ACORD_Policy_Insured1_Type_LLC") == EntityStage
      && StageOf("ACORD_Policy_Insured1_Type_Corporation") == EntityStage
  {
  }

  lemma EntityLiterals1()
    ensures StageOf("ACORD_Policy_Insured1_Type_Partnership") == EntityStage
      && StageOf("ACORD_Policy_Insured1_Type_Individual") == EntityStage
  {
  }

  lemma EntityLiterals2()
    ensures StageOf("ACORD_Policy_Insured1_Type_SCorp") == EntityStage
      && StageOf("ACORD_Policy_Insured1_Type_Trust") == EntityStage
      && StageOf("ACORD_Policy_Insured1_Type_JointVenture") == EntityStage
  {
  }

  lemma EntityOwn(config: Json)
    ensures OfStage(EntityWrites(config), EntityStage)
  {
    EntityLiterals0();
    EntityLiterals1();
    EntityLiterals2();
  }

  /** Every name starting with a location's prefix is a location field. */
  lemma LocationName(k: string, n: nat)
    requires HasPrefix(k, LocationPrefix(n))
    ensures StageOf(k) == LocationStage
  {
    var p := LocationPrefix(n);
    assert p[0] == 'A' && p[6] == 'L' && p[8] == 'c';
    assert k[..|p|] == p;
    assert k[0] == p[0] && k[6] == p[6] && k[8] == p[8];
  }

  lemma LocationsOwn(locs: seq<Json>, count: nat)
    requires count <= |locs|
    ensures OfStage(LocationRows(locs, count), LocationStage)
  {
    LocationCap(locs, count);
    RowsStage(LocationRows(locs, count), count);
  }

  lemma RowsStage(ws: Writes, count: nat)
    requires RowsWithin(ws, count)
    ensures OfStage(ws, LocationStage)
  {
    forall j | 0 <= j < |ws| ensures StageOf(ws[j].0) == LocationStage {
      var n := InRowsAt(ws[j].0, count);
      LocationName(ws[j].0, n);
    }
  }

  /** A name starting with `B` or `C`: a field of the ACORD 140 sections. */
  predicate SectionInitial(k: string) {
    |k| > 0 && (k[0] == 'B' || k[0] == 'C')
  }

  lemma SectionName(x: string, tag: string)
    requires SectionInitial(x)
    ensures SectionInitial(x + tag)
  {
    assert (x + tag)[0] == x[0];
  }

  /** Every name a run assigns starts with `B` or `C`. */
  predicate Initialed(ws: Writes) {
    forall j :: 0 <= j < |ws| ==> SectionInitial(ws[j].0)
  }

  /** A run whose names all start with `B` or `C` belongs to the ACORD 140
      sections. */
  lemma InitialedOwn(ws: Writes)
    requires Initialed(ws)
    ensures OfStage(ws, SectionStage)
  {
  }

  lemma InitialedAppend(a: Writes, b: Writes)
    requires Initialed(a) && Initialed(b)
    ensures Initialed(a + b)
  {
  }

  lemma InitialedJoin(ws: Writes, a: Writes, b: Writes)
    requires ws == a + b && Initialed(a) && Initialed(b)
    ensures Initialed(ws)
  {
  }

  /** Every stem of a rule table starts with `B` or `C`. */
  predicate SectionStems(rules: seq<Rule>) {
    forall j :: 0 <= j < |rules| ==> SectionInitial(rules[j].stem)
  }

  /** The shared prefixes of the ACORD 140 names start with `C`. */
  lemma SectionPrefixes()
    ensures SectionInitial(Structure) && SectionInitial(Premises) && SectionInitial(PropertyCoverage)
  {
  }

  lemma ConstructionStems()
    ensures SectionStems(ConstructionFields)
  {
    SectionPrefixes();
    SectionName(Structure, "BuiltYear_");
    assert ConstructionFields[1].stem == Structure + "BuiltYear_";
  }

  lemma CoverageStems()
    ensures SectionStems(CoverageFields)
  {
    SectionPrefixes();
    SectionName(Premises, "LimitAmount_");
    SectionName(Premises, "CoinsurancePercent_");
    SectionName(Premises, "ValuationCode_");
    SectionName(Premises, "CauseOfLossCode_");
    SectionName(Premises, "DeductibleAmount_");
    SectionName(Premises, "DeductibleTypeCode_");
    SectionName(Premises, "SubjectOfInsuranceCode_");
  }

  lemma IdentificationStems(i: nat)
    ensures SectionStems(IdentificationFields(i))
  {
    SectionPrefixes();
    forall x: string ensures SectionInitial(Structure + x) {
      SectionName(Structure, x);
    }
  }

  lemma SectionRulesOwn(obj: Json, rules: seq<Rule>, tag: string)
    requires SectionStems(rules)
    ensures Initialed(RuleWrites(obj, rules, tag))
  {
    var ws := RuleWrites(obj, rules, tag);
    RuleKeys(obj, rules, tag);
    forall j | 0 <= j < |ws| ensures SectionInitial(ws[j].0) {
      assert ws[j] in ws;
      var i :| 0 <= i < |rules| && ws[j].0 == rules[i].stem + tag;
      SectionName(rules[i].stem, tag);
    }
  }

  lemma {:induction false} ExposuresOwn(exposures: Json, suffix: string, dirs: seq<(string, string)>)
    ensures Initialed(ExposureWrites(exposures, suffix, dirs))
  {
    if dirs != [] {
      var n := |dirs| - 1;
      var cap := dirs[n].1;
      ExposuresOwn(exposures, suffix, dirs[..n]);
      assert ("BuildingExposure_" + cap + "Description_")[0] == 'B';
      assert ("BuildingExposure_" + cap + "Distance_")[0] == 'B';
      SectionName("BuildingExposure_" + cap + "Description_", suffix);
      SectionName("BuildingExposure_" + cap + "Distance_", suffix);
    }
  }

  lemma OfStageAppend(a: Writes, b: Writes, s: Stage)
    requires OfStage(a, s) && OfStage(b, s)
    ensures OfStage(a + b, s)
  {
  }

  /** The rule tables of a layout name ACORD 140 section fields only. */
  predicate SectionLayoutStems(layout: SectionLayout) {
    SectionStems(layout.construction) && SectionStems(layout.coverage)
  }

  lemma Section140Stems()
    ensures SectionLayoutStems(Section140)
  {
    ConstructionStems();
    CoverageStems();
  }

  lemma OfStageJoin(ws: Writes, a: Writes, b: Writes, s: Stage)
    requires ws == a + b && OfStage(a, s) && OfStage(b, s)
    ensures OfStage(ws, s)
  {
  }

  lemma SectionHeadOwn(i: nat, loc: Json, layout: SectionLayout)
    requires SectionLayoutStems(layout)
    ensures Initialed(SectionHeadWrites(i, loc, layout))
  {
    var suffix := SectionSuffix(i);
    IdentificationStems(i);
    SectionRulesOwn(loc, IdentificationFields(i), suffix);
    SectionRulesOwn(loc, layout.construction, suffix);
    InitialedAppend(RuleWrites(loc, IdentificationFields(i), suffix), RuleWrites(loc, layout.construction, suffix));
  }

  lemma SectionTailOwn(i: nat, loc: Json, layout: SectionLayout)
    requires SectionLayoutStems(layout)
    ensures Initialed(SectionTailWrites(i, loc, layout))
  {
    var suffix := SectionSuffix(i);
    SectionRulesOwn(loc, layout.coverage, SectionRow(i));
    SectionPrefixes();
    SectionName(PropertyCoverage, "MineSubsidenceOption_NoIndicator_");
    SectionName(PropertyCoverage, "SinkHoleCollapse_NoIndicator_");
    SectionName(Premises, "BreakdownOrContaminationIndicator_");
    SectionName(MineSubsidenceNo, suffix);
    SectionName(SinkHoleNo, suffix);
    SectionName(Breakdown, suffix);
  }

  lemma SectionOwn(i: nat, loc: Json, layout: SectionLayout)
    requires SectionLayoutStems(layout)
    ensures Initialed(SectionWrites(i, loc, layout))
  {
    var head := SectionHeadWrites(i, loc, layout);
    var exposures := ExposureWrites(Sub(loc, "exposures"), SectionSuffix(i), layout.directions);
    var tail := SectionTailWrites(i, loc, layout);
    SectionHeadOwn(i, loc, layout);
    ExposuresOwn(Sub(loc, "exposures"), SectionSuffix(i), layout.directions);
    SectionTailOwn(i, loc, layout);
    InitialedAppend(head, exposures);
    InitialedAppend(head + exposures, tail);
  }

  lemma {:induction false} SectionsInitialed(locs: seq<Json>, count: nat, layout: SectionLayout)
    requires count <= |locs| && SectionLayoutStems(layout)
    ensures Initialed(SectionRows(locs, count, layout))
  {
    if count > 0 {
      SectionsInitialed(locs, count - 1, layout);
      SectionsInitialedStep(locs, count, layout);
    }
  }

  lemma SectionsInitialedStep(locs: seq<Json>, count: nat, layout: SectionLayout)
    requires 0 < count <= |locs| && SectionLayoutStems(layout)
    requires Initialed(SectionRows(locs, count - 1, layout))
    ensures Initialed(SectionRows(locs, count, layout))
  {
    var earlier := SectionRows(locs, count - 1, layout);
    var last := SectionWrites(count - 1, locs[count - 1], layout);
    SectionOwn(count - 1, locs[count - 1], layout);
    InitialedJoin(SectionRows(locs, count, layout), earlier, last);
  }

  lemma SectionsOwn(locs: seq<Json>, count: nat, layout: SectionLayout)
    requires count <= |locs| && SectionLayoutStems(layout)
    ensures OfStage(SectionRows(locs, count, layout), SectionStage)
  {
    SectionsInitialed(locs, count, layout);
    InitialedOwn(SectionRows(locs, count, layout));
  }

  lemma HeaderLiterals()
    ensures forall j :: 0 <= j < |HeaderFields| ==> StageOf(HeaderFields[j].stem) == HeaderStage
    ensures StageOf("Producer_FullName_A") == HeaderStage && StageOf("Form_CompletionDate_A") == HeaderStage
  {
  }

  lemma HeaderRulesOwn(config: Json)
    ensures OfStage(RuleWrites(config, HeaderFields, ""), HeaderStage)
  {
    var ws := RuleWrites(config, HeaderFields, "");
    HeaderLiterals();
    RuleKeys(config, HeaderFields, "");
    forall i | 0 <= i < |ws| ensures StageOf(ws[i].0) == HeaderStage {
      assert ws[i] in ws;
      var j :| 0 <= j < |HeaderFields| && ws[i].0 == HeaderFields[j].stem + "";
      assert HeaderFields[j].stem + "" == HeaderFields[j].stem;
    }
  }

  lemma HeaderTailOwn(agency: string, date: Json)
    ensures OfStage([("Producer_FullName_A", JStr(agency)), ("Form_CompletionDate_A", date)], HeaderStage)
  {
    HeaderLiterals();
  }

  lemma HeaderOwn(config: Json, today: string, hasLocations: bool)
    ensures OfStage(HeaderWrites(config, today, hasLocations), HeaderStage)
  {
    if hasLocations {
      var agency := Split(Str(GetOr(config, "ACORD_AgencyName", JStr(""))), '\n')[0];
      var tail := [("Producer_FullName_A", JStr(agency)), ("Form_CompletionDate_A", Today(config, today))];
      HeaderRulesOwn(config);
      HeaderTailOwn(agency, Today(config, today));
      OfStageJoin(HeaderWrites(config, today, hasLocations), RuleWrites(config, HeaderFields, ""), tail, HeaderStage);
    }
  }

  lemma PriorLiterals0()
    ensures StageOf("ACORD_PriorCarrier_1_AutoCarrier") == PriorStage
      && StageOf("ACORD_PriorCarrier_1_AutoPolicyNumber") == PriorStage
      && StageOf("ACORD_PriorCarrier_1_AutoPremium") == PriorStage
  {
  }

  lemma PriorLiterals1()
    ensures StageOf("ACORD_PriorCarrier_1_AutoEffectiveDate") == PriorStage
      && StageOf("ACORD_PriorCarrier_1_AutoExpirationDate") == PriorStage
  {
  }

  lemma PriorLiterals()
    ensures forall j :: 0 <= j < |PriorFields| ==> StageOf(PriorFields[j].stem) == PriorStage
  {
    assert PriorFields[0].stem == "ACORD_PriorCarrier_1_AutoCarrier"
      && PriorFields[1].stem == "ACORD_PriorCarrier_1_AutoPolicyNumber"
      && PriorFields[2].stem == "ACORD_PriorCarrier_1_AutoPremium"
      && PriorFields[3].stem == "ACORD_PriorCarrier_1_AutoEffectiveDate"
      && PriorFields[4].stem == "ACORD_PriorCarrier_1_AutoExpirationDate";
    PriorLiterals0();
    PriorLiterals1();
  }

  lemma PriorOwn(config: Json)
    ensures OfStage(PriorWrites(config), PriorStage)
  {
    var prior := Sub(config, "prior_carrier");
    PriorLiterals();
    RuleKeys(prior, PriorFields, "");
    forall w | w in RuleWrites(prior, PriorFields, "") ensures StageOf(w.0) == PriorStage {
      var j :| 0 <= j < |PriorFields| && w.0 == PriorFields[j].stem + "";
      assert PriorFields[j].stem + "" == PriorFields[j].stem;
    }
  }

  lemma LossNoneOwn(config: Json)
    ensures OfStage(LossNoneWrites(config), LossNoneStage)
  {
    assert StageOf(LossNoneKey) == LossNoneStage;
  }

  /** Every name of a loss row, `ACORD_LossHistory_{n}_<column>`, is a
      loss-row field. */
  lemma LossRowName(n: nat, key: string)
    requires |key| >= 3
    ensures StageOf(LossPrefix(n) + key) == LossRowStage
  {
    var k := LossPrefix(n) + key;
    assert k[0] == 'A' && k[6] == 'L' && k[8] == 's';
    assert |k| > |LossNoneKey|;
  }

  lemma LossRowsOwn(losses: seq<Json>, count: nat)
    requires count <= |losses|
    ensures OfStage(LossRows(losses, count, LossKeys), LossRowStage)
  {
    LossCap(losses, count, LossKeys);
    forall w | w in LossRows(losses, count, LossKeys) ensures StageOf(w.0) == LossRowStage {
      var m, i :| 1 <= m <= count && 0 <= i < |LossKeys| && w.0 == LossPrefix(m) + LossKeys[i];
      LossRowName(m, LossKeys[i]);
    }
  }

  // ----- one step decides each field -----

  /** Neither a raw checkbox nor an override names `k`. */
  predicate Mapped(config: Json, k: string) {
    k !in Keys(Checkboxes(config)) && k !in Keys(Overrides(config))
  }

  /** Over three runs of three different steps, a field holds what the run
      of its own step gives it, and is missing when it belongs to none of
      them. */
  lemma Last3(a: Writes, b: Writes, c: Writes, sa: Stage, sb: Stage, sc: Stage, k: string)
    requires sa != sb && sa != sc && sb != sc
    requires OfStage(a, sa) && OfStage(b, sb) && OfStage(c, sc)
    ensures LastValue(a + b + c, k) ==
      if StageOf(k) == sa then LastValue(a, k)
      else if StageOf(k) == sb then LastValue(b, k)
      else if StageOf(k) == sc then LastValue(c, k)
      else None
  {
    OfStageMiss(a, sa, k);
    OfStageMiss(b, sb, k);
    OfStageMiss(c, sc, k);
    LastValueAppend(a + b, c, k);
    LastValueAppend(a, b, k);
  }

  /** The same over four runs of four different steps. */
  lemma Last4(a: Writes, b: Writes, c: Writes, d: Writes, sa: Stage, sb: Stage, sc: Stage, sd: Stage, k: string)
    requires sa != sb && sa != sc && sa != sd && sb != sc && sb != sd && sc != sd
    requires OfStage(a, sa) && OfStage(b, sb) && OfStage(c, sc) && OfStage(d, sd)
    ensures LastValue(a + b + c + d, k) ==
      if StageOf(k) == sa then LastValue(a, k)
      else if StageOf(k) == sb then LastValue(b, k)
      else if StageOf(k) == sc then LastValue(c, k)
      else if StageOf(k) == sd then LastValue(d, k)
      else None
  {
    Last3(a, b, c, sa, sb, sc, k);
    OfStageMiss(d, sd, k);
    LastValueAppend(a + b + c, d, k);
  }

  /** Within the applicant steps a field holds what its own step gives it,
      and a field of another group is left alone. */
  lemma ApplicantLast(config: Json, today: string, k: string)
    ensures LastValue(ApplicantWrites(config, today), k) ==
      match StageOf(k)
      case DirectStage => LastValue(DirectWrites(config, DirectKeys), k)
      case DateStage => LastValue(DateWrites(config, today), k)
      case TransactionStage => LastValue(TransactionWrites(config), k)
      case EntityStage => LastValue(EntityWrites(config), k)
      case _ => None
  {
    var d, t, x, e := DirectWrites(config, DirectKeys), DateWrites(config, today), TransactionWrites(config), EntityWrites(config);
    DirectOwn(config, k);
    DateOwn(config, today);
    OfStageMiss(t, DateStage, k);
    TransactionOwn(config);
    OfStageMiss(x, TransactionStage, k);
    EntityOwn(config);
    OfStageMiss(e, EntityStage, k);
    LastValueAppend(d + t + x, e, k);
    LastValueAppend(d + t, x, k);
    LastValueAppend(d, t, k);
  }

  /** Within the property steps a field holds what its own step gives it,
      and a field of another group is left alone. */
  lemma PropertyLast(config: Json, today: string, k: string)
    ensures LastValue(PropertyWrites(config, today), k) ==
      match StageOf(k)
      case LocationStage => LastValue(LocationRun(config), k)
      case SectionStage => LastValue(SectionRun(config), k)
      case HeaderStage => LastValue(HeaderWrites(config, today, LocationKeys(config) != []), k)
      case _ => None
  {
    var locs := Locs(config);
    LocationsOwn(locs, Min(4, |locs|));
    Section140Stems();
    SectionsOwn(locs, Min(2, |locs|), Section140);
    HeaderOwn(config, today, LocationKeys(config) != []);
    Last3(LocationRun(config), SectionRun(config), HeaderWrites(config, today, LocationKeys(config) != []),
      LocationStage, SectionStage, HeaderStage, k);
  }

  /** Within the history steps a field holds what its own step gives it,
      and a field of another group is left alone. */
  lemma HistoryLast(config: Json, k: string)
    ensures LastValue(HistoryWrites(config), k) ==
      match StageOf(k)
      case PriorStage => LastValue(PriorWrites(config), k)
      case LossNoneStage => LastValue(LossNoneWrites(config), k)
      case LossRowStage => LastValue(LossRun(config), k)
      case _ => None
  {
    var losses := Losses(config);
    PriorOwn(config);
    LossNoneOwn(config);
    LossRowsOwn(losses, Min(3, |losses|));
    Last3(PriorWrites(config), LossNoneWrites(config), LossRun(config), PriorStage, LossNoneStage, LossRowStage, k);
  }

  /** The applicant steps leave the fields of the other groups alone. */
  lemma ApplicantApart(config: Json, today: string, k: string)
    ensures GroupOf(StageOf(k)) != 0 ==> LastValue(ApplicantWrites(config, today), k) == None
  {
    ApplicantLast(config, today, k);
  }

  /** The property steps leave the fields of the other groups alone. */
  lemma PropertyApart(config: Json, today: string, k: string)
    ensures GroupOf(StageOf(k)) != 1 ==> LastValue(PropertyWrites(config, today), k) == None
  {
    PropertyLast(config, today, k);
  }

  /** The history steps leave the fields of the other groups alone. */
  lemma HistoryApart(config: Json, k: string)
    ensures GroupOf(StageOf(k)) != 2 ==> LastValue(HistoryWrites(config), k) == None
  {
    HistoryLast(config, k);
  }

  /** Over three runs each of which leaves alone the fields of the other
      groups, a field holds what the run of its own group gives it. */
  lemma GroupsJoin(a: Writes, p: Writes, h: Writes, g: nat, k: string)
    requires g != 0 ==> LastValue(a, k) == None
    requires g != 1 ==> LastValue(p, k) == None
    requires g != 2 ==> LastValue(h, k) == None
    ensures LastValue(a + p + h, k) == if g == 0 then LastValue(a, k) else if g == 1 then LastValue(p, k) else LastValue(h, k)
  {
    LastValueAppend(a + p, h, k);
    LastValueAppend(a, p, k);
  }

  /** A field that neither a raw checkbox nor an override names holds what
      its own group of steps assigned it last. */
  lemma GroupDecides(config: Json, today: string, k: string)
    requires Mapped(config, k)
    ensures GroupOf(StageOf(k)) == 0 ==> Lookup(FieldDict(config, today), k) == LastValue(ApplicantWrites(config, today), k)
    ensures GroupOf(StageOf(k)) == 1 ==> Lookup(FieldDict(config, today), k) == LastValue(PropertyWrites(config, today), k)
    ensures GroupOf(StageOf(k)) == 2 ==> Lookup(FieldDict(config, today), k) == LastValue(HistoryWrites(config), k)
  {
    EarlierStand(config, today, k);
    ApplicantApart(config, today, k);
    PropertyApart(config, today, k);
    HistoryApart(config, k);
    GroupsJoin(ApplicantWrites(config, today), PropertyWrites(config, today), HistoryWrites(config), GroupOf(StageOf(k)), k);
  }

  /** A field of the direct copies that neither a raw checkbox nor an override
      names holds what that step assigned it last. */
  lemma DirectDecides(config: Json, today: string, k: string)
    requires Mapped(config, k) && StageOf(k) == DirectStage
    ensures Lookup(FieldDict(config, today), k) == LastValue(DirectWrites(config, DirectKeys), k)
  {
    GroupDecides(config, today, k);
    ApplicantLast(config, today, k);
  }

  /** A field of the dates that neither a raw checkbox nor an override
      names holds what that step assigned it last. */
  lemma DateDecides(config: Json, today: string, k: string)
    requires Mapped(config, k) && StageOf(k) == DateStage
    ensures Lookup(FieldDict(config, today), k) == LastValue(DateWrites(config, today), k)
  {
    GroupDecides(config, today, k);
    ApplicantLast(config, today, k);
  }

  /** A field of the transaction boxes that neither a raw checkbox nor an override
      names holds what that step assigned it last. */
  lemma TransactionDecides(config: Json, today: string, k: string)
    requires Mapped(config, k) && StageOf(k) == TransactionStage
    ensures Lookup(FieldDict(config, today), k) == LastValue(TransactionWrites(config), k)
  {
    GroupDecides(config, today, k);
    ApplicantLast(config, today, k);
  }

  /** A field of the entity boxes that neither a raw checkbox nor an override
      names holds what that step assigned it last. */
  lemma EntityDecides(config: Json, today: string, k: string)
    requires Mapped(config, k) && StageOf(k) == EntityStage
    ensures Lookup(FieldDict(config, today), k) == LastValue(EntityWrites(config), k)
  {
    GroupDecides(config, today, k);
    ApplicantLast(config, today, k);
  }

  /** A field of the location rows that neither a raw checkbox nor an override
      names holds what that step assigned it last. */
  lemma LocationDecides(config: Json, today: string, k: string)
    requires Mapped(config, k) && StageOf(k) == LocationStage
    ensures Lookup(FieldDict(config, today), k) == LastValue(LocationRun(config), k)
  {
    GroupDecides(config, today, k);
    PropertyLast(config, today, k);
  }

  /** A field of the ACORD 140 sections that neither a raw checkbox nor an override
      names holds what that step assigned it last. */
  lemma SectionDecides(config: Json, today: string, k: string)
    requires Mapped(config, k) && StageOf(k) == SectionStage
    ensures Lookup(FieldDict(config, today), k) == LastValue(SectionRun(config), k)
  {
    GroupDecides(config, today, k);
    PropertyLast(config, today, k);
  }

  /** A field of the ACORD 140 header that neither a raw checkbox nor an override
      names holds what that step assigned it last. */
  lemma HeaderDecides(config: Json, today: string, k: string)
    requires Mapped(config, k) && StageOf(k) == HeaderStage
    ensures Lookup(FieldDict(config, today), k) == LastValue(HeaderWrites(config, today, LocationKeys(config) != []), k)
  {
    GroupDecides(config, today, k);
    PropertyLast(config, today, k);
  }

  /** A field of the prior carrier that neither a raw checkbox nor an override
      names holds what that step assigned it last. */
  lemma PriorDecides(config: Json, today: string, k: string)
    requires Mapped(config, k) && StageOf(k) == PriorStage
    ensures Lookup(FieldDict(config, today), k) == LastValue(PriorWrites(config), k)
  {
    GroupDecides(config, today, k);
    HistoryLast(config, k);
  }

  /** A field of the "no losses" box that neither a raw checkbox nor an override
      names holds what that step assigned it last. */
  lemma LossNoneDecides(config: Json, today: string, k: string)
    requires Mapped(config, k) && StageOf(k) == LossNoneStage
    ensures Lookup(FieldDict(config, today), k) == LastValue(LossNoneWrites(config), k)
  {
    GroupDecides(config, today, k);
    HistoryLast(config, k);
  }

  /** A field of the loss rows that neither a raw checkbox nor an override
      names holds what that step assigned it last. */
  lemma LossRowDecides(config: Json, today: string, k: string)
    requires Mapped(config, k) && StageOf(k) == LossRowStage
    ensures Lookup(FieldDict(config, today), k) == LastValue(LossRun(config), k)
  {
    GroupDecides(config, today, k);
    HistoryLast(config, k);
  }
}
