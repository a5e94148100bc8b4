/** `_build_field_data`: the ACORD 125/140 mapper. It turns the structured
    configuration into the flat `field name -> value` dict by assigning
    fields one by one, section after section: the direct keys, the dates,
    the transaction and entity checkboxes, up to four locations on the
    ACORD 125, up to two property sections on the ACORD 140, the ACORD 140
    header, the prior carrier, the loss history, the raw checkboxes, and
    last the overrides.

    The specification of each section is the list of its assignments
    `fields[k] = v` in program order (`Writes`); the dict is what those
    assignments leave (`PutAll`). */
module FieldData {
  import opened Wrappers
  import opened Json
  import opened Text
  import opened FieldMap

  /** Assignments `fields[k] = v`, in program order. */
  type Writes = seq<(string, Json)>

  /** The dict after performing the assignments on `m`. */
  function PutAll(m: FieldMap, ws: Writes): FieldMap {
    if ws == [] then m else Put(PutAll(m, ws[..|ws| - 1]), ws[|ws| - 1].0, ws[|ws| - 1].1)
  }

  /** The value the last assignment to `k` stores, if any. */
  function LastValue(ws: Writes, k: string): Option<Json> {
    if ws == [] then None
    else if ws[|ws| - 1].0 == k then Some(ws[|ws| - 1].1)
    else LastValue(ws[..|ws| - 1], k)
  }

  /** The keys the assignments name. */
  function WrittenKeys(ws: Writes): set<string> {
    set i | 0 <= i < |ws| :: ws[i].0
  }

  /** After a run of assignments a key holds its last assigned value, and
      keeps its old value if none was assigned. */
  lemma {:induction false} PutAllLookup(m: FieldMap, ws: Writes, k: string)
    ensures Lookup(PutAll(m, ws), k) == if LastValue(ws, k).Some? then LastValue(ws, k) else Lookup(m, k)
  {
    if ws != [] {
      PutAllLookup(m, ws[..|ws| - 1], k);
    }
  }

  lemma {:induction false} PutAllAppend(m: FieldMap, a: Writes, b: Writes)
    ensures PutAll(m, a + b) == PutAll(PutAll(m, a), b)
  {
    if b != [] {
      assert (a + b)[..|a + b| - 1] == a + b[..|b| - 1];
      PutAllAppend(m, a, b[..|b| - 1]);
    } else {
      assert a + b == a;
    }
  }

  /** The last assignment in a later run wins over an earlier run. */
  lemma {:induction false} LastValueAppend(a: Writes, b: Writes, k: string)
    ensures LastValue(a + b, k) == if LastValue(b, k).Some? then LastValue(b, k) else LastValue(a, k)
  {
    if b != [] {
      assert (a + b)[..|a + b| - 1] == a + b[..|b| - 1];
      LastValueAppend(a, b[..|b| - 1], k);
    } else {
      assert a + b == a;
    }
  }

  /** When neither the first nor the last run writes a key, the middle one
      decides it. */
  lemma MiddleDecides(a: Writes, b: Writes, c: Writes, k: string)
    requires LastValue(a, k) == None && LastValue(c, k) == None
    ensures LastValue(a + b + c, k) == LastValue(b, k)
  {
    LastValueAppend(a + b, c, k);
    LastValueAppend(a, b, k);
  }

  /** A key is assigned exactly when some assignment names it. */
  lemma {:induction false} LastValueWritten(ws: Writes, k: string)
    ensures LastValue(ws, k).Some? <==> k in WrittenKeys(ws)
    ensures LastValue(ws, k).Some? ==> (k, LastValue(ws, k).value) in ws
  {
    if ws != [] {
      var n := |ws| - 1;
      LastValueWritten(ws[..n], k);
      assert forall i :: 0 <= i < n ==> ws[..n][i] == ws[i];
      if k in WrittenKeys(ws) && ws[n].0 != k {
        var i :| 0 <= i < |ws| && ws[i].0 == k;
        assert ws[..n][i].0 == k;
      }
    }
  }

  /** The dict keeps its keys distinct, and holds exactly the assigned keys. */
  lemma {:induction false} PutAllKeys(m: FieldMap, ws: Writes)
    requires Valid(m)
    ensures Valid(PutAll(m, ws))
  {
    if ws != [] {
      var n := |ws| - 1;
      PutAllKeys(m, ws[..n]);
      PutValid(PutAll(m, ws[..n]), ws[n].0, ws[n].1);
    }
  }

  /** One more assignment. */
  lemma PutAllSnoc(m: FieldMap, ws: Writes, k: string, v: Json)
    ensures PutAll(m, ws + [(k, v)]) == Put(PutAll(m, ws), k, v)
  {
    assert (ws + [(k, v)])[..|ws|] == ws;
  }

  /** `if c: fields[k] = v`. */
  function When(c: bool, k: string, v: Json): Writes {
    if c then [(k, v)] else []
  }

  /** One conditional assignment, read at a key. */
  lemma WhenValue(c: bool, k: string, v: Json, key: string)
    ensures LastValue(When(c, k, v), key) == if c && k == key then Some(v) else None
  {
    if c {
      assert When(c, k, v)[..0] == [];
    }
  }

  /** A conditional assignment after a run, read at a key. */
  lemma WhenAfter(prev: Writes, c: bool, k: string, v: Json, key: string)
    ensures LastValue(prev + When(c, k, v), key) == if c && k == key then Some(v) else LastValue(prev, key)
  {
    LastValueAppend(prev, When(c, k, v), key);
    WhenValue(c, k, v, key);
  }

  /** `str(x)` stored as a string value. */
  function StrOf(j: Json): Json {
    JStr(PyStr(j))
  }

  const Yes := JStr("Yes")

  // ----- direct keys and dates -----

  /** The keys copied from the top level of the configuration. */
  const DirectKeys: seq<string> := [
    "ACORD_AgencyName",
    "ACORD_CarrierName",
    "ACORD_PolicyNumber",
    "ACORD_Policy_EffectiveDate",
    "ACORD_Policy_ExpirationDate",
    "ACORD_Policy_Insured1_Name",
    "ACORD_Policy_Insured1_MailingAddress",
    "ACORD_Policy_Insured1_SIC",
    "ACORD_Policy_Insured1_PhoneNumber",
    "ACORD_Policy_Insured1_FEINSSN",
    "ACORD_Policy_Insured1_Website",
    "ACORD_Policy_PolicyPremium",
    "ACORD_NAICCode",
    "ACORD_NatureOfBusiness_Description",
    "ACORD_ProducerContact",
    "ACORD_ProducerPhoneNumber",
    "ACORD_ProducerEmailAddress",
    "ACORD_ProducerCode"
  ]

  /** `for key in keys: if key in config: fields[key] = str(config[key])`. */
  function DirectWrites(config: Json, keys: seq<string>): Writes {
    if keys == [] then []
    else
      var key := keys[|keys| - 1];
      DirectWrites(config, keys[..|keys| - 1]) + When(Has(config, key), key, StrOf(Get(config, key)))
  }

  /** A direct key ends up holding `str` of its value exactly when the
      configuration has it. */
  lemma {:induction false} DirectCopies(config: Json, keys: seq<string>, k: string)
    ensures LastValue(DirectWrites(config, keys), k) == if k in keys && Has(config, k) then Some(StrOf(Get(config, k))) else None
  {
    if keys != [] {
      var n := |keys| - 1;
      var key := keys[n];
      DirectCopies(config, keys[..n], k);
      WhenAfter(DirectWrites(config, keys[..n]), Has(config, key), key, StrOf(Get(config, key)), k);
      assert k in keys <==> k in keys[..n] || k == key by {
        assert keys == keys[..n] + [key];
      }
    }
  }

  /** `config.get("_override_date", today)`. */
  function Today(config: Json, today: string): Json {
    GetOr(config, "_override_date", JStr(today))
  }

  function DateWrites(config: Json, today: string): Writes {
    [("ACORD_CurrentDate", Today(config, today)), ("ACORD_Transaction_Date", Today(config, today))]
  }

  // ----- transaction and entity checkboxes -----

  /** `tx_map.get(tx)`. */
  function TransactionBox(tx: string): Option<string> {
    if tx == "quote" then Some("ACORD_Transaction_Quote")
    else if tx == "bound" then Some("ACORD_Transaction_Bound")
    else if tx == "renew" then Some("ACORD_Transaction_Renew")
    else if tx == "cancel" then Some("ACORD_Transaction_Cancel")
    else if tx == "change" then Some("ACORD_Transaction_Change")
    else if tx == "issue" then Some("ACORD_Transaction_IssuePolicy")
    else None
  }

  /** `entity_map.get(entity)`. */
  function EntityBox(entity: string): Option<string> {
    if entity == "llc" then Some("ACORD_Policy_Insured1_Type_LLC")
    else if entity == "corporation" then Some("ACORD_Policy_Insured1_Type_Corporation")
    else if entity == "partnership" then Some("ACORD_Policy_Insured1_Type_Partnership")
    else if entity == "individual" then Some("ACORD_Policy_Insured1_Type_Individual")
    else if entity == "scorp" then Some("ACORD_Policy_Insured1_Type_SCorp")
    else if entity == "trust" then Some("ACORD_Policy_Insured1_Type_Trust")
    else if entity == "joint_venture" then Some("ACORD_Policy_Insured1_Type_JointVenture")
    else None
  }

  /** `config.get("transaction_type", "quote")`. */
  function TransactionType(config: Json): Json {
    GetOr(config, "transaction_type", JStr("quote"))
  }

  /** `if tx in tx_map: fields[tx_map[tx]] = "Yes"`; only a string can be
      a key of the table. */
  function TransactionWrites(config: Json): Writes {
    var tx := TransactionType(config);
    if tx.JStr? && TransactionBox(tx.s).Some? then [(TransactionBox(tx.s).value, Yes)] else []
  }

  /** `config.get("entity_type", "").lower()`. */
  function EntityType(config: Json): string {
    Lower(Str(GetOr(config, "entity_type", JStr(""))))
  }

  function EntityWrites(config: Json): Writes {
    var entity := EntityType(config);
    if EntityBox(entity).Some? then [(EntityBox(entity).value, Yes)] else []
  }

  /** At most one transaction box is ticked, "quote" when the type is not
      given, and one exactly when the type is one of the six known ones. */
  lemma TransactionChoice(config: Json)
    ensures |TransactionWrites(config)| <= 1
    ensures !Has(config, "transaction_type") ==> TransactionWrites(config) == [("ACORD_Transaction_Quote", Yes)]
    ensures TransactionWrites(config) != [] <==>
      TransactionType(config).JStr? && TransactionType(config).s in {"quote", "bound", "renew", "cancel", "change", "issue"}
    ensures forall w :: w in TransactionWrites(config) ==> w.1 == Yes
  {
  }

  /** At most one entity box is ticked, and the entity type is matched
      regardless of the case of its ASCII letters. */
  lemma EntityChoice(config: Json, other: Json)
    ensures |EntityWrites(config)| <= 1
    ensures EntityWrites(config) != [] <==>
      EntityType(config) in {"llc", "corporation", "partnership", "individual", "scorp", "trust", "joint_venture"}
    ensures Lower(Str(GetOr(other, "entity_type", JStr("")))) == EntityType(config) ==> EntityWrites(other) == EntityWrites(config)
  {
  }

  /** Upper- and lower-case spellings of a type pick the same box. */
  lemma LowerIdempotent(s: string)
    ensures Lower(Lower(s)) == Lower(s)
  {
  }

  // ----- locations on the ACORD 125 -----

  /** `f"ACORD_Location{n}_"`. */
  function LocationPrefix(n: nat): string {
    "ACORD_Location" + NatToDecimal(n) + "_"
  }

  /** `"street, city, ST ZIP"`: with at least three comma-separated parts,
      the stripped street and city, then the first and second
      whitespace-separated tokens of the third part when they exist. */
  function AddressWrites(prefix: string, address: string): Writes {
    var parts := Split(address, ',');
    if |parts| < 3 then [] else AddressPartWrites(prefix, Strip(parts[0]), Strip(parts[1]), Words(Strip(parts[2])))
  }

  /** The assignments for a split address: street, city, then the state
      and ZIP tokens that exist. */
  function AddressPartWrites(prefix: string, street: string, city: string, stZip: seq<string>): Writes {
    [(prefix + "Street", JStr(street)), (prefix + "City", JStr(city))]
    + When(|stZip| >= 1, prefix + "State", JStr(if |stZip| >= 1 then stZip[0] else ""))
    + When(|stZip| > 1, prefix + "ZIP", JStr(if |stZip| > 1 then stZip[1] else ""))
  }

  /** `interest == "owner"` or `"tenant"` ticks that box; anything else none. */
  function InterestWrites(prefix: string, interest: string): Writes {
    if interest == "owner" then [(prefix + "Interest_Owner", Yes)]
    else if interest == "tenant" then [(prefix + "Interest_Tenant", Yes)]
    else []
  }

  /** Location `n` of the ACORD 125: the address, then the details. */
  function LocationWrites(n: nat, loc: Json): Writes {
    var prefix := LocationPrefix(n);
    (if Has(loc, "address") then AddressWrites(prefix, Str(Get(loc, "address"))) else [])
    + LocationDetails(prefix, loc)
  }

  /** The county, description, area, premises and building numbers and
      interest of a location, each written only when given. */
  function LocationDetails(prefix: string, loc: Json): Writes {
    DetailWrites(loc, LocationDetailRules, prefix)
    + InterestWrites(prefix, Lower(Str(GetOr(loc, "interest", JStr("owner")))))
  }

  /** The copied details of a location, in the order they are written: the
      area is written twice, as the building's and the occupied area. */
  const LocationDetailRules: seq<Rule> := [
    Copied("county", "County", false),
    Copied("description", "Description", false),
    Copied("sqft", "BuildingArea", true),
    Copied("sqft", "OccupiedArea", true),
    Copied("premises", "LocationNumber", true),
    Copied("building", "BuildingNumber", true)
  ]

  /** The assignments of a list of copied details under `prefix`, in order:
      each one only when its key is given. */
  function DetailWrites(loc: Json, rules: seq<Rule>, prefix: string): Writes {
    if rules == [] then []
    else
      var r := rules[|rules| - 1];
      DetailWrites(loc, rules[..|rules| - 1], prefix) + When(Has(loc, r.key), prefix + r.stem, RuleValue(loc, r))
  }

  /** `sorted(locations.keys())`. */
  function LocationKeys(config: Json): seq<string> {
    SortStrings(Keys(Members(Sub(config, "locations"))))
  }

  /** `locations[k]` for each key, in order. */
  function LocationValues(locations: Json, keys: seq<string>): (r: seq<Json>)
    ensures |r| == |keys|
    ensures forall j :: 0 <= j < |keys| ==> r[j] == Get(locations, keys[j])
  {
    if keys == [] then [] else LocationValues(locations, keys[..|keys| - 1]) + [Get(locations, keys[|keys| - 1])]
  }

  /** The first `count` locations in key order. */
  function LocationRows(locs: seq<Json>, count: nat): Writes
    requires count <= |locs|
  {
    if count == 0 then []
    else LocationRows(locs, count - 1) + LocationWrites(count, locs[count - 1])
  }

  function Min(a: nat, b: nat): nat {
    if a <= b then a else b
  }

  // ----- property sections on the ACORD 140 -----

  /** Section letter and first coverage row of property section `i`. */
  function SectionSuffix(i: nat): string {
    if i == 0 then "A" else "B"
  }

  function SectionRow(i: nat): string {
    if i == 0 then "A" else "G"
  }

  /** The exposure directions with their capitalised names. */
  const Directions: seq<(string, string)> := [("front", "Front"), ("rear", "Rear"), ("left", "Left"), ("right", "Right")]

  function ExposureWrites(exposures: Json, suffix: string, dirs: seq<(string, string)>): Writes {
    if dirs == [] then []
    else
      var (direction, cap) := dirs[|dirs| - 1];
      var exp := Sub(exposures, direction);
      ExposureWrites(exposures, suffix, dirs[..|dirs| - 1])
      + (if Truthy(exp) then
           When(Has(exp, "desc"), "BuildingExposure_" + cap + "Description_" + suffix, Get(exp, "desc"))
           + When(Has(exp, "dist"), "BuildingExposure_" + cap + "Distance_" + suffix, Get(exp, "dist"))
         else [])
  }

  /** How one field is filled from an object `obj`: `Copied` is
      `if key in obj: fields[stem + tag] = obj[key]`, `Defaulted` is
      `fields[stem + tag] = obj.get(key, default)`; the value goes through
      `str()` when `str` is set. */
  datatype Rule =
    | Copied(key: string, stem: string, str: bool)
    | Defaulted(key: string, stem: string, default: Json, str: bool)

  /** The value a rule stores. */
  function RuleValue(obj: Json, r: Rule): Json {
    var v := if r.Copied? then Get(obj, r.key) else GetOr(obj, r.key, r.default);
    if r.str then StrOf(v) else v
  }

  /** The assignments of a list of rules, in order. */
  function RuleWrites(obj: Json, rules: seq<Rule>, tag: string): Writes {
    if rules == [] then []
    else
      var r := rules[|rules| - 1];
      RuleWrites(obj, rules[..|rules| - 1], tag)
      + When(r.Defaulted? || Has(obj, r.key), r.stem + tag, RuleValue(obj, r))
  }

  /** The prefixes the long ACORD 140 field names share. */
  const Structure := "CommercialStructure_"
  const Premises := "CommercialProperty_Premises_"
  const PropertyCoverage := "CommercialPropertyCoverage_"

  /** The construction details of a section, tagged with its letter. */
  const ConstructionFields: seq<Rule> := [
    Copied("construction", "Construction_ConstructionCode_", false),
    Copied("year_built", Structure + "BuiltYear_", true),
    Copied("stories", "Construction_StoreyCount_", true),
    Copied("basements", "Construction_BasementCount_", true),
    Copied("sqft", "Construction_BuildingArea_", true),
    Copied("roof", "Construction_RoofMaterialCode_", false),
    Copied("protection_class", "BuildingFireProtection_ProtectionClassCode_", false)
  ]

  /** The coverage row of a section, tagged with its first row letter. */
  const CoverageFields: seq<Rule> := [
    Copied("limit", Premises + "LimitAmount_", true),
    Copied("coinsurance", Premises + "CoinsurancePercent_", true),
    Copied("valuation", Premises + "ValuationCode_", false),
    Copied("cause_of_loss", Premises + "CauseOfLossCode_", false),
    Copied("deductible", Premises + "DeductibleAmount_", true),
    Copied("ded_type", Premises + "DeductibleTypeCode_", false),
    Copied("subject_of_insurance", Premises + "SubjectOfInsuranceCode_", false)
  ]

  /** The state of a location: `loc.get("state", "")`, or, when that is
      falsy and there is an address, the first token of its third part. */
  function StateOf(loc: Json): Json {
    var state := GetOr(loc, "state", JStr(""));
    if !Truthy(state) && Has(loc, "address") then
      var parts := Split(Str(Get(loc, "address")), ',');
      if |parts| >= 3 && Words(Strip(parts[2])) != [] then JStr(Words(Strip(parts[2]))[0]) else state
    else state
  }

  const MineSubsidenceNo := PropertyCoverage + "MineSubsidenceOption_NoIndicator_"
  const SinkHoleNo := PropertyCoverage + "SinkHoleCollapse_NoIndicator_"
  const Breakdown := Premises + "BreakdownOrContaminationIndicator_"

  /** The Texas defaults: no mine-subsidence and no sinkhole-collapse cover. */
  function TexasWrites(suffix: string, state: Json): Writes {
    if state == JStr("TX") then [(MineSubsidenceNo + suffix, Yes), (SinkHoleNo + suffix, Yes)] else []
  }

  /** The tables a property section is filled from: its construction
      details, its exposure directions and its coverage row. */
  datatype SectionLayout = SectionLayout(construction: seq<Rule>, directions: seq<(string, string)>, coverage: seq<Rule>)

  const Section140 := SectionLayout(ConstructionFields, Directions, CoverageFields)

  /** The identification fields of section `i`. */
  function IdentificationFields(i: nat): seq<Rule> {
    [Defaulted("premises", Structure + "Location_ProducerIdentifier_", JInt(i + 1), true),
     Defaulted("building", Structure + "Building_ProducerIdentifier_", JInt(1), true),
     Defaulted("address", Structure + "PhysicalAddress_LineOne_", JStr(""), false),
     Defaulted("description", Structure + "Building_SublocationDescription_", JStr(""), false)]
  }

  /** The identification and construction fields of section `i` (0 or 1). */
  function SectionHeadWrites(i: nat, loc: Json, layout: SectionLayout): Writes {
    RuleWrites(loc, IdentificationFields(i), SectionSuffix(i)) + RuleWrites(loc, layout.construction, SectionSuffix(i))
  }

  /** The coverage row, the Texas defaults and the equipment-breakdown box. */
  function SectionTailWrites(i: nat, loc: Json, layout: SectionLayout): Writes {
    var suffix := SectionSuffix(i);
    RuleWrites(loc, layout.coverage, SectionRow(i))
    + TexasWrites(suffix, StateOf(loc))
    + When(Flag(loc, "equipment_breakdown"), Breakdown + suffix, Yes)
  }

  /** Property section `i` of the ACORD 140. */
  function SectionWrites(i: nat, loc: Json, layout: SectionLayout): Writes {
    SectionHeadWrites(i, loc, layout)
    + ExposureWrites(Sub(loc, "exposures"), SectionSuffix(i), layout.directions)
    + SectionTailWrites(i, loc, layout)
  }

  function SectionRows(locs: seq<Json>, count: nat, layout: SectionLayout): Writes
    requires count <= |locs|
  {
    if count == 0 then []
    else SectionRows(locs, count - 1, layout) + SectionWrites(count - 1, locs[count - 1], layout)
  }

  // ----- the ACORD 140 header, prior carrier, losses -----

  /** The ACORD 140 header fields copied from the top level. */
  const HeaderFields: seq<Rule> := [
    Defaulted("ACORD_Policy_Insured1_Name", "NamedInsured_FullName_A", JStr(""), false),
    Defaulted("ACORD_PolicyNumber", "Policy_PolicyNumberIdentifier_A", JStr(""), false),
    Defaulted("ACORD_Policy_EffectiveDate", "Policy_EffectiveDate_A", JStr(""), false),
    Defaulted("ACORD_CarrierName", "Insurer_FullName_A", JStr(""), false)
  ]

  /** The header, present when there is at least one location: the copied
      fields, the first line of the agency name, and the date. */
  function HeaderWrites(config: Json, today: string, hasLocations: bool): Writes {
    if !hasLocations then []
    else
      RuleWrites(config, HeaderFields, "")
      + [("Producer_FullName_A", JStr(Split(Str(GetOr(config, "ACORD_AgencyName", JStr(""))), '\n')[0])),
         ("Form_CompletionDate_A", Today(config, today))]
  }

  /** The prior carrier's fields, on row 1 of the "Auto" column. */
  const PriorFields: seq<Rule> := [
    Defaulted("carrier", "ACORD_PriorCarrier_1_AutoCarrier", JStr(""), false),
    Defaulted("policy_number", "ACORD_PriorCarrier_1_AutoPolicyNumber", JStr(""), false),
    Defaulted("premium", "ACORD_PriorCarrier_1_AutoPremium", JStr(""), false),
    Defaulted("effective", "ACORD_PriorCarrier_1_AutoEffectiveDate", JStr(""), false),
    Defaulted("expiration", "ACORD_PriorCarrier_1_AutoExpirationDate", JStr(""), false)
  ]

  /** The prior carrier, when `config.get("prior_carrier", {})` is truthy. */
  function PriorWrites(config: Json): Writes {
    var prior := Sub(config, "prior_carrier");
    if !Truthy(prior) then [] else RuleWrites(prior, PriorFields, "")
  }

  /** `if config.get("loss_history_none", True)`. */
  function LossNoneWrites(config: Json): Writes {
    When(Truthy(GetOr(config, "loss_history_none", JBool(true))), "ACORD_LossHistory_None", Yes)
  }

  /** The columns of a loss row. */
  const LossKeys: seq<string> := ["DateOfClaim", "OccurenceDate", "Description", "LOB", "AmountPaid", "AmountReserved", "ClaimOpen", "Subrogation"]

  /** `loss.get(key, loss.get(key.lower(), ""))`: the exact-case key first. */
  function LossValue(loss: Json, key: string): Json {
    GetOr(loss, key, GetOr(loss, Lower(key), JStr("")))
  }

  /** `if key.lower() in loss or key in loss`. */
  predicate LossHas(loss: Json, key: string) {
    Has(loss, Lower(key)) || Has(loss, key)
  }

  function LossKeyWrites(prefix: string, loss: Json, keys: seq<string>): Writes {
    if keys == [] then []
    else
      var key := keys[|keys| - 1];
      LossKeyWrites(prefix, loss, keys[..|keys| - 1]) + When(LossHas(loss, key), prefix + key, StrOf(LossValue(loss, key)))
  }

  /** `f"ACORD_LossHistory_{n}_"`. */
  function LossPrefix(n: nat): string {
    "ACORD_LossHistory_" + NatToDecimal(n) + "_"
  }

  function LossRows(losses: seq<Json>, count: nat, keys: seq<string>): Writes
    requires count <= |losses|
  {
    if count == 0 then []
    else LossRows(losses, count - 1, keys) + LossKeyWrites(LossPrefix(count), losses[count - 1], keys)
  }

  /** `config.get("loss_history", [])`. */
  function Losses(config: Json): seq<Json> {
    Items(GetOr(config, "loss_history", JArr([])))
  }

  // ----- raw checkboxes and overrides -----

  /** `fields[name] = "Yes" if value else ""` for each checkbox entry. */
  function CheckboxWrites(entries: seq<(string, Json)>): Writes {
    if entries == [] then []
    else
      var (name, value) := entries[|entries| - 1];
      CheckboxWrites(entries[..|entries| - 1]) + [(name, JStr(if Truthy(value) then "Yes" else ""))]
  }

  function Checkboxes(config: Json): seq<(string, Json)> {
    Members(Sub(config, "checkboxes"))
  }

  /** `fields.update(overrides)`: each override entry assigned in order. */
  function Overrides(config: Json): seq<(string, Json)> {
    Members(Sub(config, "field_overrides"))
  }

  // ----- the whole mapper -----

  /** The ACORD 125 policy and applicant fields: the direct keys, the dates
      and the two checkbox groups. */
  function ApplicantWrites(config: Json, today: string): Writes {
    DirectWrites(config, DirectKeys) + DateWrites(config, today) + TransactionWrites(config) + EntityWrites(config)
  }

  /** The locations in key order: up to four on the ACORD 125, up to two
      property sections on the ACORD 140, and the ACORD 140 header. */
  function PropertyWrites(config: Json, today: string): Writes {
    var locations := Sub(config, "locations");
    var keys := LocationKeys(config);
    var locs := LocationValues(locations, keys);
    LocationRows(locs, Min(4, |locs|))
    + SectionRows(locs, Min(2, |locs|), Section140)
    + HeaderWrites(config, today, keys != [])
  }

  /** The prior carrier and the loss history. */
  function HistoryWrites(config: Json): Writes {
    PriorWrites(config) + LossNoneWrites(config) + LossRows(Losses(config), Min(3, |Losses(config)|), LossKeys)
  }

  /** All assignments of `_build_field_data`, in program order. */
  function FieldWrites(config: Json, today: string): Writes {
    ApplicantWrites(config, today) + PropertyWrites(config, today) + HistoryWrites(config)
    + CheckboxWrites(Checkboxes(config)) + Overrides(config)
  }

  /** The dict `_build_field_data` returns. */
  function FieldDict(config: Json, today: string): FieldMap {
    PutAll([], FieldWrites(config, today))
  }

  // ----- the mapper, assignment by assignment -----

  /** `_build_field_data`. The assignments a loop iteration makes without
      looping are applied as one run (`PutAll`); the loops are loops. */
  method BuildFieldData(config: Json, today: string) returns (fields: FieldMap)
    ensures fields == FieldDict(config, today)
  {
    fields := PutApplicant([], config, today);
    ghost var done := ApplicantWrites(config, today);
    fields := PutProperty(fields, config, today);
    PutAllAppend([], done, PropertyWrites(config, today));
    done := done + PropertyWrites(config, today);
    fields := PutHistory(fields, config);
    PutAllAppend([], done, HistoryWrites(config));
    done := done + HistoryWrites(config);
    var checkboxes := Members(Sub(config, "checkboxes"));
    fields := PutCheckboxes(fields, checkboxes);
    PutAllAppend([], done, CheckboxWrites(checkboxes));
    done := done + CheckboxWrites(checkboxes);
    var overrides := Members(Sub(config, "field_overrides"));
    fields := PutAll(fields, overrides);
    PutAllAppend([], done, overrides);
  }

  /** The direct keys, the dates, the transaction and the entity type. */
  method PutApplicant(fields: FieldMap, config: Json, today: string) returns (r: FieldMap)
    ensures r == PutAll(fields, ApplicantWrites(config, today))
  {
    ghost var done := DirectWrites(config, DirectKeys);
    r := PutDirect(fields, config, DirectKeys);
    r := PutAll(r, DateWrites(config, today));
    PutAllAppend(fields, done, DateWrites(config, today));
    done := done + DateWrites(config, today);
    r := PutAll(r, TransactionWrites(config));
    PutAllAppend(fields, done, TransactionWrites(config));
    done := done + TransactionWrites(config);
    r := PutAll(r, EntityWrites(config));
    PutAllAppend(fields, done, EntityWrites(config));
  }

  /** `loc_keys = sorted(locations.keys())`, the location loop, the section
      loop and the header. */
  method PutProperty(fields: FieldMap, config: Json, today: string) returns (r: FieldMap)
    ensures r == PutAll(fields, PropertyWrites(config, today))
  {
    var locations := Sub(config, "locations");
    var keys := SortStrings(Keys(Members(locations)));
    var locs := LocationValues(locations, keys);
    ghost var done := LocationRows(locs, Min(4, |locs|));
    r := PutLocations(fields, locs);
    r := PutSections(r, locs, Section140);
    PutAllAppend(fields, done, SectionRows(locs, Min(2, |locs|), Section140));
    done := done + SectionRows(locs, Min(2, |locs|), Section140);
    r := PutAll(r, HeaderWrites(config, today, keys != []));
    PutAllAppend(fields, done, HeaderWrites(config, today, keys != []));
  }

  /** The prior carrier, the "none" box and the loss rows. */
  method PutHistory(fields: FieldMap, config: Json) returns (r: FieldMap)
    ensures r == PutAll(fields, HistoryWrites(config))
  {
    var losses := Items(GetOr(config, "loss_history", JArr([])));
    r := PutAll(fields, PriorWrites(config));
    ghost var done := PriorWrites(config);
    r := PutAll(r, LossNoneWrites(config));
    PutAllAppend(fields, done, LossNoneWrites(config));
    done := done + LossNoneWrites(config);
    r := PutLosses(r, losses, LossKeys);
    PutAllAppend(fields, done, LossRows(losses, Min(3, |losses|), LossKeys));
  }

  /** `for key in direct_keys: if key in config: fields[key] = str(config[key])`. */
  method PutDirect(fields: FieldMap, config: Json, keys: seq<string>) returns (r: FieldMap)
    ensures r == PutAll(fields, DirectWrites(config, keys))
  {
    r := fields;
    var i := 0;
    while i < |keys|
      invariant 0 <= i <= |keys|
      invariant r == PutAll(fields, DirectWrites(config, keys[..i]))
    {
      var key := keys[i];
      ghost var done := DirectWrites(config, keys[..i]);
      assert keys[..i + 1][..i] == keys[..i];
      assert DirectWrites(config, keys[..i + 1]) == done + When(Has(config, key), key, StrOf(Get(config, key)));
      if Has(config, key) {
        PutAllSnoc(fields, done, key, StrOf(Get(config, key)));
        r := Put(r, key, StrOf(Get(config, key)));
      } else {
        assert done + [] == done;
      }
      i := i + 1;
    }
    assert keys[..i] == keys;
  }

  /** `for i, loc_key in enumerate(loc_keys[:4])`, with `loc = locations[loc_key]`. */
  method PutLocations(fields: FieldMap, locs: seq<Json>) returns (r: FieldMap)
    ensures r == PutAll(fields, LocationRows(locs, Min(4, |locs|)))
  {
    r := fields;
    var count := Min(4, |locs|);
    var i := 0;
    while i < count
      invariant 0 <= i <= count
      invariant r == PutAll(fields, LocationRows(locs, i))
    {
      PutAllAppend(fields, LocationRows(locs, i), LocationWrites(i + 1, locs[i]));
      r := PutAll(r, LocationWrites(i + 1, locs[i]));
      i := i + 1;
    }
  }

  /** `for i, loc_key in enumerate(loc_keys[:2])`, with `loc = locations[loc_key]`. */
  method PutSections(fields: FieldMap, locs: seq<Json>, layout: SectionLayout) returns (r: FieldMap)
    ensures r == PutAll(fields, SectionRows(locs, Min(2, |locs|), layout))
  {
    r := fields;
    var count := Min(2, |locs|);
    var i := 0;
    while i < count
      invariant 0 <= i <= count
      invariant r == PutAll(fields, SectionRows(locs, i, layout))
    {
      var next := PutSection(r, i, locs[i], layout);
      PutAllAppend(fields, SectionRows(locs, i, layout), SectionWrites(i, locs[i], layout));
      r := next;
      i := i + 1;
    }
  }

  /** One property section: its fields, the exposure loop, then the rest. */
  method PutSection(fields: FieldMap, i: nat, loc: Json, layout: SectionLayout) returns (r: FieldMap)
    ensures r == PutAll(fields, SectionWrites(i, loc, layout))
  {
    var suffix := if i == 0 then "A" else "B";
    var head := SectionHeadWrites(i, loc, layout);
    var exposures := ExposureWrites(Sub(loc, "exposures"), suffix, layout.directions);
    var tail := SectionTailWrites(i, loc, layout);
    r := PutAll(fields, head);
    r := PutExposures(r, Sub(loc, "exposures"), suffix, layout.directions);
    PutAllAppend(fields, head, exposures);
    r := PutAll(r, tail);
    PutAllAppend(fields, head + exposures, tail);
  }

  /** `for direction in ["front", "rear", "left", "right"]`. */
  method PutExposures(fields: FieldMap, exposures: Json, suffix: string, dirs: seq<(string, string)>) returns (r: FieldMap)
    ensures r == PutAll(fields, ExposureWrites(exposures, suffix, dirs))
  {
    r := fields;
    var d := 0;
    while d < |dirs|
      invariant 0 <= d <= |dirs|
      invariant r == PutAll(fields, ExposureWrites(exposures, suffix, dirs[..d]))
    {
      var (direction, cap) := dirs[d];
      assert dirs[..d + 1][..d] == dirs[..d];
      var exp := Sub(exposures, direction);
      ghost var done := ExposureWrites(exposures, suffix, dirs[..d]);
      var run: Writes := [];
      if Truthy(exp) {
        run := When(Has(exp, "desc"), "BuildingExposure_" + cap + "Description_" + suffix, Get(exp, "desc"))
          + When(Has(exp, "dist"), "BuildingExposure_" + cap + "Distance_" + suffix, Get(exp, "dist"));
      }
      assert ExposureWrites(exposures, suffix, dirs[..d + 1]) == done + run;
      PutAllAppend(fields, done, run);
      r := PutAll(r, run);
      d := d + 1;
    }
    assert dirs[..d] == dirs;
  }

  /** `for i, loss in enumerate(losses[:3])`. */
  method PutLosses(fields: FieldMap, losses: seq<Json>, keys: seq<string>) returns (r: FieldMap)
    ensures r == PutAll(fields, LossRows(losses, Min(3, |losses|), keys))
  {
    r := fields;
    var count := Min(3, |losses|);
    var i := 0;
    while i < count
      invariant 0 <= i <= count
      invariant r == PutAll(fields, LossRows(losses, i, keys))
    {
      var prefix := LossPrefix(i + 1);
      var next := PutLossRow(r, prefix, losses[i], keys);
      PutAllAppend(fields, LossRows(losses, i, keys), LossKeyWrites(prefix, losses[i], keys));
      r := next;
      i := i + 1;
    }
  }

  /** The columns of one loss row. */
  method PutLossRow(fields: FieldMap, prefix: string, loss: Json, keys: seq<string>) returns (r: FieldMap)
    ensures r == PutAll(fields, LossKeyWrites(prefix, loss, keys))
  {
    r := fields;
    var j := 0;
    while j < |keys|
      invariant 0 <= j <= |keys|
      invariant r == PutAll(fields, LossKeyWrites(prefix, loss, keys[..j]))
    {
      var key := keys[j];
      ghost var done := LossKeyWrites(prefix, loss, keys[..j]);
      LossKeyStep(prefix, loss, keys, j);
      if Has(loss, Lower(key)) || Has(loss, key) {
        var value := StrOf(GetOr(loss, key, GetOr(loss, Lower(key), JStr(""))));
        PutAllSnoc(fields, done, prefix + key, value);
        r := Put(r, prefix + key, value);
      }
      j := j + 1;
    }
    assert keys[..j] == keys;
  }

  /** One more column of a loss row. */
  lemma LossKeyStep(prefix: string, loss: Json, keys: seq<string>, j: nat)
    requires j < |keys|
    ensures var key := keys[j];
      LossKeyWrites(prefix, loss, keys[..j + 1]) ==
        if LossHas(loss, key) then LossKeyWrites(prefix, loss, keys[..j]) + [(prefix + key, StrOf(LossValue(loss, key)))]
        else LossKeyWrites(prefix, loss, keys[..j])
  {
    assert keys[..j + 1][..j] == keys[..j];
    assert LossKeyWrites(prefix, loss, keys[..j]) + [] == LossKeyWrites(prefix, loss, keys[..j]);
  }

  /** `for field_name, value in checkboxes.items()`. */
  method PutCheckboxes(fields: FieldMap, entries: seq<(string, Json)>) returns (r: FieldMap)
    ensures r == PutAll(fields, CheckboxWrites(entries))
  {
    r := fields;
    var i := 0;
    while i < |entries|
      invariant 0 <= i <= |entries|
      invariant r == PutAll(fields, CheckboxWrites(entries[..i]))
    {
      var (name, value) := entries[i];
      assert entries[..i + 1][..i] == entries[..i];
      var v := JStr(if Truthy(value) then "Yes" else "");
      PutAllSnoc(fields, CheckboxWrites(entries[..i]), name, v);
      r := Put(r, name, v);
      i := i + 1;
    }
    assert entries[..i] == entries;
  }
}
