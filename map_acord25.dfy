/** `map_to_acord25`: the ACORD 25 certificate-of-insurance mapper. It
    fills the flat `field name -> value` dict step by step: the insurers
    table (slots A-E, with a legacy single-carrier fallback), the
    completion date, the producer, the named insured, the four coverage
    lines (general liability, automobile, umbrella, workers'
    compensation), the certificate holder, the remark text and the
    additional-insured codes. Every field lives on the form's first page,
    `F[0].P1[0].<name>[0]`.

    As in `FieldData`, each step is specified by its assignments in
    program order (`Writes`) and the dict is what they leave (`PutAll`).
    The general-liability limits are a parameter: the two copies of the
    mapper differ only in two of those field names. */
module MapAcord25 {
  import opened Wrappers
  import opened Json
  import opened Text
  import opened FieldMap
  import opened FieldData

  /** `p`: the page every field sits on. */
  const FormPage := "F[0].P1[0]."

  /** `f"{p}{name}[0]"`. */
  function Field(name: string): string {
    FormPage + name + "[0]"
  }

  /** How one field is filled from an object; `pol` is the legacy
      single policy the coverage lines fall back to. An entry belongs to a
      table whose fields share a prefix (`GeneralLiability_`, ...); `name`
      is the rest of the field's name. */
  datatype Entry =
    | Copy(key: string, name: string)       // fields[name] = obj.get(key, "")
    | Tick(key: string, name: string)       // if obj.get(key): fields[name] = "Yes"
    | Mark(name: string)                    // fields[name] = "Yes"
    | Letter(name: string, letter: string)  // fields[name] = obj.get("insurer_letter", letter)
    | Number(name: string, fallback: bool)  // fields[name] = obj.get("policy_number", ...)
    | Date(key: string, name: string)       // fields[name] = obj.get(key, pol.get(key, ""))

  /** What an entry assigns to its field, if anything. */
  function EntryValue(obj: Json, pol: Json, e: Entry): Option<Json> {
    match e
    case Copy(key, _) => Some(GetOr(obj, key, JStr("")))
    case Tick(key, _) => if Flag(obj, key) then Some(Yes) else None
    case Mark(_) => Some(Yes)
    case Letter(_, letter) => Some(GetOr(obj, "insurer_letter", JStr(letter)))
    case Number(_, fallback) => Some(GetOr(obj, "policy_number", if fallback then GetOr(pol, "number", JStr("")) else JStr("")))
    case Date(key, _) => Some(LineDate(obj, pol, key))
  }

  /** `line_dates`: the line's own date, else the legacy policy's, else "". */
  function LineDate(line: Json, pol: Json, key: string): (r: Json)
    ensures Has(line, key) ==> r == Find(line.members, key).value
    ensures !Has(line, key) && Has(pol, key) ==> r == Find(pol.members, key).value
    ensures !Has(line, key) && !Has(pol, key) ==> r == JStr("")
  {
    GetOr(line, key, GetOr(pol, key, JStr("")))
  }

  /** The assignments of a run of entries of the table with field-name
      prefix `prefix`, in order. */
  function EntryWrites(obj: Json, pol: Json, prefix: string, es: seq<Entry>): Writes {
    if es == [] then []
    else
      var e := es[|es| - 1];
      var v := EntryValue(obj, pol, e);
      EntryWrites(obj, pol, prefix, es[..|es| - 1]) + (if v.Some? then [(Field(prefix + e.name), v.value)] else [])
  }

  // ----- insurers -----

  /** `policy_data.get("insurers", [])`, replaced by one slot-A insurer
      built from the legacy `policy` when it is falsy and the policy names
      a carrier. */
  function Insurers(pd: Json): seq<Json> {
    var listed := GetOr(pd, "insurers", JArr([]));
    var pol := Sub(pd, "policy");
    if !Truthy(listed) && Flag(pol, "carrier") then
      [JObj([("letter", JStr("A")), ("carrier", Get(pol, "carrier")), ("naic", GetOr(pol, "naic", JStr("")))])]
    else Items(listed)
  }

  /** `insurer.get("letter", "A")`, which `ord` accepts only as a string of
      one character. */
  function InsurerLetter(insurer: Json): Result<string, string> {
    var letter := GetOr(insurer, "letter", JStr("A"));
    if letter.JStr? && |letter.s| == 1 then Success(letter.s)
    else Failure("ord() expected a character")
  }

  /** The name and NAIC-code fields of slot `letter`. */
  function NameField(letter: string): string {
    Field("Insurer_FullName_" + letter)
  }

  function NaicField(letter: string): string {
    Field("Insurer_NAICCode_" + letter)
  }

  /** The name and NAIC code of an insurer, in the slot of `letter`. */
  function InsurerSlot(insurer: Json, letter: string): Writes {
    [(NameField(letter), GetOr(insurer, "carrier", JStr(""))),
     (NaicField(letter), GetOr(insurer, "naic", JStr("")))]
  }

  /** `for insurer in insurers[:count]`; the first bad letter raises. */
  function InsurerWrites(insurers: seq<Json>, count: nat): Result<Writes, string>
    requires count <= |insurers|
  {
    if count == 0 then Success([])
    else
      var earlier := InsurerWrites(insurers, count - 1);
      var letter := InsurerLetter(insurers[count - 1]);
      if earlier.Failure? then earlier
      else if letter.Failure? then Failure(letter.error)
      else Success(earlier.value + InsurerSlot(insurers[count - 1], letter.value))
  }

  /** `if insurers:` the first insurer also fills slot A. */
  function SlotAWrites(insurers: seq<Json>): Writes {
    if insurers != [] then InsurerSlot(insurers[0], "A") else []
  }

  // ----- producer and named insured -----

  const ProducerPrefix := "Producer_"
  const InsuredPrefix := "NamedInsured_"

  const ProducerFields: seq<Entry> := [
    Copy("city", "MailingAddress_CityName_A"),
    Copy("state", "MailingAddress_StateOrProvinceCode_A"),
    Copy("zip", "MailingAddress_PostalCode_A"),
    Copy("contact", "ContactPerson_FullName_A"),
    Copy("phone", "ContactPerson_PhoneNumber_A"),
    Copy("email", "ContactPerson_EmailAddress_A")
  ]

  const InsuredFields: seq<Entry> := [
    Copy("city", "MailingAddress_CityName_A"),
    Copy("state", "MailingAddress_StateOrProvinceCode_A"),
    Copy("zip", "MailingAddress_PostalCode_A")
  ]

  /** `"\n".join(addr_parts)`: `address_line1` (or else `address`), and
      `address_line2` when it is set. */
  function ProducerAddress(agency: Json): string {
    var first := Str(GetOr(agency, "address_line1", GetOr(agency, "address", JStr(""))));
    Join("\n", [first] + (if Flag(agency, "address_line2") then [Str(Get(agency, "address_line2"))] else []))
  }

  /** `addr = ins.get("address_line1", "")`, extended by `"\n"` and the
      second line when there is one. */
  function InsuredAddress(insured: Json): Json {
    var first := GetOr(insured, "address_line1", JStr(""));
    if Flag(insured, "address_line2") then JStr(Str(first) + "\n" + Str(Get(insured, "address_line2"))) else first
  }

  function ProducerWrites(agency: Json): Writes {
    [(Field(ProducerPrefix + "FullName_A"), GetOr(agency, "name", JStr(""))),
     (Field(ProducerPrefix + "MailingAddress_LineOne_A"), JStr(ProducerAddress(agency)))]
    + EntryWrites(agency, JObj([]), ProducerPrefix, ProducerFields)
  }

  function InsuredWrites(insured: Json): Writes {
    [(Field(InsuredPrefix + "FullName_A"), GetOr(insured, "name", JStr(""))),
     (Field(InsuredPrefix + "MailingAddress_LineOne_A"), InsuredAddress(insured))]
    + EntryWrites(insured, JObj([]), InsuredPrefix, InsuredFields)
  }

  /** The completion date, the producer and the named insured. */
  function PartyWrites(pd: Json, agency: Json, today: string): Writes {
    [(Field("Form_CompletionDate_A"), JStr(today))] + ProducerWrites(agency) + InsuredWrites(Sub(pd, "insured"))
  }

  // ----- coverage lines -----

  /** A coverage line: its key under `coverages`, the prefix of its
      field names and its entries. */
  datatype Line = Line(key: string, prefix: string, entries: seq<Entry>)

  const GlPrefix := "GeneralLiability_"
  const AutoPrefix := "AutomobileLiability_"
  const UmbrellaPrefix := "ExcessUmbrella_"
  const WcPrefix := "WorkersCompensation_"

  /** The general-liability entries before its limits. */
  const GlHead: seq<Entry> := [
    Mark("CoverageIndicator_A"),
    Tick("occurrence", "OccurrenceIndicator_A"),
    Tick("claims_made", "ClaimsMadeIndicator_A"),
    Letter("InsurerLetterCode_A", "A"),
    Number("PolicyNumberIdentifier_A", true),
    Date("effective_date", "PolicyEffectiveDate_A"),
    Date("expiration_date", "PolicyExpirationDate_A")
  ]

  /** The general-liability limits of map_acord25.py. */
  const GlLimits: seq<Entry> := [
    Copy("occurrence_limit", "EachOccurrence_LimitAmount_A"),
    Copy("aggregate_limit", "GeneralAggregate_LimitAmount_A"),
    Copy("fire_damage_limit", "FireDamageRentedPremises_EachOccurrenceLimitAmount_A"),
    Copy("med_exp_limit", "MedicalExpense_AnyOnePersonLimitAmount_A"),
    Copy("personal_adv_limit", "PersonalAndAdvertisingInjury_LimitAmount_A"),
    Copy("products_completed_limit", "ProductsCompletedOperationsAggregate_LimitAmount_A")
  ]

  const AutoEntries: seq<Entry> := [
    Letter("InsurerLetterCode_A", "B"),
    Number("PolicyNumberIdentifier_A", false),
    Date("effective_date", "PolicyEffectiveDate_A"),
    Date("expiration_date", "PolicyExpirationDate_A"),
    Copy("combined_single_limit", "CombinedSingleLimit_EachAccidentAmount_A"),
    Tick("any_auto", "AnyAutoIndicator_A"),
    Tick("hired", "HiredAutosOnlyIndicator_A"),
    Tick("non_owned", "NonOwnedAutosOnlyIndicator_A")
  ]

  const UmbrellaEntries: seq<Entry> := [
    Letter("InsurerLetterCode_A", "C"),
    Number("PolicyNumberIdentifier_A", false),
    Date("effective_date", "PolicyEffectiveDate_A"),
    Date("expiration_date", "PolicyExpirationDate_A"),
    Copy("each_occurrence", "Umbrella_EachOccurrenceAmount_A"),
    Copy("aggregate", "Umbrella_AggregateAmount_A")
  ]

  const WcEntries: seq<Entry> := [
    Letter("InsurerLetterCode_A", "D"),
    Number("PolicyNumberIdentifier_A", false),
    Date("effective_date", "PolicyEffectiveDate_A"),
    Date("expiration_date", "PolicyExpirationDate_A"),
    Tick("statutory", "StatutoryLimitsIndicator_A"),
    Copy("el_each_accident", "EachAccident_LimitAmount_A"),
    Copy("el_disease_policy", "DiseasePolicyLimit_LimitAmount_A"),
    Copy("el_disease_each", "DiseaseEachEmployee_LimitAmount_A")
  ]

  /** The four lines in the order they are written, with the
      general-liability limits of the copy. */
  function Lines(glLimits: seq<Entry>): seq<Line> {
    [Line("gl", GlPrefix, GlHead + glLimits),
     Line("auto", AutoPrefix, AutoEntries),
     Line("umbrella", UmbrellaPrefix, UmbrellaEntries),
     Line("workers_comp", WcPrefix, WcEntries)]
  }

  /** `if line.get("has"): ...`. */
  function LineWrites(line: Json, pol: Json, l: Line): Writes {
    if Flag(line, "has") then EntryWrites(line, pol, l.prefix, l.entries) else []
  }

  /** The lines in order, each read from `coverages.get(key, {})`. */
  function CoverageWrites(cov: Json, pol: Json, ls: seq<Line>): Writes {
    if ls == [] then []
    else CoverageWrites(cov, pol, ls[..|ls| - 1]) + LineWrites(Sub(cov, ls[|ls| - 1].key), pol, ls[|ls| - 1])
  }

  // ----- certificate holder, remark and additional-insured codes -----

  const HolderPrefix := "CertificateHolder_"

  const HolderFields: seq<Entry> := [
    Copy("name", "FullName_A"),
    Copy("address_line1", "MailingAddress_LineOne_A"),
    Copy("address_line2", "MailingAddress_LineTwo_A"),
    Copy("city", "MailingAddress_CityName_A"),
    Copy("state", "MailingAddress_StateOrProvinceCode_A"),
    Copy("zip", "MailingAddress_PostalCode_A")
  ]

  const RemarkField := "CertificateOfLiabilityInsurance_" + "ACORDForm_RemarkText_A"
  const CodePrefix := "CertificateOfInsurance_"
  const GlCodeField := CodePrefix + "GeneralLiability_AdditionalInsuredCode_A"
  const AutoCodeField := CodePrefix + "AutomobileLiability_AdditionalInsuredCode_A"

  const WaiverText := "Waiver of Subrogation applies in favor of the Certificate Holder as required by written contract."
  const PrimaryText := "Coverage is Primary and Non-Contributory as required by written contract."

  /** The additional-insured sentence for the holder's name. */
  function AdditionalInsuredText(name: Json): string {
    PyStr(name) + " is included as Additional Insured as required by written contract."
  }

  /** `desc_parts`: the sentences of the set flags, in a fixed order;
      `ch['name']` raises when the holder is an additional insured without
      a name. */
  function RemarkParts(holder: Json): Result<seq<string>, string> {
    if Flag(holder, "additional_insured") && !Has(holder, "name") then Failure("KeyError: 'name'")
    else Success(
      (if Flag(holder, "additional_insured") then [AdditionalInsuredText(Get(holder, "name"))] else [])
      + (if Flag(holder, "waiver_of_subrogation") then [WaiverText] else [])
      + (if Flag(holder, "primary_noncontributory") then [PrimaryText] else [])
      + (if Flag(holder, "additional_description") then [Str(Get(holder, "additional_description"))] else []))
  }

  /** `if desc_parts: fields[...] = "\n".join(desc_parts)`. */
  function RemarkWrites(parts: seq<string>): Writes {
    When(parts != [], Field(RemarkField), JStr(Join("\n", parts)))
  }

  /** The "Y" codes of the general-liability and automobile lines. */
  function CodeWrites(pd: Json, holder: Json): Writes {
    var cov := Sub(pd, "coverages");
    if Flag(holder, "additional_insured") then
      When(Flag(Sub(cov, "gl"), "has"), Field(GlCodeField), JStr("Y"))
      + When(Flag(Sub(cov, "auto"), "has"), Field(AutoCodeField), JStr("Y"))
    else []
  }

  // ----- the whole mapper -----

  /** The lines of map_acord25.py. */
  const FormLines := Lines(GlLimits)

  /** The steps after the insurers table and before the remark. */
  function MiddleWrites(pd: Json, holder: Json, agency: Json, today: string, lines: seq<Line>): Writes {
    PartyWrites(pd, agency, today)
    + CoverageWrites(Sub(pd, "coverages"), Sub(pd, "policy"), lines)
    + EntryWrites(holder, JObj([]), HolderPrefix, HolderFields)
  }

  /** The insurers table and slot A. */
  function HeadWrites(pd: Json): Result<Writes, string> {
    var insurers := Insurers(pd);
    var named := InsurerWrites(insurers, Min(5, |insurers|));
    if named.Failure? then named else Success(named.value + SlotAWrites(insurers))
  }

  /** The remark and the additional-insured codes. */
  function TailWrites(pd: Json, holder: Json): Result<Writes, string> {
    var parts := RemarkParts(holder);
    if parts.Failure? then Failure(parts.error) else Success(RemarkWrites(parts.value) + CodeWrites(pd, holder))
  }

  /** Every assignment of `map_to_acord25`, or the error it raises: the
      insurers table raises before the remark does. */
  function Acord25Writes(pd: Json, holder: Json, agency: Json, today: string, lines: seq<Line>): Result<Writes, string> {
    var head := HeadWrites(pd);
    var tail := TailWrites(pd, holder);
    if head.Failure? then head
    else if tail.Failure? then tail
    else Success(head.value + MiddleWrites(pd, holder, agency, today, lines) + tail.value)
  }

  /** The dict `map_to_acord25` returns. */
  function Acord25Fields(pd: Json, holder: Json, agency: Json, today: string, lines: seq<Line>): Result<FieldMap, string> {
    var ws := Acord25Writes(pd, holder, agency, today, lines);
    if ws.Failure? then Failure(ws.error) else Success(PutAll([], ws.value))
  }

  /** `map_to_acord25(policy_data, cert_holder, agency)`, with the date of
      the run passed in and the coverage lines of the copy. */
  method MapToAcord25(pd: Json, holder: Json, agency: Json, today: string, lines: seq<Line>)
    returns (r: Result<FieldMap, string>)
    requires |lines| == 4
    ensures r == Acord25Fields(pd, holder, agency, today, lines)
  {
    var head := PutHead(pd);
    if head.Failure? {
      return Failure(head.error);
    }
    var middle := PutMiddle(head.value, pd, holder, agency, today, lines);
    var tail := PutTail(middle, pd, holder);
    if tail.Failure? {
      return Failure(tail.error);
    }
    StagedFields(pd, holder, agency, today, lines);
    r := Success(tail.value);
  }

  /** The dict is what the three stages leave, one after the other. */
  lemma StagedFields(pd: Json, holder: Json, agency: Json, today: string, lines: seq<Line>)
    requires HeadWrites(pd).Success? && TailWrites(pd, holder).Success?
    ensures Acord25Fields(pd, holder, agency, today, lines) ==
      Success(PutAll(PutAll(PutAll([], HeadWrites(pd).value), MiddleWrites(pd, holder, agency, today, lines)), TailWrites(pd, holder).value))
  {
    var h := HeadWrites(pd).value;
    var m := MiddleWrites(pd, holder, agency, today, lines);
    PutAllAppend([], h, m);
    PutAllAppend([], h + m, TailWrites(pd, holder).value);
  }

  /** The insurer loop and `if insurers:`. */
  method PutHead(pd: Json) returns (r: Result<FieldMap, string>)
    ensures var head := HeadWrites(pd);
      r == if head.Failure? then Failure(head.error) else Success(PutAll([], head.value))
  {
    var insurers := Insurers(pd);
    var named := PutInsurers([], insurers);
    if named.Failure? {
      return Failure(named.error);
    }
    if insurers != [] {
      PutAllAppend([], InsurerWrites(insurers, Min(5, |insurers|)).value, SlotAWrites(insurers));
      r := Success(PutAll(named.value, InsurerSlot(insurers[0], "A")));
    } else {
      assert InsurerWrites(insurers, 0).value + [] == InsurerWrites(insurers, 0).value;
      r := named;
    }
  }

  /** `desc_parts`, the remark and the additional-insured codes. */
  method PutTail(fields: FieldMap, pd: Json, holder: Json) returns (r: Result<FieldMap, string>)
    ensures var tail := TailWrites(pd, holder);
      r == if tail.Failure? then Failure(tail.error) else Success(PutAll(fields, tail.value))
  {
    var parts := BuildRemark(holder);
    if parts.Failure? {
      return Failure(parts.error);
    }
    var remark := RemarkWrites(parts.value);
    var withRemark := PutAll(fields, remark);
    PutAllAppend(fields, remark, CodeWrites(pd, holder));
    r := Success(PutAll(withRemark, CodeWrites(pd, holder)));
  }

  /** `for insurer in insurers[:5]`. */
  method PutInsurers(fields: FieldMap, insurers: seq<Json>) returns (r: Result<FieldMap, string>)
    ensures var named := InsurerWrites(insurers, Min(5, |insurers|));
      r == if named.Failure? then Failure(named.error) else Success(PutAll(fields, named.value))
  {
    var count := Min(5, |insurers|);
    var acc := fields;
    var i := 0;
    while i < count
      invariant 0 <= i <= count
      invariant InsurerWrites(insurers, i).Success?
      invariant acc == PutAll(fields, InsurerWrites(insurers, i).value)
    {
      var letter := InsurerLetter(insurers[i]);
      if letter.Failure? {
        LaterFailures(insurers, i + 1, count);
        return Failure(letter.error);
      }
      PutAllAppend(fields, InsurerWrites(insurers, i).value, InsurerSlot(insurers[i], letter.value));
      acc := PutAll(acc, InsurerSlot(insurers[i], letter.value));
      i := i + 1;
    }
    r := Success(acc);
  }

  /** Once an insurer has raised, so has every longer prefix, with the
      same error. */
  lemma {:induction false} LaterFailures(insurers: seq<Json>, failed: nat, count: nat)
    requires 1 <= failed <= count <= |insurers|
    requires InsurerWrites(insurers, failed).Failure?
    ensures InsurerWrites(insurers, count) == InsurerWrites(insurers, failed)
  {
    if count > failed {
      LaterFailures(insurers, failed, count - 1);
    }
  }

  /** The parties, the coverage lines and the certificate holder. */
  method PutMiddle(fields: FieldMap, pd: Json, holder: Json, agency: Json, today: string, lines: seq<Line>)
    returns (r: FieldMap)
    requires |lines| == 4
    ensures r == PutAll(fields, MiddleWrites(pd, holder, agency, today, lines))
  {
    var parties := PartyWrites(pd, agency, today);
    r := PutAll(fields, parties);
    var coverage := CoverageWrites(Sub(pd, "coverages"), Sub(pd, "policy"), lines);
    r := PutCoverages(r, Sub(pd, "coverages"), Sub(pd, "policy"), lines);
    PutAllAppend(fields, parties, coverage);
    r := PutAll(r, EntryWrites(holder, JObj([]), HolderPrefix, HolderFields));
    PutAllAppend(fields, parties + coverage, EntryWrites(holder, JObj([]), HolderPrefix, HolderFields));
  }

  /** The four `if line.get("has"):` blocks, in order. */
  method PutCoverages(fields: FieldMap, cov: Json, pol: Json, ls: seq<Line>) returns (r: FieldMap)
    requires |ls| == 4
    ensures r == PutAll(fields, CoverageWrites(cov, pol, ls))
  {
    var gl := LineWrites(Sub(cov, ls[0].key), pol, ls[0]);
    var auto := LineWrites(Sub(cov, ls[1].key), pol, ls[1]);
    var umbrella := LineWrites(Sub(cov, ls[2].key), pol, ls[2]);
    var wc := LineWrites(Sub(cov, ls[3].key), pol, ls[3]);
    assert ls[..1][..0] == [] && ls[..2][..1] == ls[..1] && ls[..3][..2] == ls[..2] && ls[..4][..3] == ls[..3] && ls[..4] == ls;
    assert CoverageWrites(cov, pol, ls[..1]) == [] + gl;
    assert CoverageWrites(cov, pol, ls[..2]) == [] + gl + auto;
    assert CoverageWrites(cov, pol, ls[..3]) == [] + gl + auto + umbrella;
    assert CoverageWrites(cov, pol, ls) == [] + gl + auto + umbrella + wc;
    r := PutLine(fields, Sub(cov, ls[0].key), pol, ls[0]);
    assert [] + gl == gl;
    r := PutLine(r, Sub(cov, ls[1].key), pol, ls[1]);
    PutAllAppend(fields, gl, auto);
    r := PutLine(r, Sub(cov, ls[2].key), pol, ls[2]);
    PutAllAppend(fields, gl + auto, umbrella);
    r := PutLine(r, Sub(cov, ls[3].key), pol, ls[3]);
    PutAllAppend(fields, gl + auto + umbrella, wc);
  }

  /** One `if line.get("has"):` block. */
  method PutLine(fields: FieldMap, line: Json, pol: Json, l: Line) returns (r: FieldMap)
    ensures r == PutAll(fields, LineWrites(line, pol, l))
  {
    if Flag(line, "has") {
      r := PutAll(fields, LineWrites(line, pol, l));
    } else {
      r := fields;
    }
  }

  /** `desc_parts = []` and its four appends. */
  method BuildRemark(holder: Json) returns (r: Result<seq<string>, string>)
    ensures r == RemarkParts(holder)
  {
    var parts: seq<string> := [];
    if Flag(holder, "additional_insured") {
      if !Has(holder, "name") {
        return Failure("KeyError: 'name'");
      }
      parts := parts + [AdditionalInsuredText(Get(holder, "name"))];
    }
    ghost var want := if Flag(holder, "additional_insured") then [AdditionalInsuredText(Get(holder, "name"))] else [];
    assert parts == want;
    if Flag(holder, "waiver_of_subrogation") {
      parts := parts + [WaiverText];
    }
    want := want + (if Flag(holder, "waiver_of_subrogation") then [WaiverText] else []);
    assert parts == want;
    if Flag(holder, "primary_noncontributory") {
      parts := parts + [PrimaryText];
    }
    want := want + (if Flag(holder, "primary_noncontributory") then [PrimaryText] else []);
    assert parts == want;
    if Flag(holder, "additional_description") {
      parts := parts + [Str(Get(holder, "additional_description"))];
    }
    want := want + (if Flag(holder, "additional_description") then [Str(Get(holder, "additional_description"))] else []);
    assert parts == want;
    r := Success(parts);
  }
}
