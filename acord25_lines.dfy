/** The coverage lines of the ACORD 25 dict, field by field: a line's fields
    are there only when the line `has` coverage, with the defaults and
    fallbacks of `map_to_acord25`. Every fact holds for any
    general-liability limits that name their own fields, so for both copies
    of the mapper. */
module Acord25Lines {
  import opened Wrappers
  import opened Json
  import opened FieldMap
  import opened FieldData
  import opened MapAcord25
  import opened Acord25Facts
  import opened Acord25Lookups

  /** The dict of a run that did not raise. */
  function Filled(pd: Json, holder: Json, agency: Json, today: string, limits: seq<Entry>): FieldMap
    requires Acord25Fields(pd, holder, agency, today, Lines(limits)).Success?
  {
    Acord25Fields(pd, holder, agency, today, Lines(limits)).value
  }

  /** `coverages.get(key, {})`. */
  function Coverage(pd: Json, key: string): Json {
    Sub(Sub(pd, "coverages"), key)
  }

  /** Entry `i` of the general-liability head. */
  lemma GlEntry(limits: seq<Entry>, i: nat, e: Entry)
    requires i < |GlHead| && GlHead[i] == e
    ensures Lines(limits)[0].key == "gl" && Lines(limits)[0].prefix == GlPrefix
    ensures i < |Lines(limits)[0].entries| && Lines(limits)[0].entries[i] == e
  {
    assert (GlHead + limits)[i] == GlHead[i];
  }

  /** Entry `i` of the automobile line. */
  lemma AutoEntry(limits: seq<Entry>, i: nat, e: Entry)
    requires i < |AutoEntries| && AutoEntries[i] == e
    ensures Lines(limits)[1].key == "auto" && Lines(limits)[1].prefix == AutoPrefix
    ensures i < |Lines(limits)[1].entries| && Lines(limits)[1].entries[i] == e
  {
  }

  /** The entries the letter and policy-number lemmas below read. */
  lemma HeadsAt()
    ensures |GlHead| > 4 && GlHead[3] == Letter("InsurerLetterCode_A", "A") && GlHead[4] == Number("PolicyNumberIdentifier_A", true)
    ensures |AutoEntries| > 1 && AutoEntries[0] == Letter("InsurerLetterCode_A", "B") && AutoEntries[1] == Number("PolicyNumberIdentifier_A", false)
  {
  }

  /** A field of one of the form's lines, given its entry. */
  lemma FormEntry(pd: Json, holder: Json, agency: Json, today: string, limits: seq<Entry>, j: nat, i: nat, key: string, prefix: string, e: Entry)
    requires LimitsOk(limits) && Acord25Fields(pd, holder, agency, today, Lines(limits)).Success?
    requires j < 4 && Lines(limits)[j].key == key && Lines(limits)[j].prefix == prefix
    requires i < |Lines(limits)[j].entries| && Lines(limits)[j].entries[i] == e
    ensures var line := Coverage(pd, key);
      Lookup(Filled(pd, holder, agency, today, limits), Field(prefix + e.name)) ==
        if Flag(line, "has") then EntryValue(line, Sub(pd, "policy"), e) else None
  {
    FormCoverageField(pd, holder, agency, today, limits, j, i);
  }

  /** The insurer letter of each line defaults to A, B, C and D. */
  lemma GlLetter(pd: Json, holder: Json, agency: Json, today: string, limits: seq<Entry>)
    requires LimitsOk(limits) && Acord25Fields(pd, holder, agency, today, Lines(limits)).Success?
    ensures var gl := Coverage(pd, "gl");
      Lookup(Filled(pd, holder, agency, today, limits), Field(GlPrefix + "InsurerLetterCode_A")) ==
        if Flag(gl, "has") then Some(GetOr(gl, "insurer_letter", JStr("A"))) else None
  {
    var e := Letter("InsurerLetterCode_A", "A");
    HeadsAt();
    GlEntry(limits, 3, e);
    FormEntry(pd, holder, agency, today, limits, 0, 3, "gl", GlPrefix, e);
  }

  lemma AutoLetter(pd: Json, holder: Json, agency: Json, today: string, limits: seq<Entry>)
    requires LimitsOk(limits) && Acord25Fields(pd, holder, agency, today, Lines(limits)).Success?
    ensures var auto := Coverage(pd, "auto");
      Lookup(Filled(pd, holder, agency, today, limits), Field(AutoPrefix + "InsurerLetterCode_A")) ==
        if Flag(auto, "has") then Some(GetOr(auto, "insurer_letter", JStr("B"))) else None
  {
    var e := Letter("InsurerLetterCode_A", "B");
    HeadsAt();
    AutoEntry(limits, 0, e);
    FormEntry(pd, holder, agency, today, limits, 1, 0, "auto", AutoPrefix, e);
  }

  lemma UmbrellaLetter(pd: Json, holder: Json, agency: Json, today: string, limits: seq<Entry>)
    requires LimitsOk(limits) && Acord25Fields(pd, holder, agency, today, Lines(limits)).Success?
    ensures var umb := Coverage(pd, "umbrella");
      Lookup(Filled(pd, holder, agency, today, limits), Field(UmbrellaPrefix + "InsurerLetterCode_A")) ==
        if Flag(umb, "has") then Some(GetOr(umb, "insurer_letter", JStr("C"))) else None
  {
    FormCoverageField(pd, holder, agency, today, limits, 2, 0);
  }

  lemma WcLetter(pd: Json, holder: Json, agency: Json, today: string, limits: seq<Entry>)
    requires LimitsOk(limits) && Acord25Fields(pd, holder, agency, today, Lines(limits)).Success?
    ensures var wc := Coverage(pd, "workers_comp");
      Lookup(Filled(pd, holder, agency, today, limits), Field(WcPrefix + "InsurerLetterCode_A")) ==
        if Flag(wc, "has") then Some(GetOr(wc, "insurer_letter", JStr("D"))) else None
  {
    FormCoverageField(pd, holder, agency, today, limits, 3, 0);
  }

  /** The general-liability policy number falls back to the legacy
      policy's number; the other lines' fall back to "". */
  lemma GlPolicyNumber(pd: Json, holder: Json, agency: Json, today: string, limits: seq<Entry>)
    requires LimitsOk(limits) && Acord25Fields(pd, holder, agency, today, Lines(limits)).Success?
    ensures var gl := Coverage(pd, "gl");
      Lookup(Filled(pd, holder, agency, today, limits), Field(GlPrefix + "PolicyNumberIdentifier_A")) ==
        if Flag(gl, "has") then Some(GetOr(gl, "policy_number", GetOr(Sub(pd, "policy"), "number", JStr("")))) else None
  {
    var e := Number("PolicyNumberIdentifier_A", true);
    HeadsAt();
    GlEntry(limits, 4, e);
    FormEntry(pd, holder, agency, today, limits, 0, 4, "gl", GlPrefix, e);
  }

  lemma AutoPolicyNumber(pd: Json, holder: Json, agency: Json, today: string, limits: seq<Entry>)
    requires LimitsOk(limits) && Acord25Fields(pd, holder, agency, today, Lines(limits)).Success?
    ensures var auto := Coverage(pd, "auto");
      Lookup(Filled(pd, holder, agency, today, limits), Field(AutoPrefix + "PolicyNumberIdentifier_A")) ==
        if Flag(auto, "has") then Some(GetOr(auto, "policy_number", JStr(""))) else None
  {
    var e := Number("PolicyNumberIdentifier_A", false);
    HeadsAt();
    AutoEntry(limits, 1, e);
    FormEntry(pd, holder, agency, today, limits, 1, 1, "auto", AutoPrefix, e);
  }

  /** A date field holds the line's date, or the legacy policy's, when the
      line has coverage, and is not assigned otherwise. */
  lemma DateField(pd: Json, holder: Json, agency: Json, today: string, ls: seq<Line>, j: nat, i: nat)
    requires Acord25Fields(pd, holder, agency, today, ls).Success?
    requires LinesTagged(ls, LineTags) && j < |ls| && i < |ls[j].entries| && Unique(ls[j].entries)
    requires ls[j].entries[i].Date?
    ensures var line := Coverage(pd, ls[j].key);
      Lookup(Acord25Fields(pd, holder, agency, today, ls).value, Field(ls[j].prefix + ls[j].entries[i].name)) ==
        if Flag(line, "has") then Some(LineDate(line, Sub(pd, "policy"), ls[j].entries[i].key)) else None
  {
    CoverageField(pd, holder, agency, today, ls, j, i);
  }

  /** The same, for the form's own lines. */
  lemma FormDate(pd: Json, holder: Json, agency: Json, today: string, limits: seq<Entry>, j: nat, i: nat)
    requires LimitsOk(limits) && Acord25Fields(pd, holder, agency, today, Lines(limits)).Success?
    requires j < 4 && i < |Lines(limits)[j].entries| && Lines(limits)[j].entries[i].Date?
    ensures var l := Lines(limits)[j];
      var line := Coverage(pd, l.key);
      Lookup(Filled(pd, holder, agency, today, limits), Field(l.prefix + l.entries[i].name)) ==
        if Flag(line, "has") then Some(LineDate(line, Sub(pd, "policy"), l.entries[i].key)) else None
  {
    LinesOfForm(limits);
    LinesUnique(limits, j);
    DateField(pd, holder, agency, today, Lines(limits), j, i);
  }

  /** An indicator is "Yes" exactly when its line has coverage and its
      flag is set, and is never assigned anything else. */
  lemma IndicatorField(pd: Json, holder: Json, agency: Json, today: string, ls: seq<Line>, j: nat, i: nat)
    requires Acord25Fields(pd, holder, agency, today, ls).Success?
    requires LinesTagged(ls, LineTags) && j < |ls| && i < |ls[j].entries| && Unique(ls[j].entries)
    requires ls[j].entries[i].Tick?
    ensures var line := Coverage(pd, ls[j].key);
      var v := Lookup(Acord25Fields(pd, holder, agency, today, ls).value, Field(ls[j].prefix + ls[j].entries[i].name));
      (v == Some(Yes) <==> Flag(line, "has") && Flag(line, ls[j].entries[i].key)) &&
      (v != Some(Yes) ==> v == None)
  {
    CoverageField(pd, holder, agency, today, ls, j, i);
  }

  /** The same, for the form's own lines. */
  lemma FormIndicator(pd: Json, holder: Json, agency: Json, today: string, limits: seq<Entry>, j: nat, i: nat)
    requires LimitsOk(limits) && Acord25Fields(pd, holder, agency, today, Lines(limits)).Success?
    requires j < 4 && i < |Lines(limits)[j].entries| && Lines(limits)[j].entries[i].Tick?
    ensures var l := Lines(limits)[j];
      var line := Coverage(pd, l.key);
      var v := Lookup(Filled(pd, holder, agency, today, limits), Field(l.prefix + l.entries[i].name));
      (v == Some(Yes) <==> Flag(line, "has") && Flag(line, l.entries[i].key)) &&
      (v != Some(Yes) ==> v == None)
  {
    LinesOfForm(limits);
    LinesUnique(limits, j);
    IndicatorField(pd, holder, agency, today, Lines(limits), j, i);
  }
}
