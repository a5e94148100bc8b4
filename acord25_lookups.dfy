/** The dict `map_to_acord25` returns, read field by field: each field is
    decided by the one step whose letter its name starts with, so what the
    mapper promises about a step holds of the returned dict. The
    general-liability limits are a parameter, so every fact holds of both
    copies of the mapper. */
module Acord25Lookups {
  import opened Wrappers
  import opened Json
  import opened Text
  import opened FieldMap
  import opened FieldData
  import opened FieldFacts
  import opened MapAcord25
  import opened Acord25Facts

  /** The first letters of the four lines' prefixes, in order. */
  const LineTags: seq<char> := ['G', 'A', 'E', 'W']

  lemma LinesOfForm(limits: seq<Entry>)
    ensures LinesTagged(Lines(limits), LineTags)
    ensures forall a, b :: 0 <= a < b < |LineTags| ==> LineTags[a] != LineTags[b]
  {
  }

  /** The general-liability limits name distinct fields, none of which
      the entries before them name. */
  predicate LimitsOk(limits: seq<Entry>) {
    Unique(limits) && Apart(GlHead, limits)
  }

  lemma FormLimitsOk()
    ensures LimitsOk(GlLimits)
  {
    GlLimitsUnique();
    GlLimitsApart();
  }

  lemma LinesUnique(limits: seq<Entry>, j: nat)
    requires LimitsOk(limits) && j < 4
    ensures Unique(Lines(limits)[j].entries)
  {
    if j == 0 {
      GlHeadUnique();
      UniqueAppend(GlHead, limits);
    } else if j == 1 {
      AutoUnique();
    } else if j == 2 {
      UmbrellaUnique();
    } else {
      WcUnique();
    }
  }

  // ----- which step decides a field -----

  /** The dict read at `k` is the last assignment to `k` by the insurers
      table, the middle steps and the tail. */
  lemma ReadsLast(pd: Json, holder: Json, agency: Json, today: string, lines: seq<Line>, k: string)
    requires Acord25Fields(pd, holder, agency, today, lines).Success?
    ensures HeadWrites(pd).Success? && TailWrites(pd, holder).Success?
    ensures Lookup(Acord25Fields(pd, holder, agency, today, lines).value, k) ==
      LastValue(HeadWrites(pd).value + MiddleWrites(pd, holder, agency, today, lines) + TailWrites(pd, holder).value, k)
  {
    PutAllLookup([], Acord25Writes(pd, holder, agency, today, lines).value, k);
  }

  /** Over the five stages, a key that all but one stage leave alone
      holds what that stage gives it. */
  lemma OnlyHead(h: Writes, x: Writes, y: Writes, z: Writes, t: Writes, k: string)
    requires LastValue(x, k) == None && LastValue(y, k) == None && LastValue(z, k) == None && LastValue(t, k) == None
    ensures LastValue(h + (x + y + z) + t, k) == LastValue(h, k)
  {
    LastValueAppend(h + (x + y + z), t, k);
    LastValueAppend(h, x + y + z, k);
    LastValueAppend(x + y, z, k);
    LastValueAppend(x, y, k);
  }

  lemma OnlyParty(h: Writes, x: Writes, y: Writes, z: Writes, t: Writes, k: string)
    requires LastValue(h, k) == None && LastValue(y, k) == None && LastValue(z, k) == None && LastValue(t, k) == None
    ensures LastValue(h + (x + y + z) + t, k) == LastValue(x, k)
  {
    LastValueAppend(h + (x + y + z), t, k);
    LastValueAppend(h, x + y + z, k);
    LastValueAppend(x + y, z, k);
    LastValueAppend(x, y, k);
  }

  lemma OnlyLines(h: Writes, x: Writes, y: Writes, z: Writes, t: Writes, k: string)
    requires LastValue(h, k) == None && LastValue(x, k) == None && LastValue(z, k) == None && LastValue(t, k) == None
    ensures LastValue(h + (x + y + z) + t, k) == LastValue(y, k)
  {
    LastValueAppend(h + (x + y + z), t, k);
    LastValueAppend(h, x + y + z, k);
    LastValueAppend(x + y, z, k);
    LastValueAppend(x, y, k);
  }

  /** The holder and the tail come last; the tail wins. */
  lemma OnlyEnd(h: Writes, x: Writes, y: Writes, z: Writes, t: Writes, k: string)
    requires LastValue(h, k) == None && LastValue(x, k) == None && LastValue(y, k) == None
    ensures LastValue(h + (x + y + z) + t, k) == if LastValue(t, k).Some? then LastValue(t, k) else LastValue(z, k)
  {
    LastValueAppend(h + (x + y + z), t, k);
    LastValueAppend(h, x + y + z, k);
    LastValueAppend(x + y, z, k);
    LastValueAppend(x, y, k);
  }

  /** The insurers table assigns only insurer fields. */
  lemma HeadMisses(pd: Json, k: string)
    requires HeadWrites(pd).Success? && |k| > 11 && k[11] !in InsurerTags
    ensures LastValue(HeadWrites(pd).value, k) == None
  {
    HeadInitials(pd);
    MissByInitial(HeadWrites(pd).value, InsurerTags, k);
  }

  /** The parties assign only party fields. */
  lemma PartyMisses(pd: Json, agency: Json, today: string, k: string)
    requires |k| > 11 && k[11] !in PartyTags
    ensures LastValue(PartyWrites(pd, agency, today), k) == None
  {
    PartyInitials(pd, agency, today);
    MissByInitial(PartyWrites(pd, agency, today), PartyTags, k);
  }

  /** The lines assign only fields of the line letters. */
  lemma CoverageMisses(pd: Json, lines: seq<Line>, k: string)
    requires LinesTagged(lines, LineTags) && |k| > 11 && k[11] !in Letters(LineTags)
    ensures LastValue(CoverageWrites(Sub(pd, "coverages"), Sub(pd, "policy"), lines), k) == None
  {
    CoverageInitials(Sub(pd, "coverages"), Sub(pd, "policy"), lines, LineTags);
    MissByInitial(CoverageWrites(Sub(pd, "coverages"), Sub(pd, "policy"), lines), Letters(LineTags), k);
  }

  /** The holder's entries assign only holder fields. */
  lemma HolderMisses(holder: Json, k: string)
    requires |k| > 11 && k[11] !in HolderTags
    ensures LastValue(EntryWrites(holder, JObj([]), HolderPrefix, HolderFields), k) == None
  {
    EntryInitials(holder, JObj([]), HolderPrefix, HolderFields);
    assert {HolderPrefix[0]} == HolderTags;
    MissByInitial(EntryWrites(holder, JObj([]), HolderPrefix, HolderFields), HolderTags, k);
  }

  /** The remark and the codes assign only holder fields. */
  lemma TailMisses(pd: Json, holder: Json, k: string)
    requires TailWrites(pd, holder).Success? && |k| > 11 && k[11] !in HolderTags
    ensures LastValue(TailWrites(pd, holder).value, k) == None
  {
    TailInitials(pd, holder);
    MissByInitial(TailWrites(pd, holder).value, HolderTags, k);
  }

  /** No step but the insurers table assigns an insurer field. */
  lemma OthersMissInsurer(pd: Json, holder: Json, agency: Json, today: string, lines: seq<Line>, k: string)
    requires HeadWrites(pd).Success? && TailWrites(pd, holder).Success?
    requires LinesTagged(lines, LineTags) && |k| > 11 && k[11] in InsurerTags
    ensures LastValue(PartyWrites(pd, agency, today), k) == None
    ensures LastValue(CoverageWrites(Sub(pd, "coverages"), Sub(pd, "policy"), lines), k) == None
    ensures LastValue(EntryWrites(holder, JObj([]), HolderPrefix, HolderFields), k) == None
    ensures LastValue(TailWrites(pd, holder).value, k) == None
  {
    PartyMisses(pd, agency, today, k);
    CoverageMisses(pd, lines, k);
    HolderMisses(holder, k);
    TailMisses(pd, holder, k);
  }

  /** An insurer field is decided by the insurers table and slot A. */
  lemma HeadDecides(pd: Json, holder: Json, agency: Json, today: string, lines: seq<Line>, k: string)
    requires Acord25Fields(pd, holder, agency, today, lines).Success?
    requires LinesTagged(lines, LineTags) && |k| > 11 && k[11] in InsurerTags
    ensures Lookup(Acord25Fields(pd, holder, agency, today, lines).value, k) == LastValue(HeadWrites(pd).value, k)
  {
    ReadsLast(pd, holder, agency, today, lines, k);
    OthersMissInsurer(pd, holder, agency, today, lines, k);
    OnlyHead(HeadWrites(pd).value, PartyWrites(pd, agency, today), CoverageWrites(Sub(pd, "coverages"), Sub(pd, "policy"), lines),
      EntryWrites(holder, JObj([]), HolderPrefix, HolderFields), TailWrites(pd, holder).value, k);
  }

  /** No step but the parties assign a party field. */
  lemma OthersMissParty(pd: Json, holder: Json, agency: Json, today: string, lines: seq<Line>, k: string)
    requires HeadWrites(pd).Success? && TailWrites(pd, holder).Success?
    requires LinesTagged(lines, LineTags) && |k| > 11 && k[11] in PartyTags
    ensures LastValue(HeadWrites(pd).value, k) == None
    ensures LastValue(CoverageWrites(Sub(pd, "coverages"), Sub(pd, "policy"), lines), k) == None
    ensures LastValue(EntryWrites(holder, JObj([]), HolderPrefix, HolderFields), k) == None
    ensures LastValue(TailWrites(pd, holder).value, k) == None
  {
    HeadMisses(pd, k);
    CoverageMisses(pd, lines, k);
    HolderMisses(holder, k);
    TailMisses(pd, holder, k);
  }

  /** A party field is decided by the parties. */
  lemma PartyDecides(pd: Json, holder: Json, agency: Json, today: string, lines: seq<Line>, k: string)
    requires Acord25Fields(pd, holder, agency, today, lines).Success?
    requires LinesTagged(lines, LineTags) && |k| > 11 && k[11] in PartyTags
    ensures Lookup(Acord25Fields(pd, holder, agency, today, lines).value, k) == LastValue(PartyWrites(pd, agency, today), k)
  {
    ReadsLast(pd, holder, agency, today, lines, k);
    OthersMissParty(pd, holder, agency, today, lines, k);
    OnlyParty(HeadWrites(pd).value, PartyWrites(pd, agency, today), CoverageWrites(Sub(pd, "coverages"), Sub(pd, "policy"), lines),
      EntryWrites(holder, JObj([]), HolderPrefix, HolderFields), TailWrites(pd, holder).value, k);
  }

  /** No step but the coverage lines assigns a line field. */
  lemma OthersMissLine(pd: Json, holder: Json, agency: Json, today: string, lines: seq<Line>, k: string)
    requires HeadWrites(pd).Success? && TailWrites(pd, holder).Success?
    requires LinesTagged(lines, LineTags) && |k| > 11 && k[11] in Letters(LineTags)
    ensures LastValue(HeadWrites(pd).value, k) == None
    ensures LastValue(PartyWrites(pd, agency, today), k) == None
    ensures LastValue(EntryWrites(holder, JObj([]), HolderPrefix, HolderFields), k) == None
    ensures LastValue(TailWrites(pd, holder).value, k) == None
  {
    HeadMisses(pd, k);
    PartyMisses(pd, agency, today, k);
    HolderMisses(holder, k);
    TailMisses(pd, holder, k);
  }

  /** A line field is decided by the coverage lines. */
  lemma CoverageDecides(pd: Json, holder: Json, agency: Json, today: string, lines: seq<Line>, k: string)
    requires Acord25Fields(pd, holder, agency, today, lines).Success?
    requires LinesTagged(lines, LineTags) && |k| > 11 && k[11] in Letters(LineTags)
    ensures Lookup(Acord25Fields(pd, holder, agency, today, lines).value, k) == 
      LastValue(CoverageWrites(Sub(pd, "coverages"), Sub(pd, "policy"), lines), k)
  {
    ReadsLast(pd, holder, agency, today, lines, k);
    OthersMissLine(pd, holder, agency, today, lines, k);
    OnlyLines(HeadWrites(pd).value, PartyWrites(pd, agency, today), CoverageWrites(Sub(pd, "coverages"), Sub(pd, "policy"), lines),
      EntryWrites(holder, JObj([]), HolderPrefix, HolderFields), TailWrites(pd, holder).value, k);
  }

  /** No step before the certificate holder assigns a holder field. */
  lemma OthersMissHolder(pd: Json, holder: Json, agency: Json, today: string, lines: seq<Line>, k: string)
    requires HeadWrites(pd).Success?
    requires LinesTagged(lines, LineTags) && |k| > 11 && k[11] in HolderTags
    ensures LastValue(HeadWrites(pd).value, k) == None
    ensures LastValue(PartyWrites(pd, agency, today), k) == None
    ensures LastValue(CoverageWrites(Sub(pd, "coverages"), Sub(pd, "policy"), lines), k) == None
  {
    HeadMisses(pd, k);
    PartyMisses(pd, agency, today, k);
    CoverageMisses(pd, lines, k);
  }

  /** A holder field is decided by the holder's entries, unless the remark
      or the codes assign it later. */
  lemma HolderDecides(pd: Json, holder: Json, agency: Json, today: string, lines: seq<Line>, k: string)
    requires Acord25Fields(pd, holder, agency, today, lines).Success?
    requires LinesTagged(lines, LineTags) && |k| > 11 && k[11] in HolderTags
    ensures TailWrites(pd, holder).Success?
    ensures var t := LastValue(TailWrites(pd, holder).value, k);
      Lookup(Acord25Fields(pd, holder, agency, today, lines).value, k) ==
        if t.Some? then t else LastValue(EntryWrites(holder, JObj([]), HolderPrefix, HolderFields), k)
  {
    ReadsLast(pd, holder, agency, today, lines, k);
    OthersMissHolder(pd, holder, agency, today, lines, k);
    OnlyEnd(HeadWrites(pd).value, PartyWrites(pd, agency, today), CoverageWrites(Sub(pd, "coverages"), Sub(pd, "policy"), lines),
      EntryWrites(holder, JObj([]), HolderPrefix, HolderFields), TailWrites(pd, holder).value, k);
  }

  // ----- what the dict holds -----

  /** A coverage-line field: the line's entry's value when the line has
      coverage, and nothing when it has none, whatever the other steps do. */
  lemma CoverageField(pd: Json, holder: Json, agency: Json, today: string, ls: seq<Line>, j: nat, i: nat)
    requires Acord25Fields(pd, holder, agency, today, ls).Success?
    requires LinesTagged(ls, LineTags) && j < |ls| && i < |ls[j].entries| && Unique(ls[j].entries)
    ensures var line := Sub(Sub(pd, "coverages"), ls[j].key);
      Lookup(Acord25Fields(pd, holder, agency, today, ls).value, Field(ls[j].prefix + ls[j].entries[i].name)) ==
        if Flag(line, "has") then EntryValue(line, Sub(pd, "policy"), ls[j].entries[i]) else None
  {
    var k := Field(ls[j].prefix + ls[j].entries[i].name);
    LineKey(ls, j, i);
    CoverageDecides(pd, holder, agency, today, ls, k);
    CoverageStores(Sub(pd, "coverages"), Sub(pd, "policy"), ls, LineTags, j, i);
  }

  /** A field of line `j` carries a line tag, and the tags are distinct. */
  lemma LineKey(ls: seq<Line>, j: nat, i: nat)
    requires LinesTagged(ls, LineTags) && j < |ls| && i < |ls[j].entries|
    ensures var k := Field(ls[j].prefix + ls[j].entries[i].name);
      |k| > 11 && k[11] in Letters(LineTags)
    ensures forall a, b :: 0 <= a < b < |LineTags| ==> LineTags[a] != LineTags[b]
  {
    PrefixedInitial(ls[j].prefix, ls[j].entries[i].name);
    LinesOfForm([]);
  }

  /** The same, for the form's own lines. */
  lemma FormCoverageField(pd: Json, holder: Json, agency: Json, today: string, limits: seq<Entry>, j: nat, i: nat)
    requires LimitsOk(limits) && j < 4 && i < |Lines(limits)[j].entries|
    requires Acord25Fields(pd, holder, agency, today, Lines(limits)).Success?
    ensures var l := Lines(limits)[j];
      var line := Sub(Sub(pd, "coverages"), l.key);
      Lookup(Acord25Fields(pd, holder, agency, today, Lines(limits)).value, Field(l.prefix + l.entries[i].name)) ==
        if Flag(line, "has") then EntryValue(line, Sub(pd, "policy"), l.entries[i]) else None
  {
    LinesOfForm(limits);
    LinesUnique(limits, j);
    CoverageField(pd, holder, agency, today, Lines(limits), j, i);
  }
}
