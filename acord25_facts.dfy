/** What `map_to_acord25` promises: the legacy insurer, at most five
    insurer slots, slot A taken from the first insurer, coverage fields only
    for the lines that have coverage (with their default letters and the
    legacy fallbacks), indicators that are only ever "Yes", the remark and
    the additional-insured codes.

    Every field name has the form `F[0].P1[0].<name>[0]`; the first letter
    of `<name>` tells the steps apart (I: insurers; F, P, N: the date, the
    producer, the named insured; G, A, E, W: the four lines; C: the
    certificate holder, the remark and the codes), so a field is decided by
    the step that owns its letter. */
module Acord25Facts {
  import opened Wrappers
  import opened Json
  import opened Text
  import opened FieldMap
  import opened FieldData
  import opened FieldFacts
  import opened HistoryFacts
  import opened MapAcord25

  // ----- field names -----

  lemma FieldInjective(a: string, b: string)
    ensures Field(a) == Field(b) ==> a == b
  {
    StemTag(FormPage + a, FormPage + b, "[0]");
    PrefixKey(FormPage, a, b);
  }

  /** The twelfth character of a field is the first of its name. */
  lemma FieldInitial(n: string)
    requires |n| > 0
    ensures |Field(n)| > 11 && Field(n)[11] == n[0]
  {
    assert |FormPage| == 11;
    assert Field(n) == FormPage + (n + "[0]");
  }

  /** The letters the steps' field names start with: the insurers, the
      parties (date, producer, named insured), and the holder with the
      remark and the codes. */
  const InsurerTags: set<char> := {'I'}
  const PartyTags: set<char> := {'F', 'P', 'N'}
  const HolderTags: set<char> := {'C'}

  /** The letters of the date, the producer and the named insured. */
  const DateTags: set<char> := {'F'}
  const ProducerTags: set<char> := {'P'}
  const InsuredTags: set<char> := {'N'}

  /** The key is a field whose name starts with a letter of `cs`. */
  predicate Tagged(k: string, cs: set<char>) {
    |k| > 11 && k[11] in cs
  }

  /** Every key of a run of assignments is tagged with a letter of `cs`. */
  predicate Initials(ws: Writes, cs: set<char>) {
    ws == [] || (Initials(ws[..|ws| - 1], cs) && Tagged(ws[|ws| - 1].0, cs))
  }

  /** No two entries of a table name the same field. */
  predicate Unique(es: seq<Entry>) {
    forall a, b :: 0 <= a < b < |es| ==> es[a].name != es[b].name
  }

  lemma {:induction false} InitialsWeaken(ws: Writes, cs: set<char>, ds: set<char>)
    requires Initials(ws, cs) && cs <= ds
    ensures Initials(ws, ds)
  {
    if ws != [] {
      InitialsWeaken(ws[..|ws| - 1], cs, ds);
    }
  }

  lemma {:induction false} InitialsAppend(a: Writes, b: Writes, ca: set<char>, cb: set<char>, cs: set<char>)
    requires Initials(a, ca) && Initials(b, cb) && ca <= cs && cb <= cs
    ensures Initials(a + b, cs)
  {
    if b == [] {
      assert a + b == a;
      InitialsWeaken(a, ca, cs);
    } else {
      var n := |b| - 1;
      InitialsAppend(a, b[..n], ca, cb, cs);
      assert (a + b)[..|a + b| - 1] == a + b[..n];
    }
  }

  /** A run whose keys are tagged with letters of `cs` never assigns a
      key tagged otherwise. */
  lemma {:induction false} MissByInitial(ws: Writes, cs: set<char>, k: string)
    requires Initials(ws, cs) && |k| > 11 && k[11] !in cs
    ensures LastValue(ws, k) == None
  {
    if ws != [] {
      MissByInitial(ws[..|ws| - 1], cs, k);
    }
  }

  /** One assignment to a field whose name starts with `p`. */
  lemma OneInitial(p: string, n: string, v: Json)
    requires |p| > 0
    ensures Initials([(Field(p + n), v)], {p[0]})
  {
    PrefixedInitial(p, n);
  }

  lemma WhenInitial(b: bool, p: string, n: string, v: Json)
    requires |p| > 0
    ensures Initials(When(b, Field(p + n), v), {p[0]})
  {
    if b {
      OneInitial(p, n, v);
    }
  }

  /** Field names with the same prefix are told apart by the rest. */
  lemma PrefixedInjective(p: string, a: string, b: string)
    ensures Field(p + a) == Field(p + b) ==> a == b
  {
    FieldInjective(p + a, p + b);
    PrefixKey(p, a, b);
  }

  /** A prefixed field name starts with its prefix's first letter. */
  lemma PrefixedInitial(p: string, n: string)
    requires |p| > 0
    ensures |Field(p + n)| > 11 && Field(p + n)[11] == p[0]
  {
    FieldInitial(p + n);
  }

  // ----- entry tables -----

  /** A write of an entry run names one of the entries' fields. */
  lemma {:induction false} InEntryWrites(obj: Json, pol: Json, p: string, es: seq<Entry>, w: (string, Json))
    requires w in EntryWrites(obj, pol, p, es)
    ensures exists j :: 0 <= j < |es| && w.0 == Field(p + es[j].name)
  {
    var n := |es| - 1;
    if w in EntryWrites(obj, pol, p, es[..n]) {
      InEntryWrites(obj, pol, p, es[..n], w);
      var j :| 0 <= j < n && w.0 == Field(p + es[..n][j].name);
      assert es[..n][j] == es[j];
    } else {
      assert w.0 == Field(p + es[n].name);
    }
  }

  lemma {:induction false} EntryInitials(obj: Json, pol: Json, p: string, es: seq<Entry>)
    requires |p| > 0
    ensures Initials(EntryWrites(obj, pol, p, es), {p[0]})
  {
    if es != [] {
      var n := |es| - 1;
      var v := EntryValue(obj, pol, es[n]);
      EntryInitials(obj, pol, p, es[..n]);
      if v.Some? {
        OneInitial(p, es[n].name, v.value);
      }
      InitialsAppend(EntryWrites(obj, pol, p, es[..n]), if v.Some? then [(Field(p + es[n].name), v.value)] else [], {p[0]}, {p[0]}, {p[0]});
    }
  }

  /** An entry whose field no other entry names decides that field: it
      holds the entry's value, or is not assigned at all. */
  lemma {:induction false} EntryStores(obj: Json, pol: Json, p: string, es: seq<Entry>, j: nat)
    requires j < |es|
    requires forall i :: 0 <= i < |es| && i != j ==> es[i].name != es[j].name
    ensures LastValue(EntryWrites(obj, pol, p, es), Field(p + es[j].name)) == EntryValue(obj, pol, es[j])
  {
    var n := |es| - 1;
    var e := es[n];
    var init := es[..n];
    var k := Field(p + es[j].name);
    var v := EntryValue(obj, pol, e);
    var last := if v.Some? then [(Field(p + e.name), v.value)] else [];
    assert EntryWrites(obj, pol, p, es) == EntryWrites(obj, pol, p, init) + last;
    LastValueAppend(EntryWrites(obj, pol, p, init), last, k);
    if j < n {
      PrefixedInjective(p, e.name, es[j].name);
      assert init[j] == es[j];
      EntryStores(obj, pol, p, init, j);
    } else {
      forall w | w in EntryWrites(obj, pol, p, init) ensures w.0 != k {
        InEntryWrites(obj, pol, p, init, w);
        var i :| 0 <= i < n && w.0 == Field(p + init[i].name);
        assert init[i] == es[i];
        PrefixedInjective(p, init[i].name, es[j].name);
      }
      LastValueAbsent(EntryWrites(obj, pol, p, init), k);
    }
  }

  // ----- coverage lines -----

  function Letters(cs: seq<char>): set<char> {
    set c | c in cs
  }

  /** Line `j`'s fields start with `cs[j]`. */
  predicate LinesTagged(ls: seq<Line>, cs: seq<char>) {
    |cs| == |ls| && (forall j :: 0 <= j < |ls| ==> |ls[j].prefix| > 0 && ls[j].prefix[0] == cs[j])
  }

  lemma {:induction false} CoverageInitials(cov: Json, pol: Json, ls: seq<Line>, cs: seq<char>)
    requires LinesTagged(ls, cs)
    ensures Initials(CoverageWrites(cov, pol, ls), Letters(cs))
  {
    if ls != [] {
      var n := |ls| - 1;
      TaggedPrefix(ls, cs, n);
      CoverageInitials(cov, pol, ls[..n], cs[..n]);
      var line := Sub(cov, ls[n].key);
      if Flag(line, "has") {
        EntryInitials(line, pol, ls[n].prefix, ls[n].entries);
      }
      assert (Letters(cs[..n])) + {cs[n]} == Letters(cs) by {
        assert cs == cs[..n] + [cs[n]];
      }
      InitialsAppend(CoverageWrites(cov, pol, ls[..n]), LineWrites(line, pol, ls[n]), Letters(cs[..n]), {cs[n]}, Letters(cs));
    }
  }

  lemma TaggedPrefix(ls: seq<Line>, cs: seq<char>, n: nat)
    requires LinesTagged(ls, cs) && n <= |ls|
    ensures LinesTagged(ls[..n], cs[..n])
  {
    assert forall a :: 0 <= a < n ==> ls[..n][a] == ls[a] && cs[..n][a] == cs[a];
  }

  /** The field of the last line's entry. */
  lemma LastLineStores(cov: Json, pol: Json, ls: seq<Line>, cs: seq<char>, i: nat)
    requires LinesTagged(ls, cs) && (forall a, b :: 0 <= a < b < |cs| ==> cs[a] != cs[b])
    requires ls != [] && i < |ls[|ls| - 1].entries| && Unique(ls[|ls| - 1].entries)
    ensures var l := ls[|ls| - 1];
      var line := Sub(cov, l.key);
      LastValue(CoverageWrites(cov, pol, ls), Field(l.prefix + l.entries[i].name)) ==
        if Flag(line, "has") then EntryValue(line, pol, l.entries[i]) else None
  {
    var n := |ls| - 1;
    var l := ls[n];
    var earlier := CoverageWrites(cov, pol, ls[..n]);
    var line := Sub(cov, l.key);
    LastValueAppend(earlier, LineWrites(line, pol, l), Field(l.prefix + l.entries[i].name));
    TaggedPrefix(ls, cs, n);
    CoverageInitials(cov, pol, ls[..n], cs[..n]);
    assert cs[n] !in Letters(cs[..n]) by {
      forall a | 0 <= a < n ensures cs[..n][a] != cs[n] {
        assert cs[..n][a] == cs[a];
      }
    }
    PrefixedInitial(l.prefix, l.entries[i].name);
    MissByInitial(earlier, Letters(cs[..n]), Field(l.prefix + l.entries[i].name));
    if Flag(line, "has") {
      EntryStores(line, pol, l.prefix, l.entries, i);
    }
  }

  /** With lines told apart by their letters, a field of line `j` holds its
      entry's value when the line has coverage, and is not assigned when it
      has none. */
  lemma {:induction false} CoverageStores(cov: Json, pol: Json, ls: seq<Line>, cs: seq<char>, j: nat, i: nat)
    requires LinesTagged(ls, cs) && (forall a, b :: 0 <= a < b < |cs| ==> cs[a] != cs[b])
    requires j < |ls| && i < |ls[j].entries| && Unique(ls[j].entries)
    ensures var line := Sub(cov, ls[j].key);
      LastValue(CoverageWrites(cov, pol, ls), Field(ls[j].prefix + ls[j].entries[i].name)) ==
        if Flag(line, "has") then EntryValue(line, pol, ls[j].entries[i]) else None
  {
    var n := |ls| - 1;
    if j == n {
      LastLineStores(cov, pol, ls, cs, i);
    } else {
      var k := Field(ls[j].prefix + ls[j].entries[i].name);
      var line := Sub(cov, ls[n].key);
      var last := LineWrites(line, pol, ls[n]);
      LastValueAppend(CoverageWrites(cov, pol, ls[..n]), last, k);
      if Flag(line, "has") {
        EntryInitials(line, pol, ls[n].prefix, ls[n].entries);
        PrefixedInitial(ls[j].prefix, ls[j].entries[i].name);
        MissByInitial(last, {cs[n]}, k);
      }
      TaggedPrefix(ls, cs, n);
      assert ls[..n][j] == ls[j];
      CoverageStores(cov, pol, ls[..n], cs[..n], j, i);
    }
  }

  // ----- the steps' letters -----

  lemma SlotInitials(insurer: Json, letter: string)
    ensures Initials(InsurerSlot(insurer, letter), {'I'})
  {
    var name := (NameField(letter), GetOr(insurer, "carrier", JStr("")));
    var naic := (NaicField(letter), GetOr(insurer, "naic", JStr("")));
    OneInitial("Insurer_FullName_", letter, name.1);
    OneInitial("Insurer_NAICCode_", letter, naic.1);
    InitialsAppend([name], [naic], {'I'}, {'I'}, {'I'});
    assert InsurerSlot(insurer, letter) == [name] + [naic];
  }

  lemma {:induction false} InsurerInitials(insurers: seq<Json>, count: nat)
    requires count <= |insurers| && InsurerWrites(insurers, count).Success?
    ensures Initials(InsurerWrites(insurers, count).value, {'I'})
  {
    if count > 0 {
      InsurerInitials(insurers, count - 1);
      var letter := InsurerLetter(insurers[count - 1]).value;
      SlotInitials(insurers[count - 1], letter);
      InitialsAppend(InsurerWrites(insurers, count - 1).value, InsurerSlot(insurers[count - 1], letter), {'I'}, {'I'}, {'I'});
    }
  }

  /** The insurers table names only insurer fields. */
  lemma HeadInitials(pd: Json)
    requires HeadWrites(pd).Success?
    ensures Initials(HeadWrites(pd).value, InsurerTags)
  {
    var insurers := Insurers(pd);
    InsurerInitials(insurers, Min(5, |insurers|));
    if insurers != [] {
      SlotInitials(insurers[0], "A");
    }
    InitialsAppend(InsurerWrites(insurers, Min(5, |insurers|)).value, SlotAWrites(insurers), {'I'}, {'I'}, InsurerTags);
  }

  lemma ProducerInitials(agency: Json)
    ensures Initials(ProducerWrites(agency), ProducerTags)
  {
    var p := ProducerPrefix;
    assert {p[0]} == ProducerTags;
    var name := [(Field(p + "FullName_A"), GetOr(agency, "name", JStr("")))];
    var address := [(Field(p + "MailingAddress_LineOne_A"), JStr(ProducerAddress(agency)))];
    OneInitial(p, "FullName_A", GetOr(agency, "name", JStr("")));
    OneInitial(p, "MailingAddress_LineOne_A", JStr(ProducerAddress(agency)));
    EntryInitials(agency, JObj([]), p, ProducerFields);
    InitialsAppend(name, address, ProducerTags, ProducerTags, ProducerTags);
    InitialsAppend(name + address, EntryWrites(agency, JObj([]), p, ProducerFields), ProducerTags, ProducerTags, ProducerTags);
    assert ProducerWrites(agency) == name + address + EntryWrites(agency, JObj([]), p, ProducerFields);
  }

  lemma InsuredInitials(insured: Json)
    ensures Initials(InsuredWrites(insured), InsuredTags)
  {
    var p := InsuredPrefix;
    assert {p[0]} == InsuredTags;
    var name := [(Field(p + "FullName_A"), GetOr(insured, "name", JStr("")))];
    var address := [(Field(p + "MailingAddress_LineOne_A"), InsuredAddress(insured))];
    OneInitial(p, "FullName_A", GetOr(insured, "name", JStr("")));
    OneInitial(p, "MailingAddress_LineOne_A", InsuredAddress(insured));
    EntryInitials(insured, JObj([]), p, InsuredFields);
    InitialsAppend(name, address, InsuredTags, InsuredTags, InsuredTags);
    InitialsAppend(name + address, EntryWrites(insured, JObj([]), p, InsuredFields), InsuredTags, InsuredTags, InsuredTags);
    assert InsuredWrites(insured) == name + address + EntryWrites(insured, JObj([]), p, InsuredFields);
  }

  /** The date, the producer and the named insured. */
  lemma PartyInitials(pd: Json, agency: Json, today: string)
    ensures Initials(PartyWrites(pd, agency, today), PartyTags)
  {
    var date := [(Field("Form_CompletionDate_A"), JStr(today))];
    FieldInitial("Form_CompletionDate_A");
    ProducerInitials(agency);
    InsuredInitials(Sub(pd, "insured"));
    InitialsAppend(date, ProducerWrites(agency), DateTags, ProducerTags, PartyTags);
    InitialsAppend(date + ProducerWrites(agency), InsuredWrites(Sub(pd, "insured")), PartyTags, InsuredTags, PartyTags);
  }

  /** The remark and the codes. */
  lemma TailInitials(pd: Json, holder: Json)
    requires TailWrites(pd, holder).Success?
    ensures Initials(TailWrites(pd, holder).value, HolderTags)
  {
    var parts := RemarkParts(holder).value;
    var cov := Sub(pd, "coverages");
    WhenInitial(parts != [], "CertificateOfLiabilityInsurance_", "ACORDForm_RemarkText_A", JStr(Join("\n", parts)));
    WhenInitial(Flag(Sub(cov, "gl"), "has"), CodePrefix, "GeneralLiability_AdditionalInsuredCode_A", JStr("Y"));
    WhenInitial(Flag(Sub(cov, "auto"), "has"), CodePrefix, "AutomobileLiability_AdditionalInsuredCode_A", JStr("Y"));
    InitialsAppend(When(Flag(Sub(cov, "gl"), "has"), Field(GlCodeField), JStr("Y")),
      When(Flag(Sub(cov, "auto"), "has"), Field(AutoCodeField), JStr("Y")), {'C'}, {'C'}, {'C'});
    InitialsAppend(RemarkWrites(parts), CodeWrites(pd, holder), {'C'}, {'C'}, HolderTags);
  }

  // ----- the tables of the form -----

  /** No entry of `a` names a field that an entry of `b` names. */
  predicate Apart(a: seq<Entry>, b: seq<Entry>) {
    forall i, j :: 0 <= i < |a| && 0 <= j < |b| ==> a[i].name != b[j].name
  }

  lemma UniqueAppend(a: seq<Entry>, b: seq<Entry>)
    requires Unique(a) && Unique(b) && Apart(a, b)
    ensures Unique(a + b)
  {
    forall x, y | 0 <= x < y < |a + b| ensures (a + b)[x].name != (a + b)[y].name {
      if y < |a| {
      } else if x < |a| {
        assert (a + b)[y] == b[y - |a|];
      } else {
        assert (a + b)[x] == b[x - |a|] && (a + b)[y] == b[y - |a|];
      }
    }
  }

  lemma GlHeadUnique()
    ensures Unique(GlHead)
  {
  }

  lemma GlLimitsUnique()
    ensures Unique(GlLimits)
  {
  }

  lemma GlLimitsApart()
    ensures Apart(GlHead, GlLimits)
  {
  }

  lemma AutoUnique()
    ensures Unique(AutoEntries)
  {
  }

  lemma UmbrellaUnique()
    ensures Unique(UmbrellaEntries)
  {
  }

  lemma WcUnique()
    ensures Unique(WcEntries)
  {
  }
}
