/** The completion date, the producer and the named insured of the ACORD 25
    dict. */
module Acord25Parties {
  import opened Wrappers
  import opened Json
  import opened Text
  import opened FieldMap
  import opened FieldData
  import opened MapAcord25
  import opened Acord25Facts
  import opened Acord25Lookups

  /** The producer's address line: `address_line1` (or else `address`),
      then a line break and `address_line2` when that is set. */
  lemma ProducerAddressLines(agency: Json)
    ensures var first := Str(GetOr(agency, "address_line1", GetOr(agency, "address", JStr(""))));
      ProducerAddress(agency) ==
        if Flag(agency, "address_line2") then first + "\n" + Str(Get(agency, "address_line2")) else first
  {
    var first := Str(GetOr(agency, "address_line1", GetOr(agency, "address", JStr(""))));
    if Flag(agency, "address_line2") {
      var parts := [first, Str(Get(agency, "address_line2"))];
      assert [first] + [Str(Get(agency, "address_line2"))] == parts;
      assert Join("\n", parts[1..]) == parts[1];
    }
  }

  /** A run of entries never assigns a field of its prefix that none of
      them names. */
  lemma {:induction false} EntryAvoids(obj: Json, pol: Json, p: string, es: seq<Entry>, n: string)
    requires forall j :: 0 <= j < |es| ==> es[j].name != n
    ensures LastValue(EntryWrites(obj, pol, p, es), Field(p + n)) == None
  {
    if es != [] {
      var m := |es| - 1;
      var v := EntryValue(obj, pol, es[m]);
      EntryAvoids(obj, pol, p, es[..m], n);
      PrefixedInjective(p, es[m].name, n);
      LastValueAppend(EntryWrites(obj, pol, p, es[..m]), if v.Some? then [(Field(p + es[m].name), v.value)] else [], Field(p + n));
    }
  }

  /** A party's two leading assignments (name, then address line),
      read at a key. */
  lemma LeadValue(p: string, name: Json, address: Json, key: string)
    ensures var lead := [(Field(p + "FullName_A"), name), (Field(p + "MailingAddress_LineOne_A"), address)];
      LastValue(lead, key) ==
        if key == Field(p + "MailingAddress_LineOne_A") then Some(address)
        else if key == Field(p + "FullName_A") then Some(name)
        else None
  {
    var a := (Field(p + "FullName_A"), name);
    var b := (Field(p + "MailingAddress_LineOne_A"), address);
    assert [a, b] == [a] + [b];
    LastValueAppend([a], [b], key);
    assert [a][..0] == [] && [b][..0] == [];
  }

  /** A party's assignments: the lead pair, then its entries. */
  lemma PartyValue(obj: Json, p: string, lead: Writes, es: seq<Entry>, key: string)
    ensures var e := LastValue(EntryWrites(obj, JObj([]), p, es), key);
      LastValue(lead + EntryWrites(obj, JObj([]), p, es), key) == if e.Some? then e else LastValue(lead, key)
  {
    LastValueAppend(lead, EntryWrites(obj, JObj([]), p, es), key);
  }

  /** Three runs told apart by the letters F, P and N, read at a key. */
  lemma ThreeRuns(d: Writes, p: Writes, n: Writes, k: string)
    requires Initials(d, DateTags) && Initials(p, ProducerTags) && Initials(n, InsuredTags) && |k| > 11
    ensures k[11] == 'F' ==> LastValue(d + p + n, k) == LastValue(d, k)
    ensures k[11] == 'P' ==> LastValue(d + p + n, k) == LastValue(p, k)
    ensures k[11] == 'N' ==> LastValue(d + p + n, k) == LastValue(n, k)
  {
    LastValueAppend(d + p, n, k);
    LastValueAppend(d, p, k);
    if k[11] != 'F' {
      MissByInitial(d, DateTags, k);
    }
    if k[11] != 'P' {
      MissByInitial(p, ProducerTags, k);
    }
    if k[11] != 'N' {
      MissByInitial(n, InsuredTags, k);
    }
  }

  lemma DateInitial(today: string)
    ensures Initials([(Field("Form_CompletionDate_A"), JStr(today))], DateTags)
  {
    var date := [(Field("Form_CompletionDate_A"), JStr(today))];
    FieldInitial("Form_CompletionDate_A");
    assert date[..0] == [];
  }

  /** The parties, read at the completion date. */
  lemma PartiesAtDate(pd: Json, agency: Json, today: string, k: string)
    requires |k| > 11 && k[11] == 'F'
    ensures LastValue(PartyWrites(pd, agency, today), k) == LastValue([(Field("Form_CompletionDate_A"), JStr(today))], k)
  {
    DateInitial(today);
    ProducerInitials(agency);
    InsuredInitials(Sub(pd, "insured"));
    ThreeRuns([(Field("Form_CompletionDate_A"), JStr(today))], ProducerWrites(agency), InsuredWrites(Sub(pd, "insured")), k);
  }

  /** The parties, read at a producer field. */
  lemma PartiesAtProducer(pd: Json, agency: Json, today: string, k: string)
    requires |k| > 11 && k[11] == 'P'
    ensures LastValue(PartyWrites(pd, agency, today), k) == LastValue(ProducerWrites(agency), k)
  {
    DateInitial(today);
    ProducerInitials(agency);
    InsuredInitials(Sub(pd, "insured"));
    ThreeRuns([(Field("Form_CompletionDate_A"), JStr(today))], ProducerWrites(agency), InsuredWrites(Sub(pd, "insured")), k);
  }

  /** The parties, read at a named-insured field. */
  lemma PartiesAtInsured(pd: Json, agency: Json, today: string, k: string)
    requires |k| > 11 && k[11] == 'N'
    ensures LastValue(PartyWrites(pd, agency, today), k) == LastValue(InsuredWrites(Sub(pd, "insured")), k)
  {
    DateInitial(today);
    ProducerInitials(agency);
    InsuredInitials(Sub(pd, "insured"));
    ThreeRuns([(Field("Form_CompletionDate_A"), JStr(today))], ProducerWrites(agency), InsuredWrites(Sub(pd, "insured")), k);
  }

  // ----- the producer -----

  /** The producer's fields, read from its assignments. */
  lemma ProducerValues(agency: Json, i: nat)
    requires i < |ProducerFields|
    ensures var w := ProducerWrites(agency);
      LastValue(w, Field(ProducerPrefix + "FullName_A")) == Some(GetOr(agency, "name", JStr(""))) &&
      LastValue(w, Field(ProducerPrefix + "MailingAddress_LineOne_A")) == Some(JStr(ProducerAddress(agency))) &&
      ProducerFields[i].Copy? &&
      LastValue(w, Field(ProducerPrefix + ProducerFields[i].name)) == Some(GetOr(agency, ProducerFields[i].key, JStr("")))
  {
    var p := ProducerPrefix;
    var lead := [(Field(p + "FullName_A"), GetOr(agency, "name", JStr(""))),
                 (Field(p + "MailingAddress_LineOne_A"), JStr(ProducerAddress(agency)))];
    PrefixedInjective(p, "FullName_A", "MailingAddress_LineOne_A");
    ProducerTable();
    EntryAvoids(agency, JObj([]), p, ProducerFields, "FullName_A");
    EntryAvoids(agency, JObj([]), p, ProducerFields, "MailingAddress_LineOne_A");
    EntryStores(agency, JObj([]), p, ProducerFields, i);
    LeadValue(p, GetOr(agency, "name", JStr("")), JStr(ProducerAddress(agency)), Field(p + "FullName_A"));
    LeadValue(p, GetOr(agency, "name", JStr("")), JStr(ProducerAddress(agency)), Field(p + "MailingAddress_LineOne_A"));
    PartyValue(agency, p, lead, ProducerFields, Field(p + "FullName_A"));
    PartyValue(agency, p, lead, ProducerFields, Field(p + "MailingAddress_LineOne_A"));
    PartyValue(agency, p, lead, ProducerFields, Field(p + ProducerFields[i].name));
  }

  /** The producer's entries copy six distinct keys, and name neither lead
      field. */
  lemma ProducerTable()
    ensures Unique(ProducerFields)
    ensures forall j :: 0 <= j < |ProducerFields| ==>
      ProducerFields[j].Copy? && ProducerFields[j].name != "FullName_A" && ProducerFields[j].name != "MailingAddress_LineOne_A"
  {
  }

  // ----- the named insured -----

  lemma InsuredValues(insured: Json, i: nat)
    requires i < |InsuredFields|
    ensures var w := InsuredWrites(insured);
      LastValue(w, Field(InsuredPrefix + "FullName_A")) == Some(GetOr(insured, "name", JStr(""))) &&
      LastValue(w, Field(InsuredPrefix + "MailingAddress_LineOne_A")) == Some(InsuredAddress(insured)) &&
      InsuredFields[i].Copy? &&
      LastValue(w, Field(InsuredPrefix + InsuredFields[i].name)) == Some(GetOr(insured, InsuredFields[i].key, JStr("")))
  {
    var p := InsuredPrefix;
    var lead := [(Field(p + "FullName_A"), GetOr(insured, "name", JStr(""))),
                 (Field(p + "MailingAddress_LineOne_A"), InsuredAddress(insured))];
    PrefixedInjective(p, "FullName_A", "MailingAddress_LineOne_A");
    InsuredTable();
    EntryAvoids(insured, JObj([]), p, InsuredFields, "FullName_A");
    EntryAvoids(insured, JObj([]), p, InsuredFields, "MailingAddress_LineOne_A");
    EntryStores(insured, JObj([]), p, InsuredFields, i);
    LeadValue(p, GetOr(insured, "name", JStr("")), InsuredAddress(insured), Field(p + "FullName_A"));
    LeadValue(p, GetOr(insured, "name", JStr("")), InsuredAddress(insured), Field(p + "MailingAddress_LineOne_A"));
    PartyValue(insured, p, lead, InsuredFields, Field(p + "FullName_A"));
    PartyValue(insured, p, lead, InsuredFields, Field(p + "MailingAddress_LineOne_A"));
    PartyValue(insured, p, lead, InsuredFields, Field(p + InsuredFields[i].name));
  }

  lemma InsuredTable()
    ensures Unique(InsuredFields)
    ensures forall j :: 0 <= j < |InsuredFields| ==>
      InsuredFields[j].Copy? && InsuredFields[j].name != "FullName_A" && InsuredFields[j].name != "MailingAddress_LineOne_A"
  {
  }

  // ----- the dict -----

  /** The completion date is the date of the run. */
  lemma DateLookup(pd: Json, holder: Json, agency: Json, today: string, ls: seq<Line>)
    requires Acord25Fields(pd, holder, agency, today, ls).Success? && LinesTagged(ls, LineTags)
    ensures Lookup(Acord25Fields(pd, holder, agency, today, ls).value, Field("Form_CompletionDate_A")) == Some(JStr(today))
  {
    var k := Field("Form_CompletionDate_A");
    FieldInitial("Form_CompletionDate_A");
    PartyDecides(pd, holder, agency, today, ls, k);
    PartiesAtDate(pd, agency, today, k);
    assert [(k, JStr(today))][..0] == [];
  }

  /** The producer's name, address line and contact fields come from the
      agency, "" standing in for a missing value. */
  lemma ProducerLookup(pd: Json, holder: Json, agency: Json, today: string, ls: seq<Line>, i: nat)
    requires Acord25Fields(pd, holder, agency, today, ls).Success? && LinesTagged(ls, LineTags)
    requires i < |ProducerFields|
    ensures var m := Acord25Fields(pd, holder, agency, today, ls).value;
      var e := ProducerFields[i];
      Lookup(m, Field(ProducerPrefix + "FullName_A")) == Some(GetOr(agency, "name", JStr(""))) &&
      Lookup(m, Field(ProducerPrefix + "MailingAddress_LineOne_A")) == Some(JStr(ProducerAddress(agency))) &&
      e.Copy? && Lookup(m, Field(ProducerPrefix + e.name)) == Some(GetOr(agency, e.key, JStr("")))
  {
    ProducerKeys(pd, holder, agency, today, ls, "FullName_A");
    ProducerKeys(pd, holder, agency, today, ls, "MailingAddress_LineOne_A");
    ProducerKeys(pd, holder, agency, today, ls, ProducerFields[i].name);
    ProducerValues(agency, i);
  }

  /** A producer field of the dict is what the producer's assignments
      leave. */
  lemma ProducerKeys(pd: Json, holder: Json, agency: Json, today: string, ls: seq<Line>, n: string)
    requires Acord25Fields(pd, holder, agency, today, ls).Success? && LinesTagged(ls, LineTags)
    ensures Lookup(Acord25Fields(pd, holder, agency, today, ls).value, Field(ProducerPrefix + n)) ==
      LastValue(ProducerWrites(agency), Field(ProducerPrefix + n))
  {
    PrefixedInitial(ProducerPrefix, n);
    PartyDecides(pd, holder, agency, today, ls, Field(ProducerPrefix + n));
    PartiesAtProducer(pd, agency, today, Field(ProducerPrefix + n));
  }

  /** The named insured's name, address line and address fields come from
      `insured`, "" standing in for a missing value; the address line is
      `address_line1`, followed by a line break and `address_line2` when
      that is truthy. */
  lemma InsuredLookup(pd: Json, holder: Json, agency: Json, today: string, ls: seq<Line>, i: nat)
    requires Acord25Fields(pd, holder, agency, today, ls).Success? && LinesTagged(ls, LineTags)
    requires i < |InsuredFields|
    ensures var m := Acord25Fields(pd, holder, agency, today, ls).value;
      var insured := Sub(pd, "insured");
      var e := InsuredFields[i];
      var line1 := GetOr(insured, "address_line1", JStr(""));
      Lookup(m, Field(InsuredPrefix + "FullName_A")) == Some(GetOr(insured, "name", JStr(""))) &&
      Lookup(m, Field(InsuredPrefix + "MailingAddress_LineOne_A")) ==
        Some(if Flag(insured, "address_line2") then JStr(Str(line1) + "\n" + Str(Get(insured, "address_line2"))) else line1) &&
      e.Copy? && Lookup(m, Field(InsuredPrefix + e.name)) == Some(GetOr(insured, e.key, JStr("")))
  {
    InsuredKeys(pd, holder, agency, today, ls, "FullName_A");
    InsuredKeys(pd, holder, agency, today, ls, "MailingAddress_LineOne_A");
    InsuredKeys(pd, holder, agency, today, ls, InsuredFields[i].name);
    InsuredValues(Sub(pd, "insured"), i);
  }

  lemma InsuredKeys(pd: Json, holder: Json, agency: Json, today: string, ls: seq<Line>, n: string)
    requires Acord25Fields(pd, holder, agency, today, ls).Success? && LinesTagged(ls, LineTags)
    ensures Lookup(Acord25Fields(pd, holder, agency, today, ls).value, Field(InsuredPrefix + n)) ==
      LastValue(InsuredWrites(Sub(pd, "insured")), Field(InsuredPrefix + n))
  {
    PrefixedInitial(InsuredPrefix, n);
    PartyDecides(pd, holder, agency, today, ls, Field(InsuredPrefix + n));
    PartiesAtInsured(pd, agency, today, Field(InsuredPrefix + n));
  }
}
