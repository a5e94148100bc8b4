/** What the dict `_build_field_data` returns holds, field by field: for a
    name that neither a raw checkbox nor an override mentions, the value
    the mapping step that owns the name promises. */
module FieldResults {
  import opened Wrappers
  import opened Json
  import opened Text
  import opened FieldMap
  import opened FieldData
  import opened FieldFacts
  import opened HistoryFacts
  import opened FieldLookups

  // ----- the applicant -----

  /** A direct key holds `str` of its configuration value when the
      configuration has it, and is missing otherwise. */
  lemma DirectField(config: Json, today: string, i: nat)
    requires i < |DirectKeys| && Mapped(config, DirectKeys[i])
    ensures var k := DirectKeys[i];
      Lookup(FieldDict(config, today), k) == if Has(config, k) then Some(StrOf(Get(config, k))) else None
  {
    var k := DirectKeys[i];
    DirectNamed(i);
    DirectDecides(config, today, k);
    DirectCopies(config, DirectKeys, k);
  }

  lemma DateStored(config: Json, today: string)
    ensures LastValue(DateWrites(config, today), "ACORD_CurrentDate") == Some(Today(config, today))
    ensures LastValue(DateWrites(config, today), "ACORD_Transaction_Date") == Some(Today(config, today))
  {
  }

  /** Both dates hold the form's date. */
  lemma DateFields(config: Json, today: string)
    requires Mapped(config, "ACORD_CurrentDate") && Mapped(config, "ACORD_Transaction_Date")
    ensures Lookup(FieldDict(config, today), "ACORD_CurrentDate") == Some(Today(config, today))
    ensures Lookup(FieldDict(config, today), "ACORD_Transaction_Date") == Some(Today(config, today))
  {
    DateLiterals();
    DateStored(config, today);
    DateDecides(config, today, "ACORD_CurrentDate");
    DateDecides(config, today, "ACORD_Transaction_Date");
  }

  /** Two known transaction types never share a box. */
  lemma TransactionBoxApart(a: string, b: string)
    requires TransactionBox(a).Some? && TransactionBox(b).Some?
    ensures TransactionBox(a) == TransactionBox(b) ==> a == b
  {
  }

  /** The box of a known transaction type is a field of the transaction
      step. */
  lemma TransactionNamed(tx: string)
    requires TransactionBox(tx).Some?
    ensures StageOf(TransactionBox(tx).value) == TransactionStage
  {
    TransactionLiterals0();
    TransactionLiterals1();
  }

  /** The transaction step ticks the box of a known type exactly when the
      configured type is that one. */
  lemma TransactionStored(config: Json, tx: string)
    requires TransactionBox(tx).Some?
    ensures LastValue(TransactionWrites(config), TransactionBox(tx).value) ==
      if TransactionType(config) == JStr(tx) then Some(Yes) else None
  {
    var t := TransactionType(config);
    if t.JStr? && TransactionBox(t.s).Some? {
      TransactionBoxApart(t.s, tx);
    }
  }

  /** The box of a known transaction type holds `"Yes"` exactly when the
      configured type is that one, `"quote"` when none is given. */
  lemma TransactionField(config: Json, today: string, tx: string)
    requires TransactionBox(tx).Some? && Mapped(config, TransactionBox(tx).value)
    ensures Lookup(FieldDict(config, today), TransactionBox(tx).value) ==
      if TransactionType(config) == JStr(tx) then Some(Yes) else None
    ensures !Has(config, "transaction_type") ==>
      (Lookup(FieldDict(config, today), TransactionBox(tx).value) == Some(Yes) <==> tx == "quote")
  {
    var k := TransactionBox(tx).value;
    TransactionNamed(tx);
    TransactionDecides(config, today, k);
    TransactionStored(config, tx);
  }

  /** At most one transaction box of the returned dict is ticked. */
  lemma TransactionOneBox(config: Json, today: string, a: string, b: string)
    requires TransactionBox(a).Some? && Mapped(config, TransactionBox(a).value)
    requires TransactionBox(b).Some? && Mapped(config, TransactionBox(b).value)
    requires Lookup(FieldDict(config, today), TransactionBox(a).value) == Some(Yes)
    requires Lookup(FieldDict(config, today), TransactionBox(b).value) == Some(Yes)
    ensures a == b
  {
    TransactionField(config, today, a);
    TransactionField(config, today, b);
  }

  /** Two known entity types never share a box. */
  lemma EntityBoxApart(a: string, b: string)
    requires EntityBox(a).Some? && EntityBox(b).Some?
    ensures EntityBox(a) == EntityBox(b) ==> a == b
  {
    // the seven boxes differ in the letter after "ACORD_Policy_Insured1_Type_"
    var x, y := EntityBox(a).value, EntityBox(b).value;
    assert |x| > 27 && |y| > 27;
    assert x == y ==> x[27] == y[27];
  }

  /** The box of a known entity type is a field of the entity step. */
  lemma EntityNamed(entity: string)
    requires EntityBox(entity).Some?
    ensures StageOf(EntityBox(entity).value) == EntityStage
  {
    EntityLiterals0();
    EntityLiterals1();
    EntityLiterals2();
  }

  /** The entity step ticks the box of a known type exactly when the
      configured type, lower-cased, is that one. */
  lemma EntityStored(config: Json, entity: string)
    requires EntityBox(entity).Some?
    ensures LastValue(EntityWrites(config), EntityBox(entity).value) ==
      if EntityType(config) == entity then Some(Yes) else None
  {
    if EntityBox(EntityType(config)).Some? {
      EntityBoxApart(EntityType(config), entity);
    }
  }

  /** The box of a known entity type holds `"Yes"` exactly when the
      configured type, lower-cased, is that one. */
  lemma EntityField(config: Json, today: string, entity: string)
    requires EntityBox(entity).Some? && Mapped(config, EntityBox(entity).value)
    ensures Lookup(FieldDict(config, today), EntityBox(entity).value) ==
      if EntityType(config) == entity then Some(Yes) else None
  {
    var k := EntityBox(entity).value;
    EntityNamed(entity);
    EntityDecides(config, today, k);
    EntityStored(config, entity);
  }

  /** At most one entity box of the returned dict is ticked. */
  lemma EntityOneBox(config: Json, today: string, a: string, b: string)
    requires EntityBox(a).Some? && Mapped(config, EntityBox(a).value)
    requires EntityBox(b).Some? && Mapped(config, EntityBox(b).value)
    requires Lookup(FieldDict(config, today), EntityBox(a).value) == Some(Yes)
    requires Lookup(FieldDict(config, today), EntityBox(b).value) == Some(Yes)
    ensures a == b
  {
    EntityField(config, today, a);
    EntityField(config, today, b);
  }

  // ----- the locations -----

  /** Locations numbered by single digits never share a field name. */
  lemma LocationApart(m: nat, n: nat, k: string)
    requires 1 <= m <= 9 && 1 <= n <= 9 && m != n && HasPrefix(k, LocationPrefix(n))
    ensures !HasPrefix(k, LocationPrefix(m))
  {
    var p, q := LocationPrefix(m), LocationPrefix(n);
    assert |p| == 16 && |q| == 16;
    assert p[14] == DigitChar(m) && q[14] == DigitChar(n);
    assert k[..16][14] == q[14];
  }

  /** A run whose names all start with `p` leaves alone a name that does
      not. */
  lemma PrefixAbsent(ws: Writes, p: string, k: string)
    requires Prefixed(ws, p) && !HasPrefix(k, p)
    ensures LastValue(ws, k) == None
  {
    LastValueAbsent(ws, k);
  }

  /** A location beyond the first `count` is never written. */
  lemma {:induction false} LocationRowsBeyond(locs: seq<Json>, count: nat, n: nat, k: string)
    requires count <= |locs| && count < n <= 9 && HasPrefix(k, LocationPrefix(n))
    ensures LastValue(LocationRows(locs, count), k) == None
  {
    if count > 0 {
      LocationRowsBeyond(locs, count - 1, n, k);
      LocationRowsOld(locs, count, n, k);
    }
  }

  /** The locations after `n` leave the fields of location `n` alone. */
  lemma {:induction false} LocationRowsUpTo(locs: seq<Json>, count: nat, n: nat, k: string)
    requires 1 <= n <= count <= |locs| && count <= 9 && HasPrefix(k, LocationPrefix(n))
    ensures LastValue(LocationRows(locs, count), k) == LastValue(LocationRows(locs, n), k)
  {
    if count > n {
      LocationRowsUpTo(locs, count - 1, n, k);
      LocationRowsOld(locs, count, n, k);
    }
  }

  /** Among at most nine locations, location `n` alone decides the fields
      under its prefix, and a location beyond them is never written. */
  lemma LocationRowsDecide(locs: seq<Json>, count: nat, n: nat, k: string)
    requires count <= |locs| && count <= 9 && 1 <= n <= 9 && HasPrefix(k, LocationPrefix(n))
    ensures n <= count ==> LastValue(LocationRows(locs, count), k) == LastValue(LocationWrites(n, locs[n - 1]), k)
    ensures n > count ==> LastValue(LocationRows(locs, count), k) == None
  {
    if n <= count {
      LocationRowsUpTo(locs, count, n, k);
      LocationRowsBeyond(locs, n - 1, n, k);
      LocationRowsNew(locs, n, k);
    } else {
      LocationRowsBeyond(locs, count, n, k);
    }
  }

  /** The location just added decides its own fields when the earlier ones
      left them alone. */
  lemma LocationRowsNew(locs: seq<Json>, count: nat, k: string)
    requires 0 < count <= |locs| && LastValue(LocationRows(locs, count - 1), k) == None
    ensures LastValue(LocationRows(locs, count), k) == LastValue(LocationWrites(count, locs[count - 1]), k)
  {
    var earlier := LocationRows(locs, count - 1);
    var last := LocationWrites(count, locs[count - 1]);
    assert LocationRows(locs, count) == earlier + last;
    LastValueAppend(earlier, last, k);
  }

  /** The location just added leaves the fields of another one alone. */
  lemma LocationRowsOld(locs: seq<Json>, count: nat, n: nat, k: string)
    requires 0 < count <= |locs| && count <= 9 && 1 <= n <= 9 && n != count && HasPrefix(k, LocationPrefix(n))
    ensures LastValue(LocationRows(locs, count), k) == LastValue(LocationRows(locs, count - 1), k)
  {
    var earlier := LocationRows(locs, count - 1);
    var last := LocationWrites(count, locs[count - 1]);
    assert LocationRows(locs, count) == earlier + last;
    LocationKeysPrefixed(count, locs[count - 1]);
    LocationApart(count, n, k);
    PrefixAbsent(last, LocationPrefix(count), k);
    LastValueAppend(earlier, last, k);
  }

  /** Only the first four locations are written: a field under the prefix
      of a location beyond them is left alone by the location loop. */
  lemma LocationCapRun(config: Json, n: nat, x: string)
    requires Min(4, |Locs(config)|) < n <= 9
    ensures LastValue(LocationRun(config), LocationPrefix(n) + x) == None
  {
    var locs := Locs(config);
    PrefixConcat(LocationPrefix(n), x);
    LocationRowsDecide(locs, Min(4, |locs|), n, LocationPrefix(n) + x);
  }

  /** Every name under the prefix of location `n` is a location field. */
  lemma LocationNamed(n: nat, x: string)
    ensures StageOf(LocationPrefix(n) + x) == LocationStage
  {
    PrefixConcat(LocationPrefix(n), x);
    LocationName(LocationPrefix(n) + x, n);
  }

  /** At most four locations reach the dict: a field under the prefix of a
      location beyond the first `min(4, len)` is missing. */
  lemma LocationCapField(config: Json, today: string, n: nat, x: string)
    requires Min(4, |Locs(config)|) < n <= 9 && Mapped(config, LocationPrefix(n) + x)
    ensures Lookup(FieldDict(config, today), LocationPrefix(n) + x) == None
  {
    LocationNamed(n, x);
    LocationDecides(config, today, LocationPrefix(n) + x);
    LocationCapRun(config, n, x);
  }

  /** The parts of an address a location row writes. */
  predicate AddressPart(t: string) {
    t == "Street" || t == "City" || t == "State" || t == "ZIP"
  }

  /** A name under `p` that no address part can be: longer than
      `p + "State"`, or as long as `p + "Street"` but with a `C` after `p`. */
  predicate DetailKey(k: string, p: string) {
    HasPrefix(k, p) && |k| > |p| + 5 && (|k| > |p| + 6 || k[|p|] == 'C')
  }

  /** Every name of a run is a detail name under `p`. */
  predicate Detailed(ws: Writes, p: string) {
    forall j :: 0 <= j < |ws| ==> DetailKey(ws[j].0, p)
  }

  lemma DetailAppend(a: Writes, b: Writes, p: string)
    requires Detailed(a, p) && Detailed(b, p)
    ensures Detailed(a + b, p)
  {
  }

  /** A field stem no address part can be: longer than `"State"`, and
      when as long as `"Street"` starting with `C`. */
  predicate DetailStem(stem: string) {
    |stem| > 5 && (|stem| > 6 || stem[0] == 'C')
  }

  lemma DetailStems()
    ensures forall j :: 0 <= j < |LocationDetailRules| ==> DetailStem(LocationDetailRules[j].stem)
  {
  }

  lemma {:induction false} DetailsDetailedBy(loc: Json, rules: seq<Rule>, p: string)
    requires forall j :: 0 <= j < |rules| ==> DetailStem(rules[j].stem)
    ensures Detailed(DetailWrites(loc, rules, p), p)
  {
    if rules != [] {
      var r := rules[|rules| - 1];
      var earlier := DetailWrites(loc, rules[..|rules| - 1], p);
      var last := When(Has(loc, r.key), p + r.stem, RuleValue(loc, r));
      DetailsDetailedBy(loc, rules[..|rules| - 1], p);
      PrefixConcat(p, r.stem);
      assert DetailStem(r.stem);
      assert (p + r.stem)[|p|] == r.stem[0];
      assert Detailed(last, p);
      DetailAppend(earlier, last, p);
    }
  }

  lemma DetailsDetailed(p: string, loc: Json)
    ensures Detailed(LocationDetails(p, loc), p)
  {
    var interest := InterestWrites(p, Lower(Str(GetOr(loc, "interest", JStr("owner")))));
    DetailStems();
    DetailsDetailedBy(loc, LocationDetailRules, p);
    PrefixConcat(p, "Interest_Owner");
    PrefixConcat(p, "Interest_Tenant");
    assert Detailed(interest, p);
    DetailAppend(DetailWrites(loc, LocationDetailRules, p), interest, p);
  }

  /** A run of detail names leaves every address part alone. */
  lemma DetailAbsent(ws: Writes, p: string, t: string)
    requires Detailed(ws, p) && AddressPart(t)
    ensures LastValue(ws, p + t) == None
  {
    forall w | w in ws ensures w.0 != p + t {
      var j :| 0 <= j < |ws| && ws[j] == w;
    }
    LastValueAbsent(ws, p + t);
  }

  /** Only the address writes the address parts of a location row. */
  lemma LocationAddress(n: nat, loc: Json, t: string)
    requires AddressPart(t)
    ensures var prefix := LocationPrefix(n);
      LastValue(LocationWrites(n, loc), prefix + t) ==
        if Has(loc, "address") then LastValue(AddressWrites(prefix, Str(Get(loc, "address"))), prefix + t) else None
  {
    var prefix := LocationPrefix(n);
    var address := if Has(loc, "address") then AddressWrites(prefix, Str(Get(loc, "address"))) else [];
    var rest := LocationDetails(prefix, loc);
    DetailsDetailed(prefix, loc);
    DetailAbsent(rest, prefix, t);
    LastValueAppend(address, rest, prefix + t);
  }

  /** What an address makes of one of its parts: with at least three
      comma-separated parts, the street and city are the stripped first and
      second parts, and the state and ZIP code the first and second words
      of the third, when those words exist; otherwise nothing. */
  function AddressPartOf(address: string, t: string): Option<Json> {
    var parts := Split(address, ',');
    if |parts| < 3 then None
    else
      var stZip := Words(Strip(parts[2]));
      if t == "Street" then Some(JStr(Strip(parts[0])))
      else if t == "City" then Some(JStr(Strip(parts[1])))
      else if t == "State" && |stZip| >= 1 then Some(JStr(stZip[0]))
      else if t == "ZIP" && |stZip| >= 2 then Some(JStr(stZip[1]))
      else None
  }

  /** One address part of one of the first four locations, as the
      location loop leaves it. */
  lemma AddressRun(config: Json, n: nat, t: string)
    requires 1 <= n <= Min(4, |Locs(config)|) && AddressPart(t)
    ensures var loc := Locs(config)[n - 1];
      LastValue(LocationRun(config), LocationPrefix(n) + t) ==
        if Has(loc, "address") then AddressPartOf(Str(Get(loc, "address")), t) else None
  {
    var locs := Locs(config);
    var loc := locs[n - 1];
    PrefixConcat(LocationPrefix(n), t);
    LocationRowsDecide(locs, Min(4, |locs|), n, LocationPrefix(n) + t);
    LocationAddress(n, loc, t);
    AddressSplit(LocationPrefix(n), Str(Get(loc, "address")));
  }

  /** In the returned dict, each address part of each of the first four
      locations is what its address makes of that part, and missing when
      the location has no address. */
  lemma AddressField(config: Json, today: string, n: nat, t: string)
    requires 1 <= n <= Min(4, |Locs(config)|) && AddressPart(t) && Mapped(config, LocationPrefix(n) + t)
    ensures var loc := Locs(config)[n - 1];
      Lookup(FieldDict(config, today), LocationPrefix(n) + t) ==
        if Has(loc, "address") then AddressPartOf(Str(Get(loc, "address")), t) else None
  {
    LocationNamed(n, t);
    LocationDecides(config, today, LocationPrefix(n) + t);
    AddressRun(config, n, t);
  }

  // ----- the ACORD 140 sections -----

  /** The tags of the two sections differ: no name carries both. */
  lemma SectionTagsApart(k: string)
    ensures !(SectionKey(k, 0) && SectionKey(k, 1))
  {
    if SectionKey(k, 0) {
      assert k[|k| - 1] == 'A';
    }
  }

  /** A run whose names all carry tag `a` or tag `b` leaves alone a name
      that carries neither. */
  lemma TagAbsent(ws: Writes, a: string, b: string, k: string)
    requires Tagged(ws, a, b) && !HasSuffix(k, a) && !HasSuffix(k, b)
    ensures LastValue(ws, k) == None
  {
    LastValueAbsent(ws, k);
  }

  /** Over at most two sections, section `i` alone decides the fields
      carrying its tag, and a section beyond them is never written. */
  lemma {:induction false} SectionRowsDecide(locs: seq<Json>, count: nat, layout: SectionLayout, i: nat, k: string)
    requires count <= |locs| && count <= 2 && i < 2 && SectionKey(k, i)
    ensures LastValue(SectionRows(locs, count, layout), k) ==
      if i < count then LastValue(SectionWrites(i, locs[i], layout), k) else None
  {
    if count > 0 {
      SectionRowsDecide(locs, count - 1, layout, i, k);
      SectionRowsStep(locs, count, layout, i, k);
    }
  }

  lemma SectionRowsStep(locs: seq<Json>, count: nat, layout: SectionLayout, i: nat, k: string)
    requires 0 < count <= |locs| && count <= 2 && i < 2 && SectionKey(k, i)
    requires LastValue(SectionRows(locs, count - 1, layout), k) ==
      if i < count - 1 then LastValue(SectionWrites(i, locs[i], layout), k) else None
    ensures LastValue(SectionRows(locs, count, layout), k) ==
      if i < count then LastValue(SectionWrites(i, locs[i], layout), k) else None
  {
    var earlier := SectionRows(locs, count - 1, layout);
    var last := SectionWrites(count - 1, locs[count - 1], layout);
    assert SectionRows(locs, count, layout) == earlier + last;
    LastValueAppend(earlier, last, k);
    if i != count - 1 {
      SectionTagsApart(k);
      SectionKeysTagged(count - 1, locs[count - 1], layout);
      TagAbsent(last, SectionSuffix(count - 1), SectionRow(count - 1), k);
    }
  }

  /** Only the first two locations reach the ACORD 140: the section loop
      leaves alone a field carrying the tag of no section present. */
  lemma SectionCapRun(config: Json, k: string)
    requires !KeyedWithin(k, Min(2, |Locs(config)|))
    ensures LastValue(SectionRun(config), k) == None
  {
    var locs := Locs(config);
    var rows := SectionRows(locs, Min(2, |locs|), Section140);
    SectionCap(locs, Min(2, |locs|), Section140);
    forall w | w in rows ensures w.0 != k {
      var j :| 0 <= j < |rows| && rows[j] == w;
    }
    LastValueAbsent(rows, k);
  }

  /** Only the first two locations reach the ACORD 140 in the dict: a
      section field carrying the tag of no section present is missing. */
  lemma SectionCapField(config: Json, today: string, k: string)
    requires SectionInitial(k) && Mapped(config, k) && !KeyedWithin(k, Min(2, |Locs(config)|))
    ensures Lookup(FieldDict(config, today), k) == None
  {
    SectionDecides(config, today, k);
    SectionCapRun(config, k);
  }

  /** The "no" boxes of section `i` belong to the ACORD 140 sections and
      carry that section's tag. */
  lemma TexasNamed(i: nat)
    ensures var suffix := SectionSuffix(i);
      SectionInitial(MineSubsidenceNo + suffix) && SectionKey(MineSubsidenceNo + suffix, i) &&
      SectionInitial(SinkHoleNo + suffix) && SectionKey(SinkHoleNo + suffix, i)
  {
    var suffix := SectionSuffix(i);
    SectionPrefixes();
    SectionName(PropertyCoverage, "MineSubsidenceOption_NoIndicator_");
    SectionName(PropertyCoverage, "SinkHoleCollapse_NoIndicator_");
    SectionName(MineSubsidenceNo, suffix);
    SectionName(SinkHoleNo, suffix);
    SuffixConcat(MineSubsidenceNo, suffix);
    SuffixConcat(SinkHoleNo, suffix);
  }

  /** The section loop ticks both "no" boxes of section `i` exactly when
      the `i`-th location exists and is in Texas. */
  lemma TexasRun(config: Json, i: nat)
    requires i < 2
    ensures var locs := Locs(config);
      var suffix := SectionSuffix(i);
      var tx := i < Min(2, |locs|) && StateOf(locs[i]) == JStr("TX");
      LastValue(SectionRun(config), MineSubsidenceNo + suffix) == (if tx then Some(Yes) else None) &&
      LastValue(SectionRun(config), SinkHoleNo + suffix) == (if tx then Some(Yes) else None)
  {
    var locs := Locs(config);
    var suffix := SectionSuffix(i);
    TexasNamed(i);
    SectionRowsDecide(locs, Min(2, |locs|), Section140, i, MineSubsidenceNo + suffix);
    SectionRowsDecide(locs, Min(2, |locs|), Section140, i, SinkHoleNo + suffix);
    if i < Min(2, |locs|) {
      TexasDefaults(i, locs[i]);
    }
  }

  /** The Texas defaults in the dict: both "no" boxes of section `i` hold
      `"Yes"` exactly when the `i`-th location exists and is in Texas. */
  lemma TexasField(config: Json, today: string, i: nat)
    requires i < 2
    requires Mapped(config, MineSubsidenceNo + SectionSuffix(i)) && Mapped(config, SinkHoleNo + SectionSuffix(i))
    ensures var locs := Locs(config);
      var tx := i < Min(2, |locs|) && StateOf(locs[i]) == JStr("TX");
      Lookup(FieldDict(config, today), MineSubsidenceNo + SectionSuffix(i)) == (if tx then Some(Yes) else None) &&
      Lookup(FieldDict(config, today), SinkHoleNo + SectionSuffix(i)) == (if tx then Some(Yes) else None)
  {
    TexasNamed(i);
    SectionDecides(config, today, MineSubsidenceNo + SectionSuffix(i));
    SectionDecides(config, today, SinkHoleNo + SectionSuffix(i));
    TexasRun(config, i);
  }

  // ----- the ACORD 140 header -----

  /** With at least one location each header field holds
      `config.get(key, "")`; with none it is missing. */
  lemma HeaderField(config: Json, today: string, j: nat)
    requires j < |HeaderFields| && Mapped(config, HeaderFields[j].stem)
    ensures Lookup(FieldDict(config, today), HeaderFields[j].stem) ==
      if LocationKeys(config) != [] then Some(GetOr(config, HeaderFields[j].key, JStr(""))) else None
  {
    HeaderLiterals();
    HeaderDecides(config, today, HeaderFields[j].stem);
    HeaderStored(config, today, LocationKeys(config) != [], j);
  }

  /** With at least one location the producer holds the first line of the
      agency name and the completion date the form's date; with none both
      are missing. */
  lemma ProducerFields(config: Json, today: string)
    requires Mapped(config, "Producer_FullName_A") && Mapped(config, "Form_CompletionDate_A")
    ensures var located := LocationKeys(config) != [];
      Lookup(FieldDict(config, today), "Producer_FullName_A") ==
        (if located then Some(JStr(Split(Str(GetOr(config, "ACORD_AgencyName", JStr(""))), '\n')[0])) else None) &&
      Lookup(FieldDict(config, today), "Form_CompletionDate_A") == (if located then Some(Today(config, today)) else None)
  {
    HeaderLiterals();
    HeaderDecides(config, today, "Producer_FullName_A");
    HeaderDecides(config, today, "Form_CompletionDate_A");
    HeaderStored(config, today, LocationKeys(config) != [], 0);
  }

  // ----- the history -----

  /** With a truthy `prior_carrier` each prior-carrier field holds
      `prior.get(key, "")`; without one it is missing. */
  lemma PriorField(config: Json, today: string, j: nat)
    requires j < |PriorFields| && Mapped(config, PriorFields[j].stem)
    ensures var prior := Sub(config, "prior_carrier");
      Lookup(FieldDict(config, today), PriorFields[j].stem) ==
        if Truthy(prior) then Some(GetOr(prior, PriorFields[j].key, JStr(""))) else None
  {
    PriorLiterals();
    PriorDecides(config, today, PriorFields[j].stem);
    PriorStored(config, j);
  }

  lemma LossNoneStored(config: Json)
    ensures LastValue(LossNoneWrites(config), LossNoneKey) ==
      if Truthy(GetOr(config, "loss_history_none", JBool(true))) then Some(Yes) else None
  {
  }

  /** The "no losses" box holds `"Yes"` when `loss_history_none` is missing
      or truthy, and is missing otherwise. */
  lemma LossNoneField(config: Json, today: string)
    requires Mapped(config, LossNoneKey)
    ensures Lookup(FieldDict(config, today), LossNoneKey) ==
      if Truthy(GetOr(config, "loss_history_none", JBool(true))) then Some(Yes) else None
  {
    assert StageOf(LossNoneKey) == LossNoneStage;
    LossNoneDecides(config, today, LossNoneKey);
    LossNoneStored(config);
  }

  /** Over the first `count` losses, a row numbered beyond them is never
      written. */
  lemma LossRowBeyond(losses: seq<Json>, count: nat, n: nat, j: nat)
    requires count <= |losses| && count < n <= 9 && j < |LossKeys|
    ensures LastValue(LossRows(losses, count, LossKeys), LossPrefix(n) + LossKeys[j]) == None
  {
    var k := LossPrefix(n) + LossKeys[j];
    LossCap(losses, count, LossKeys);
    forall w | w in LossRows(losses, count, LossKeys) ensures w.0 != k {
      var m, i :| 1 <= m <= count && 0 <= i < |LossKeys| && w.0 == LossPrefix(m) + LossKeys[i];
      RowsApart(m, n, LossKeys[i], LossKeys[j]);
    }
    LastValueAbsent(LossRows(losses, count, LossKeys), k);
  }

  /** The loss loop gives row `n` (of at most nine), for each column, `str`
      of the loss's value when it is one of the first three losses and has
      that column, and nothing otherwise. */
  lemma LossRunStored(config: Json, n: nat, j: nat)
    requires 1 <= n <= 9 && j < |LossKeys|
    ensures var losses := Losses(config);
      LastValue(LossRun(config), LossPrefix(n) + LossKeys[j]) ==
        if n <= Min(3, |losses|) && LossHas(losses[n - 1], LossKeys[j])
        then Some(StrOf(LossValue(losses[n - 1], LossKeys[j])))
        else None
  {
    var losses := Losses(config);
    if n <= Min(3, |losses|) {
      HistoryLossRows(config, n, j);
    } else {
      LossRowBeyond(losses, Min(3, |losses|), n, j);
    }
  }

  /** Loss row `n` (of at most nine) holds, for each column, `str` of the
      loss's value when it is one of the first three losses and has that
      column, and is missing otherwise. */
  lemma LossRowField(config: Json, today: string, n: nat, j: nat)
    requires 1 <= n <= 9 && j < |LossKeys| && Mapped(config, LossPrefix(n) + LossKeys[j])
    ensures var losses := Losses(config);
      Lookup(FieldDict(config, today), LossPrefix(n) + LossKeys[j]) ==
        if n <= Min(3, |losses|) && LossHas(losses[n - 1], LossKeys[j])
        then Some(StrOf(LossValue(losses[n - 1], LossKeys[j])))
        else None
  {
    var k := LossPrefix(n) + LossKeys[j];
    LossRowName(n, LossKeys[j]);
    LossRowDecides(config, today, k);
    LossRunStored(config, n, j);
  }
}
