/** What `_build_field_data` promises about the dict it returns: how an
    address is split, how many locations, sections and loss rows are
    written and under which names, the Texas defaults, the loss-history
    box, and that the raw checkboxes and then the overrides have the last
    word. */
module FieldFacts {
  import opened Wrappers
  import opened Json
  import opened Text
  import opened FieldMap
  import opened FieldData

  // ----- assignment runs -----

  /** A run that never names `k` leaves no value for it. */
  lemma {:induction false} LastValueAbsent(ws: Writes, k: string)
    requires forall w :: w in ws ==> w.0 != k
    ensures LastValue(ws, k) == None
  {
    if ws != [] {
      var n := |ws| - 1;
      assert forall w :: w in ws[..n] ==> w in ws;
      assert ws[n] in ws;
      LastValueAbsent(ws[..n], k);
    }
  }

  /** The keys of a run of rules are the rules' stems followed by the tag. */
  lemma {:induction false} RuleKeys(obj: Json, rules: seq<Rule>, tag: string)
    ensures forall w :: w in RuleWrites(obj, rules, tag) ==> exists j :: 0 <= j < |rules| && w.0 == rules[j].stem + tag
  {
    if rules != [] {
      var n := |rules| - 1;
      RuleKeys(obj, rules[..n], tag);
      forall w | w in RuleWrites(obj, rules, tag)
        ensures exists j :: 0 <= j < |rules| && w.0 == rules[j].stem + tag
      {
        var r := rules[n];
        if w in RuleWrites(obj, rules[..n], tag) {
          var j :| 0 <= j < n && w.0 == rules[..n][j].stem + tag;
          assert rules[j] == rules[..n][j];
        } else {
          assert w.0 == rules[n].stem + tag;
        }
      }
    }
  }

  lemma StemTag(a: string, b: string, tag: string)
    ensures a + tag == b + tag ==> a == b
  {
    if a + tag == b + tag {
      assert a == (a + tag)[..|a|];
      assert b == (b + tag)[..|b|];
    }
  }

  /** A rule whose stem no other rule shares stores its value exactly when
      it is a `.get` with a default or its key is present. */
  lemma {:induction false} RuleStores(obj: Json, rules: seq<Rule>, tag: string, j: nat)
    requires j < |rules|
    requires forall i :: 0 <= i < |rules| && i != j ==> rules[i].stem != rules[j].stem
    ensures LastValue(RuleWrites(obj, rules, tag), rules[j].stem + tag) ==
      if rules[j].Defaulted? || Has(obj, rules[j].key) then Some(RuleValue(obj, rules[j])) else None
  {
    var n := |rules| - 1;
    var r := rules[n];
    var init := rules[..n];
    var k := rules[j].stem + tag;
    var last := When(r.Defaulted? || Has(obj, r.key), r.stem + tag, RuleValue(obj, r));
    assert RuleWrites(obj, rules, tag) == RuleWrites(obj, init, tag) + last;
    LastValueAppend(RuleWrites(obj, init, tag), last, k);
    if j < n {
      StemTag(r.stem, rules[j].stem, tag);
      assert init[j] == rules[j];
      RuleStores(obj, init, tag, j);
    } else {
      RuleKeys(obj, init, tag);
      forall w | w in RuleWrites(obj, init, tag) ensures w.0 != k {
        var i :| 0 <= i < n && w.0 == init[i].stem + tag;
        assert init[i] == rules[i];
        StemTag(init[i].stem, rules[j].stem, tag);
      }
      LastValueAbsent(RuleWrites(obj, init, tag), k);
    }
  }

  /** Keys no longer than a bound. */
  predicate KeysWithin(ws: Writes, bound: nat) {
    forall w :: w in ws ==> |w.0| <= bound
  }

  lemma RuleKeysWithin(obj: Json, rules: seq<Rule>, tag: string, bound: nat)
    requires forall j :: 0 <= j < |rules| ==> |rules[j].stem| + |tag| <= bound
    ensures KeysWithin(RuleWrites(obj, rules, tag), bound)
  {
    RuleKeys(obj, rules, tag);
  }

  lemma {:induction false} ExposureKeysWithin(exposures: Json, suffix: string, dirs: seq<(string, string)>)
    requires forall d :: 0 <= d < |dirs| ==> |dirs[d].1| <= 5
    ensures KeysWithin(ExposureWrites(exposures, suffix, dirs), 34 + |suffix|)
  {
    if dirs != [] {
      var n := |dirs| - 1;
      ExposureKeysWithin(exposures, suffix, dirs[..n]);
    }
  }

  // ----- the address of a location -----

  /** The four address fields are distinct: their names differ in length. */
  lemma AddressParts(prefix: string, street: string, city: string, stZip: seq<string>)
    ensures var ws := AddressPartWrites(prefix, street, city, stZip);
      LastValue(ws, prefix + "Street") == Some(JStr(street)) &&
      LastValue(ws, prefix + "City") == Some(JStr(city)) &&
      LastValue(ws, prefix + "State") == (if |stZip| >= 1 then Some(JStr(stZip[0])) else None) &&
      LastValue(ws, prefix + "ZIP") == (if |stZip| >= 2 then Some(JStr(stZip[1])) else None)
  {
    var street_, city_, state, zip := prefix + "Street", prefix + "City", prefix + "State", prefix + "ZIP";
    assert |street_| == |prefix| + 6 && |city_| == |prefix| + 4 && |state| == |prefix| + 5 && |zip| == |prefix| + 3;
    var head: Writes := [(street_, JStr(street)), (city_, JStr(city))];
    var st := When(|stZip| >= 1, state, JStr(if |stZip| >= 1 then stZip[0] else ""));
    var zp := When(|stZip| > 1, zip, JStr(if |stZip| > 1 then stZip[1] else ""));
    assert head[..1] == [(street_, JStr(street))];
    LastValueAppend(head + st, zp, street_);
    LastValueAppend(head, st, street_);
    LastValueAppend(head + st, zp, city_);
    LastValueAppend(head, st, city_);
    LastValueAppend(head + st, zp, state);
    LastValueAppend(head, st, state);
    LastValueAppend(head + st, zp, zip);
    LastValueAppend(head, st, zip);
  }

  /** `"street, city, ST ZIP"`: an address of fewer than three
      comma-separated parts writes nothing; otherwise the street and the
      city are the stripped first and second parts, and the state and the
      ZIP code are the first and second tokens of the third part, each
      written only when that token exists. */
  lemma AddressSplit(prefix: string, address: string)
    ensures var parts := Split(address, ',');
      var ws := AddressWrites(prefix, address);
      (|parts| < 3 <==> ws == []) &&
      (|parts| >= 3 ==>
        var stZip := Words(Strip(parts[2]));
        LastValue(ws, prefix + "Street") == Some(JStr(Strip(parts[0]))) &&
        LastValue(ws, prefix + "City") == Some(JStr(Strip(parts[1]))) &&
        LastValue(ws, prefix + "State") == (if |stZip| >= 1 then Some(JStr(stZip[0])) else None) &&
        LastValue(ws, prefix + "ZIP") == (if |stZip| >= 2 then Some(JStr(stZip[1])) else None))
  {
    var parts := Split(address, ',');
    if |parts| >= 3 {
      AddressParts(prefix, Strip(parts[0]), Strip(parts[1]), Words(Strip(parts[2])));
    }
  }

  // ----- locations and sections -----

  /** The locations are taken in ascending key order, each key once. */
  lemma LocationOrder(config: Json)
    ensures Ascending(LocationKeys(config))
    ensures multiset(LocationKeys(config)) == multiset(Keys(Members(Sub(config, "locations"))))
  {
    SortStringsCorrect(Keys(Members(Sub(config, "locations"))));
  }

  /** Every assignment of a run names a key starting with `p`. */
  predicate Prefixed(ws: Writes, p: string) {
    forall w :: w in ws ==> HasPrefix(w.0, p)
  }

  lemma PrefixedAppend(a: Writes, b: Writes, p: string)
    requires Prefixed(a, p) && Prefixed(b, p)
    ensures Prefixed(a + b, p)
  {
  }

  lemma PrefixConcat(p: string, x: string)
    ensures HasPrefix(p + x, p)
  {
    assert (p + x)[..|p|] == p;
  }

  lemma AddressPartsPrefixed(p: string, street: string, city: string, stZip: seq<string>)
    ensures Prefixed(AddressPartWrites(p, street, city, stZip), p)
  {
    PrefixConcat(p, "Street");
    PrefixConcat(p, "City");
    PrefixConcat(p, "State");
    PrefixConcat(p, "ZIP");
  }

  lemma AddressPrefixed(p: string, address: string)
    ensures Prefixed(AddressWrites(p, address), p)
  {
    var parts := Split(address, ',');
    if |parts| >= 3 {
      AddressPartsPrefixed(p, Strip(parts[0]), Strip(parts[1]), Words(Strip(parts[2])));
    }
  }

  lemma InterestPrefixed(p: string, interest: string)
    ensures Prefixed(InterestWrites(p, interest), p)
  {
    PrefixConcat(p, "Interest_Owner");
    PrefixConcat(p, "Interest_Tenant");
  }

  /** Every field location `n` writes starts with `ACORD_Location{n}_`. */
  lemma LocationKeysPrefixed(n: nat, loc: Json)
    ensures Prefixed(LocationWrites(n, loc), LocationPrefix(n))
  {
    var p := LocationPrefix(n);
    var address := if Has(loc, "address") then AddressWrites(p, Str(Get(loc, "address"))) else [];
    var interest := InterestWrites(p, Lower(Str(GetOr(loc, "interest", JStr("owner")))));
    AddressPrefixed(p, Str(Get(loc, "address")));
    DetailsPrefixed(loc, LocationDetailRules, p);
    InterestPrefixed(p, Lower(Str(GetOr(loc, "interest", JStr("owner")))));
    PrefixedAppend(DetailWrites(loc, LocationDetailRules, p), interest, p);
    PrefixedAppend(address, LocationDetails(p, loc), p);
  }

  lemma {:induction false} DetailsPrefixed(loc: Json, rules: seq<Rule>, p: string)
    ensures Prefixed(DetailWrites(loc, rules, p), p)
  {
    if rules != [] {
      var r := rules[|rules| - 1];
      DetailsPrefixed(loc, rules[..|rules| - 1], p);
      WhenPrefixed(Has(loc, r.key), p, r.stem, RuleValue(loc, r));
      PrefixedAppend(DetailWrites(loc, rules[..|rules| - 1], p), When(Has(loc, r.key), p + r.stem, RuleValue(loc, r)), p);
    }
  }

  /** A conditional assignment to `p + x` is prefixed by `p`. */
  lemma WhenPrefixed(c: bool, p: string, x: string, v: Json)
    ensures Prefixed(When(c, p + x, v), p)
  {
    PrefixConcat(p, x);
  }

  /** Six prefixed runs in a row are prefixed. */
  lemma PrefixedJoin(a: Writes, b: Writes, c: Writes, d: Writes, e: Writes, f: Writes, p: string)
    requires Prefixed(a, p) && Prefixed(b, p) && Prefixed(c, p)
    requires Prefixed(d, p) && Prefixed(e, p) && Prefixed(f, p)
    ensures Prefixed(a + b + c + d + e + f, p)
  {
    PrefixedAppend(a, b, p);
    PrefixedAppend(a + b, c, p);
    PrefixedAppend(a + b + c, d, p);
    PrefixedAppend(a + b + c + d, e, p);
    PrefixedAppend(a + b + c + d + e, f, p);
  }

  /** At most four locations reach the ACORD 125: every field the location
      loop writes belongs to one of the first `min(4, len)` locations. */
  lemma {:induction false} LocationCap(locs: seq<Json>, count: nat)
    requires count <= |locs|
    ensures RowsWithin(LocationRows(locs, count), count)
    decreases count, 1
  {
    if count > 0 {
      LocationCapStep(locs, count);
    }
  }

  /** One location more, from what the earlier ones write. */
  lemma {:induction false} LocationCapStep(locs: seq<Json>, count: nat)
    requires 0 < count <= |locs|
    ensures RowsWithin(LocationRows(locs, count), count)
    decreases count, 0
  {
    LocationCap(locs, count - 1);
    var earlier := LocationRows(locs, count - 1);
    var last := LocationWrites(count, locs[count - 1]);
    LocationKeysPrefixed(count, locs[count - 1]);
    assert LocationRows(locs, count) == earlier + last;
    assert Prefixed(last, LocationPrefix(count));
    assert RowsWithin(earlier, count - 1);
    RowsWithinAppend(earlier, last, count);
  }

  /** Every assignment of a run names a key under the prefix of one of the
      locations `1..count`. */
  predicate RowsWithin(ws: Writes, count: nat) {
    forall j :: 0 <= j < |ws| ==> InRows(ws[j].0, count)
  }

  /** `k` is under the prefix of one of the locations `1..count`. */
  predicate InRows(k: string, count: nat) {
    count > 0 && (HasPrefix(k, LocationPrefix(count)) || InRows(k, count - 1))
  }

  /** The location whose prefix `k` is under. */
  lemma {:induction false} InRowsAt(k: string, count: nat) returns (n: nat)
    requires InRows(k, count)
    ensures 1 <= n <= count && HasPrefix(k, LocationPrefix(n))
  {
    if HasPrefix(k, LocationPrefix(count)) {
      n := count;
    } else {
      n := InRowsAt(k, count - 1);
    }
  }

  lemma RowsWithinAppend(earlier: Writes, last: Writes, count: nat)
    requires count > 0 && RowsWithin(earlier, count - 1) && Prefixed(last, LocationPrefix(count))
    ensures RowsWithin(earlier + last, count)
  {
    var ws := earlier + last;
    forall j | 0 <= j < |ws| ensures InRows(ws[j].0, count) {
      if j >= |earlier| {
        assert ws[j] == last[j - |earlier|];
        assert HasPrefix(ws[j].0, LocationPrefix(count));
      } else {
        assert ws[j] == earlier[j];
      }
    }
  }

  /** Every assignment of a run names a key ending with `a` or with `b`. */
  predicate Tagged(ws: Writes, a: string, b: string) {
    forall w :: w in ws ==> HasSuffix(w.0, a) || HasSuffix(w.0, b)
  }

  lemma SuffixConcat(x: string, t: string)
    ensures HasSuffix(x + t, t)
  {
    assert (x + t)[|x + t| - |t|..] == t;
  }

  lemma RuleKeysTagged(obj: Json, rules: seq<Rule>, tag: string, other: string)
    ensures Tagged(RuleWrites(obj, rules, tag), tag, other)
  {
    RuleKeys(obj, rules, tag);
    forall x: string ensures HasSuffix(x + tag, tag) {
      SuffixConcat(x, tag);
    }
  }

  lemma {:induction false} ExposureKeysTagged(exposures: Json, suffix: string, dirs: seq<(string, string)>, other: string)
    ensures Tagged(ExposureWrites(exposures, suffix, dirs), suffix, other)
  {
    if dirs != [] {
      var n := |dirs| - 1;
      var cap := dirs[n].1;
      ExposureKeysTagged(exposures, suffix, dirs[..n], other);
      SuffixConcat("BuildingExposure_" + cap + "Description_", suffix);
      SuffixConcat("BuildingExposure_" + cap + "Distance_", suffix);
    }
  }

  /** Property section `i` writes only fields of its own: every name ends
      with the section letter (`A`, `B`) or the section's first coverage
      row (`A`, `G`). */
  lemma SectionKeysTagged(i: nat, loc: Json, layout: SectionLayout)
    ensures Tagged(SectionWrites(i, loc, layout), SectionSuffix(i), SectionRow(i))
  {
    var suffix, row := SectionSuffix(i), SectionRow(i);
    RuleKeysTagged(loc, IdentificationFields(i), suffix, row);
    RuleKeysTagged(loc, layout.construction, suffix, row);
    ExposureKeysTagged(Sub(loc, "exposures"), suffix, layout.directions, row);
    RuleKeysTagged(loc, layout.coverage, row, suffix);
    SuffixConcat(MineSubsidenceNo, suffix);
    SuffixConcat(SinkHoleNo, suffix);
    SuffixConcat(Breakdown, suffix);
  }

  /** A field name carrying the tag of section `i`. */
  predicate SectionKey(k: string, i: nat) {
    HasSuffix(k, SectionSuffix(i)) || HasSuffix(k, SectionRow(i))
  }

  /** Every key of a run carries the tag of one of the first `count`
      sections; sections from the second on share one tag, so this is the
      first section's tag or, once there are two, the second's. */
  predicate SectionsKeyed(ws: Writes, count: nat) {
    forall j :: 0 <= j < |ws| ==> KeyedWithin(ws[j].0, count)
  }

  /** A key carrying the tag of one of the first `count` sections. */
  predicate KeyedWithin(k: string, count: nat) {
    (count > 0 && SectionKey(k, 0)) || (count > 1 && SectionKey(k, 1))
  }

  /** Appending section `c`'s writes keeps the keys within the first
      `c + 1` sections. */
  lemma KeyedAppend(a: Writes, b: Writes, c: nat)
    requires SectionsKeyed(a, c) && Tagged(b, SectionSuffix(c), SectionRow(c))
    ensures SectionsKeyed(a + b, c + 1)
  {
    forall j | 0 <= j < |a + b|
      ensures KeyedWithin((a + b)[j].0, c + 1)
    {
      if j >= |a| {
        assert (a + b)[j] in b;
      }
    }
  }

  /** At most two property sections reach the ACORD 140: every field the
      section loop writes carries the tag of the first section or, when
      there are two or more, of the second. */
  lemma {:induction false} SectionCap(locs: seq<Json>, count: nat, layout: SectionLayout)
    requires count <= |locs|
    ensures SectionsKeyed(SectionRows(locs, count, layout), count)
  {
    if count > 0 {
      SectionCap(locs, count - 1, layout);
      SectionCapStep(locs, count, layout);
    }
  }

  lemma SectionCapStep(locs: seq<Json>, count: nat, layout: SectionLayout)
    requires 0 < count <= |locs| && SectionsKeyed(SectionRows(locs, count - 1, layout), count - 1)
    ensures SectionsKeyed(SectionRows(locs, count, layout), count)
  {
    var prev := SectionRows(locs, count - 1, layout);
    var last := SectionWrites(count - 1, locs[count - 1], layout);
    SectionKeysTagged(count - 1, locs[count - 1], layout);
    KeyedAppend(prev, last, count - 1);
    assert SectionRows(locs, count, layout) == prev + last;
  }

  lemma KeysWithinAppend(a: Writes, b: Writes, bound: nat)
    requires KeysWithin(a, bound) && KeysWithin(b, bound)
    ensures KeysWithin(a + b, bound)
  {
  }

  /** The fields of Section140 before its Texas defaults have names of at
      most 53 characters. */
  lemma SectionBodyShort(i: nat, loc: Json)
    ensures KeysWithin(SectionHeadWrites(i, loc, Section140)
      + ExposureWrites(Sub(loc, "exposures"), SectionSuffix(i), Section140.directions)
      + RuleWrites(loc, Section140.coverage, SectionRow(i)), 53)
  {
    var suffix := SectionSuffix(i);
    var ident := RuleWrites(loc, IdentificationFields(i), suffix);
    var construction := RuleWrites(loc, ConstructionFields, suffix);
    var exposures := ExposureWrites(Sub(loc, "exposures"), suffix, Directions);
    var coverage := RuleWrites(loc, CoverageFields, SectionRow(i));
    IdentificationShort(i, loc);
    ConstructionShort(i, loc);
    ExposureKeysWithin(Sub(loc, "exposures"), suffix, Directions);
    CoverageShort(i, loc);
    KeysWithinAppend(ident, construction, 53);
    KeysWithinAppend(ident + construction, exposures, 53);
    KeysWithinAppend(ident + construction + exposures, coverage, 53);
  }

  lemma IdentificationShort(i: nat, loc: Json)
    ensures KeysWithin(RuleWrites(loc, IdentificationFields(i), SectionSuffix(i)), 53)
  {
    RuleKeysWithin(loc, IdentificationFields(i), SectionSuffix(i), 53);
  }

  lemma ConstructionShort(i: nat, loc: Json)
    ensures KeysWithin(RuleWrites(loc, ConstructionFields, SectionSuffix(i)), 53)
  {
    RuleKeysWithin(loc, ConstructionFields, SectionSuffix(i), 53);
  }

  lemma CoverageShort(i: nat, loc: Json)
    ensures KeysWithin(RuleWrites(loc, CoverageFields, SectionRow(i)), 53)
  {
    RuleKeysWithin(loc, CoverageFields, SectionRow(i), 53);
  }

  /** The Texas defaults: both "no" boxes of section `i` are ticked exactly
      when the section's state is `"TX"`, and nothing else in the section
      writes them. */
  lemma TexasDefaults(i: nat, loc: Json)
    ensures var suffix := SectionSuffix(i);
      var ws := SectionWrites(i, loc, Section140);
      var tx := StateOf(loc) == JStr("TX");
      LastValue(ws, MineSubsidenceNo + suffix) == (if tx then Some(Yes) else None) &&
      LastValue(ws, SinkHoleNo + suffix) == (if tx then Some(Yes) else None)
  {
    var suffix := SectionSuffix(i);
    var body := SectionHeadWrites(i, loc, Section140)
      + ExposureWrites(Sub(loc, "exposures"), suffix, Section140.directions)
      + RuleWrites(loc, Section140.coverage, SectionRow(i));
    var tex := TexasWrites(suffix, StateOf(loc));
    var brk := When(Flag(loc, "equipment_breakdown"), Breakdown + suffix, Yes);
    SectionSplit(i, loc);
    SectionBodyShort(i, loc);
    TexasValue(suffix, StateOf(loc), Flag(loc, "equipment_breakdown"));
    var mine, sink := MineSubsidenceNo + suffix, SinkHoleNo + suffix;
    ShortMiss(body, 53, mine);
    ShortMiss(body, 53, sink);
    MiddleDecides(body, tex, brk, mine);
    MiddleDecides(body, tex, brk, sink);
  }

  /** A property section of the ACORD 140 is its body, the Texas defaults
      and the breakdown box. */
  lemma SectionSplit(i: nat, loc: Json)
    ensures var suffix := SectionSuffix(i);
      SectionWrites(i, loc, Section140) ==
        SectionHeadWrites(i, loc, Section140)
        + ExposureWrites(Sub(loc, "exposures"), suffix, Section140.directions)
        + RuleWrites(loc, Section140.coverage, SectionRow(i))
        + TexasWrites(suffix, StateOf(loc))
        + When(Flag(loc, "equipment_breakdown"), Breakdown + suffix, Yes)
  {
  }

  /** The Texas defaults read at their two fields, and the breakdown box
      misses both. */
  lemma TexasValue(suffix: string, state: Json, breakdown: bool)
    requires |suffix| == 1
    ensures var tx := state == JStr("TX");
      var mine, sink := MineSubsidenceNo + suffix, SinkHoleNo + suffix;
      var brk := When(breakdown, Breakdown + suffix, Yes);
      |mine| > 53 && |sink| > 53 &&
      LastValue(TexasWrites(suffix, state), mine) == (if tx then Some(Yes) else None) &&
      LastValue(TexasWrites(suffix, state), sink) == (if tx then Some(Yes) else None) &&
      LastValue(brk, mine) == None && LastValue(brk, sink) == None
  {
    var mine, sink := MineSubsidenceNo + suffix, SinkHoleNo + suffix;
    assert |mine| == 61 && |sink| == 57 && |Breakdown + suffix| == 63;
    WhenValue(breakdown, Breakdown + suffix, Yes, mine);
    WhenValue(breakdown, Breakdown + suffix, Yes, sink);
    if state == JStr("TX") {
      var tex := TexasWrites(suffix, state);
      assert tex[..1] == [(mine, Yes)] && tex[..1][..0] == [];
    }
  }

  /** No write of a run with short keys is at a longer key. */
  lemma ShortMiss(ws: Writes, bound: nat, k: string)
    requires KeysWithin(ws, bound) && |k| > bound
    ensures LastValue(ws, k) == None
  {
    LastValueAbsent(ws, k);
  }



  /** The state a section goes by is `"TX"` exactly when the location says
      so, or it gives no state and the first token of its address's third
      comma-separated part is `TX`. */
  lemma TexasState(loc: Json)
    ensures var explicit := GetOr(loc, "state", JStr(""));
      var parts := Split(Str(Get(loc, "address")), ',');
      StateOf(loc) == JStr("TX") <==>
        explicit == JStr("TX") ||
        (!Truthy(explicit) && Has(loc, "address") && |parts| >= 3 &&
         Words(Strip(parts[2])) != [] && Words(Strip(parts[2]))[0] == "TX")
  {
  }

  // ----- the ACORD 140 header -----

  /** With at least one location, each header field holds
      `config.get(key, "")`, the producer is the first line of the agency
      name and the completion date is the form's date; with no location
      none of them is written. */
  lemma HeaderStored(config: Json, today: string, hasLocations: bool, j: nat)
    requires j < |HeaderFields|
    ensures var ws := HeaderWrites(config, today, hasLocations);
      LastValue(ws, HeaderFields[j].stem) ==
        (if hasLocations then Some(GetOr(config, HeaderFields[j].key, JStr(""))) else None) &&
      LastValue(ws, "Producer_FullName_A") ==
        (if hasLocations then Some(JStr(Split(Str(GetOr(config, "ACORD_AgencyName", JStr(""))), '\n')[0])) else None) &&
      LastValue(ws, "Form_CompletionDate_A") == (if hasLocations then Some(Today(config, today)) else None)
  {
    if hasLocations {
      var copied := RuleWrites(config, HeaderFields, "");
      var tail: Writes := [("Producer_FullName_A", JStr(Split(Str(GetOr(config, "ACORD_AgencyName", JStr(""))), '\n')[0])),
        ("Form_CompletionDate_A", Today(config, today))];
      var stem := HeaderFields[j].stem;
      assert stem + "" == stem;
      assert HeaderWrites(config, today, hasLocations) == copied + tail;
      HeaderEntry(j);
      RuleStores(config, HeaderFields, "", j);
      LastValueAbsent(tail, stem);
      LastValueAppend(copied, tail, stem);
    }
  }
  /** Each header rule copies with default "" and names neither of the two
      computed fields. */
  lemma HeaderEntry(j: nat)
    requires j < |HeaderFields|
    ensures HeaderFields[j].Defaulted? && HeaderFields[j].default == JStr("") && !HeaderFields[j].str
    ensures HeaderFields[j].stem != "Producer_FullName_A" && HeaderFields[j].stem != "Form_CompletionDate_A"
  {
  }

}
