/** The field data the fill endpoint hands to the filler: the server's own
    copy of `map_to_acord25` for form "25", and the plain merge of the
    policy and the holder for every other form. */
module ServerForms {
  import opened Wrappers
  import opened Json
  import opened FieldMap
  import opened FieldData
  import opened MapAcord25
  import opened Acord25Facts
  import opened Acord25Lookups

  // ----- the server's copy of map_to_acord25 -----

  /** The general-liability limits of the server's copy: two of its field
      names are not those of map_acord25.py. */
  const ServerGlLimits: seq<Entry> := [
    Copy("occurrence_limit", "EachOccurrence_LimitAmount_A"),
    Copy("aggregate_limit", "GeneralAggregate_LimitAmount_A"),
    Copy("fire_damage_limit", "FireDamageRentedPremises_EachOccurrenceLimitAmount_A"),
    Copy("med_exp_limit", "MedicalExpense_EachPersonLimitAmount_A"),
    Copy("personal_adv_limit", "PersonalAndAdvertisingInjury_LimitAmount_A"),
    Copy("products_completed_limit", "ProductsAndCompletedOperations_AggregateLimitAmount_A")
  ]

  /** The two copies read the same keys into the same fields, except for
      the medical-expense and the products limits. */
  lemma CopiesDiffer()
    ensures |ServerGlLimits| == |GlLimits|
    ensures forall i :: 0 <= i < |GlLimits| ==> ServerGlLimits[i].Copy? && GlLimits[i].Copy? && ServerGlLimits[i].key == GlLimits[i].key
    ensures forall i :: 0 <= i < |GlLimits| ==> (ServerGlLimits[i] == GlLimits[i] <==> i != 3 && i != 5)
  {
  }

  lemma ServerLimitsOk()
    ensures LimitsOk(ServerGlLimits)
  {
  }

  /** `map_to_acord25` of server.py, with the date of the run passed in. */
  method ServerMapToAcord25(pd: Json, holder: Json, agency: Json, today: string)
    returns (r: Result<FieldMap, string>)
    ensures r == Acord25Fields(pd, holder, agency, today, Lines(ServerGlLimits))
  {
    r := MapToAcord25(pd, holder, agency, today, Lines(ServerGlLimits));
  }

  /** `k` is none of the general-liability limit fields of `limits`. */
  predicate OffLimits(k: string, limits: seq<Entry>) {
    forall i :: 0 <= i < |limits| ==> k != Field(GlPrefix + limits[i].name)
  }

  lemma {:induction false} EntryWritesAppend(obj: Json, pol: Json, p: string, a: seq<Entry>, b: seq<Entry>)
    ensures EntryWrites(obj, pol, p, a + b) == EntryWrites(obj, pol, p, a) + EntryWrites(obj, pol, p, b)
  {
    if b != [] {
      var n := |b| - 1;
      assert (a + b)[..|a + b| - 1] == a + b[..n];
      assert (a + b)[|a + b| - 1] == b[n];
      var v := EntryValue(obj, pol, b[n]);
      var last := if v.Some? then [(Field(p + b[n].name), v.value)] else [];
      EntryWritesAppend(obj, pol, p, a, b[..n]);
      assert EntryWrites(obj, pol, p, a + b) == EntryWrites(obj, pol, p, a + b[..n]) + last;
      assert EntryWrites(obj, pol, p, b) == EntryWrites(obj, pol, p, b[..n]) + last;
      assert EntryWrites(obj, pol, p, a) + EntryWrites(obj, pol, p, b[..n]) + last ==
        EntryWrites(obj, pol, p, a) + (EntryWrites(obj, pol, p, b[..n]) + last);
    } else {
      assert a + b == a;
    }
  }

  /** A run of entries leaves alone every field none of them names. */
  lemma {:induction false} EntryMiss(obj: Json, pol: Json, p: string, es: seq<Entry>, k: string)
    requires forall i :: 0 <= i < |es| ==> k != Field(p + es[i].name)
    ensures LastValue(EntryWrites(obj, pol, p, es), k) == None
  {
    if es != [] {
      var n := |es| - 1;
      var v := EntryValue(obj, pol, es[n]);
      assert forall i :: 0 <= i < n ==> es[..n][i] == es[i];
      EntryMiss(obj, pol, p, es[..n], k);
      LastValueAppend(EntryWrites(obj, pol, p, es[..n]), if v.Some? then [(Field(p + es[n].name), v.value)] else [], k);
    }
  }

  /** Off the limit fields, the general-liability line does not depend on
      its limits. */
  lemma GlLineAgrees(line: Json, pol: Json, a: seq<Entry>, b: seq<Entry>, k: string)
    requires OffLimits(k, a) && OffLimits(k, b)
    ensures LastValue(LineWrites(line, pol, Lines(a)[0]), k) == LastValue(LineWrites(line, pol, Lines(b)[0]), k)
  {
    if Flag(line, "has") {
      var h := EntryWrites(line, pol, GlPrefix, GlHead);
      EntryWritesAppend(line, pol, GlPrefix, GlHead, a);
      EntryWritesAppend(line, pol, GlPrefix, GlHead, b);
      EntryMiss(line, pol, GlPrefix, a, k);
      EntryMiss(line, pol, GlPrefix, b, k);
      LastValueAppend(h, EntryWrites(line, pol, GlPrefix, a), k);
      LastValueAppend(h, EntryWrites(line, pol, GlPrefix, b), k);
    }
  }

  /** The four lines, one after the other. */
  lemma CoverageOfLines(cov: Json, pol: Json, limits: seq<Entry>)
    ensures var ls := Lines(limits);
      CoverageWrites(cov, pol, ls) ==
        LineWrites(Sub(cov, "gl"), pol, ls[0]) + LineWrites(Sub(cov, "auto"), pol, ls[1])
        + LineWrites(Sub(cov, "umbrella"), pol, ls[2]) + LineWrites(Sub(cov, "workers_comp"), pol, ls[3])
  {
    var ls := Lines(limits);
    assert ls[..3][..2] == ls[..2] && ls[..2][..1] == ls[..1] && ls[..1][..0] == [];
    assert CoverageWrites(cov, pol, ls[..1]) == LineWrites(Sub(cov, "gl"), pol, ls[0]);
    assert CoverageWrites(cov, pol, ls[..2]) == CoverageWrites(cov, pol, ls[..1]) + LineWrites(Sub(cov, "auto"), pol, ls[1]);
    assert CoverageWrites(cov, pol, ls[..3]) == CoverageWrites(cov, pol, ls[..2]) + LineWrites(Sub(cov, "umbrella"), pol, ls[2]);
    assert ls[..|ls| - 1] == ls[..3];
  }

  /** Off the limit fields, the coverage lines do not depend on the
      general-liability limits. */
  lemma CoverageAgrees(cov: Json, pol: Json, a: seq<Entry>, b: seq<Entry>, k: string)
    requires OffLimits(k, a) && OffLimits(k, b)
    ensures LastValue(CoverageWrites(cov, pol, Lines(a)), k) == LastValue(CoverageWrites(cov, pol, Lines(b)), k)
  {
    CoverageOfLines(cov, pol, a);
    CoverageOfLines(cov, pol, b);
    GlLineAgrees(Sub(cov, "gl"), pol, a, b, k);
    assert Lines(a)[1..] == Lines(b)[1..];
    SwapFirst(LineWrites(Sub(cov, "gl"), pol, Lines(a)[0]), LineWrites(Sub(cov, "gl"), pol, Lines(b)[0]),
      LineWrites(Sub(cov, "auto"), pol, Lines(a)[1]), LineWrites(Sub(cov, "umbrella"), pol, Lines(a)[2]),
      LineWrites(Sub(cov, "workers_comp"), pol, Lines(a)[3]), k);
  }

  /** Swapping the first of four runs for one that leaves the same value at
      `k` leaves the same value at `k`. */
  lemma SwapFirst(g: Writes, h: Writes, x: Writes, y: Writes, z: Writes, k: string)
    requires LastValue(g, k) == LastValue(h, k)
    ensures LastValue(g + x + y + z, k) == LastValue(h + x + y + z, k)
  {
    LastValueAppend(g + x + y, z, k);
    LastValueAppend(h + x + y, z, k);
    LastValueAppend(g + x, y, k);
    LastValueAppend(h + x, y, k);
    LastValueAppend(g, x, k);
    LastValueAppend(h, x, k);
  }

  /** Swapping the middle of five runs for one that leaves the same value
      at `k` leaves the same value at `k`. */
  lemma SwapMiddle(h: Writes, x: Writes, c: Writes, d: Writes, e: Writes, t: Writes, k: string)
    requires LastValue(c, k) == LastValue(d, k)
    ensures LastValue(h + (x + c + e) + t, k) == LastValue(h + (x + d + e) + t, k)
  {
    LastValueAppend(h + (x + c + e), t, k);
    LastValueAppend(h + (x + d + e), t, k);
    LastValueAppend(h, x + c + e, k);
    LastValueAppend(h, x + d + e, k);
    LastValueAppend(x + c, e, k);
    LastValueAppend(x + d, e, k);
    LastValueAppend(x, c, k);
    LastValueAppend(x, d, k);
  }

  /** Off the limit fields, the assignments of two mappers that differ
      only in their general-liability limits leave the same values. */
  lemma WritesAgree(pd: Json, holder: Json, agency: Json, today: string, a: seq<Entry>, b: seq<Entry>, k: string)
    requires HeadWrites(pd).Success? && TailWrites(pd, holder).Success?
    requires OffLimits(k, a) && OffLimits(k, b)
    ensures LastValue(HeadWrites(pd).value + MiddleWrites(pd, holder, agency, today, Lines(a)) + TailWrites(pd, holder).value, k) ==
      LastValue(HeadWrites(pd).value + MiddleWrites(pd, holder, agency, today, Lines(b)) + TailWrites(pd, holder).value, k)
  {
    var cov := Sub(pd, "coverages");
    var pol := Sub(pd, "policy");
    CoverageAgrees(cov, pol, a, b, k);
    SwapMiddle(HeadWrites(pd).value, PartyWrites(pd, agency, today), CoverageWrites(cov, pol, Lines(a)),
      CoverageWrites(cov, pol, Lines(b)), EntryWrites(holder, JObj([]), HolderPrefix, HolderFields),
      TailWrites(pd, holder).value, k);
  }

  /** Two mappers that differ only in their general-liability limits raise
      together, with the same error, and agree on every field other than
      those limits. */
  lemma CopiesAgree(pd: Json, holder: Json, agency: Json, today: string, a: seq<Entry>, b: seq<Entry>, k: string)
    requires OffLimits(k, a) && OffLimits(k, b)
    ensures var x := Acord25Fields(pd, holder, agency, today, Lines(a));
      var y := Acord25Fields(pd, holder, agency, today, Lines(b));
      (x.Failure? <==> y.Failure?) && (x.Failure? ==> x.error == y.error) &&
      (x.Success? ==> Lookup(x.value, k) == Lookup(y.value, k))
  {
    if Acord25Fields(pd, holder, agency, today, Lines(a)).Success? {
      ReadsLast(pd, holder, agency, today, Lines(a), k);
      ReadsLast(pd, holder, agency, today, Lines(b), k);
      WritesAgree(pd, holder, agency, today, a, b, k);
    }
  }

  /** The server's dict and map_acord25.py's agree on every field but the
      limits that differ, and raise together. */
  lemma ServerAgrees(pd: Json, holder: Json, agency: Json, today: string, k: string)
    requires OffLimits(k, GlLimits) && OffLimits(k, ServerGlLimits)
    ensures var x := Acord25Fields(pd, holder, agency, today, FormLines);
      var y := Acord25Fields(pd, holder, agency, today, Lines(ServerGlLimits));
      (x.Failure? <==> y.Failure?) && (x.Failure? ==> x.error == y.error) &&
      (x.Success? ==> Lookup(x.value, k) == Lookup(y.value, k))
  {
    CopiesAgree(pd, holder, agency, today, GlLimits, ServerGlLimits, k);
  }

  /** A limit field of either copy holds the line's value, or "", when the
      line has coverage, and is not assigned otherwise. */
  lemma LimitField(pd: Json, holder: Json, agency: Json, today: string, limits: seq<Entry>, i: nat)
    requires LimitsOk(limits) && Acord25Fields(pd, holder, agency, today, Lines(limits)).Success?
    requires i < |limits| && limits[i].Copy?
    ensures var gl := Sub(Sub(pd, "coverages"), "gl");
      Lookup(Acord25Fields(pd, holder, agency, today, Lines(limits)).value, Field(GlPrefix + limits[i].name)) ==
        if Flag(gl, "has") then Some(GetOr(gl, limits[i].key, JStr(""))) else None
  {
    var j := |GlHead| + i;
    assert Lines(limits)[0].entries[j] == limits[i];
    FormCoverageField(pd, holder, agency, today, limits, 0, j);
  }

  // ----- every other form -----

  /** `{**policy, **holder}`: the policy's members, then the holder's,
      a holder key replacing the policy's value in place; anything but a
      dict raises. */
  function MergeFields(policy: Json, holder: Json): Result<FieldMap, string> {
    if !policy.JObj? || !holder.JObj? then Failure("TypeError: not a mapping")
    else Success(PutAll(PutAll([], policy.members), holder.members))
  }

  /** The merge holds the holder's value for every key the holder has, and
      the policy's for the others; it has no other keys. */
  lemma MergeLookup(policy: Json, holder: Json, k: string)
    requires policy.JObj? && holder.JObj?
    ensures var m := MergeFields(policy, holder).value;
      var h := LastValue(holder.members, k);
      Lookup(m, k) == if h.Some? then h else LastValue(policy.members, k)
  {
    PutAllLookup(PutAll([], policy.members), holder.members, k);
    PutAllLookup([], policy.members, k);
  }

  /** The merge is a dict: no key twice. */
  lemma MergeValid(policy: Json, holder: Json)
    requires policy.JObj? && holder.JObj?
    ensures Valid(MergeFields(policy, holder).value)
  {
    PutAllKeys([], policy.members);
    PutAllKeys(PutAll([], policy.members), holder.members);
  }

  /** The merge raises exactly when the policy or the holder is not a
      dict. */
  lemma MergeRaises(policy: Json, holder: Json)
    ensures MergeFields(policy, holder).Failure? <==> !policy.JObj? || !holder.JObj?
  {
  }

  /** The field data of the fill endpoint. */
  function FieldDataFor(form: string, policy: Json, holder: Json, agency: Json, today: string): Result<FieldMap, string> {
    if form == "25" then Acord25Fields(policy, holder, agency, today, Lines(ServerGlLimits))
    else MergeFields(policy, holder)
  }

  /** For the ACORD 25 the endpoint's dict is the standalone mapper's at
      every field but the two renamed limits, and raises when it does. */
  lemma EndpointAcord25(policy: Json, holder: Json, agency: Json, today: string, k: string)
    requires OffLimits(k, GlLimits) && OffLimits(k, ServerGlLimits)
    ensures var x := Acord25Fields(policy, holder, agency, today, FormLines);
      var r := FieldDataFor("25", policy, holder, agency, today);
      (r.Failure? <==> x.Failure?) && (r.Failure? ==> r.error == x.error) &&
      (r.Success? ==> Lookup(r.value, k) == Lookup(x.value, k))
  {
    ServerAgrees(policy, holder, agency, today, k);
  }

  /** Every other form is filled from the merge: the holder's value where
      the holder has the key, the policy's otherwise; it raises exactly
      when one of them is not a dict. */
  lemma EndpointOtherForm(form: string, policy: Json, holder: Json, agency: Json, today: string, k: string)
    requires form != "25"
    ensures var r := FieldDataFor(form, policy, holder, agency, today);
      (r.Failure? <==> !policy.JObj? || !holder.JObj?) &&
      (r.Success? ==> var h := LastValue(holder.members, k);
        Lookup(r.value, k) == if h.Some? then h else LastValue(policy.members, k))
  {
    if policy.JObj? && holder.JObj? {
      MergeLookup(policy, holder, k);
    }
  }
}
