/** The insurers table of the ACORD 25 dict: which insurer each slot's
    name and NAIC code come from, when the table raises, and the legacy
    single-carrier fallback. */
module Acord25Insurers {
  import opened Wrappers
  import opened Json
  import opened FieldMap
  import opened FieldData
  import opened MapAcord25
  import opened Acord25Facts
  import opened Acord25Lookups

  // ----- slot fields -----

  /** Slots are told apart by their letters, and a name field is never a
      NAIC-code field. */
  lemma SlotFieldsApart(a: string, b: string)
    ensures NameField(a) != NaicField(b)
    ensures NameField(a) == NameField(b) ==> a == b
    ensures NaicField(a) == NaicField(b) ==> a == b
  {
    var x := "Insurer_FullName_" + a;
    var y := "Insurer_NAICCode_" + b;
    FieldInjective(x, y);
    assert x[8] != y[8];
    PrefixedInjective("Insurer_FullName_", a, b);
    PrefixedInjective("Insurer_NAICCode_", a, b);
  }

  /** Both fields of a slot are insurer fields. */
  lemma SlotFieldsTagged(letter: string)
    ensures |NameField(letter)| > 11 && NameField(letter)[11] in InsurerTags
    ensures |NaicField(letter)| > 11 && NaicField(letter)[11] in InsurerTags
  {
    PrefixedInitial("Insurer_FullName_", letter);
    PrefixedInitial("Insurer_NAICCode_", letter);
  }

  /** The last of the first `count` insurers whose letter is `letter`. */
  function LastOfLetter(insurers: seq<Json>, count: nat, letter: string): (r: Option<nat>)
    requires count <= |insurers|
    ensures r.Some? ==> r.value < count && InsurerLetter(insurers[r.value]) == Success(letter)
    ensures r.Some? ==> forall i :: r.value < i < count ==> InsurerLetter(insurers[i]) != Success(letter)
    ensures r.None? ==> forall i :: 0 <= i < count ==> InsurerLetter(insurers[i]) != Success(letter)
  {
    if count == 0 then None
    else if InsurerLetter(insurers[count - 1]) == Success(letter) then Some(count - 1)
    else LastOfLetter(insurers, count - 1, letter)
  }

  /** The carrier and NAIC code a slot shows: those of the insurer at `at`,
      or nothing. */
  function SlotName(insurers: seq<Json>, at: Option<nat>): Option<Json>
    requires at.Some? ==> at.value < |insurers|
  {
    if at.Some? then Some(GetOr(insurers[at.value], "carrier", JStr(""))) else None
  }

  function SlotNaic(insurers: seq<Json>, at: Option<nat>): Option<Json>
    requires at.Some? ==> at.value < |insurers|
  {
    if at.Some? then Some(GetOr(insurers[at.value], "naic", JStr(""))) else None
  }

  /** One slot's two assignments, read at a slot field. */
  lemma SlotValue(insurer: Json, own: string, letter: string)
    ensures LastValue(InsurerSlot(insurer, own), NameField(letter)) ==
      if own == letter then Some(GetOr(insurer, "carrier", JStr(""))) else None
    ensures LastValue(InsurerSlot(insurer, own), NaicField(letter)) ==
      if own == letter then Some(GetOr(insurer, "naic", JStr(""))) else None
  {
    var name := (NameField(own), GetOr(insurer, "carrier", JStr("")));
    var naic := (NaicField(own), GetOr(insurer, "naic", JStr("")));
    SlotFieldsApart(letter, own);
    SlotFieldsApart(own, letter);
    assert InsurerSlot(insurer, own) == [name] + [naic];
    LastValueAppend([name], [naic], NameField(letter));
    LastValueAppend([name], [naic], NaicField(letter));
    assert [name][..0] == [] && [naic][..0] == [];
  }

  // ----- the insurer loop -----

  /** The loop raises exactly when one of the insurers it reads has a
      letter `ord` refuses, and writes two fields per insurer otherwise. */
  lemma {:induction false} InsurerLoopSucceeds(insurers: seq<Json>, count: nat)
    requires count <= |insurers|
    ensures InsurerWrites(insurers, count).Success? <==> forall i :: 0 <= i < count ==> InsurerLetter(insurers[i]).Success?
    ensures InsurerWrites(insurers, count).Success? ==> |InsurerWrites(insurers, count).value| == 2 * count
  {
    if count > 0 {
      InsurerLoopSucceeds(insurers, count - 1);
    }
  }

  /** A slot filled by the loop holds the last insurer with its letter:
      a later insurer with the same letter overwrites an earlier one. */
  lemma {:induction false} LoopSlot(insurers: seq<Json>, count: nat, letter: string)
    requires count <= |insurers| && InsurerWrites(insurers, count).Success?
    ensures var w := InsurerWrites(insurers, count).value;
      var at := LastOfLetter(insurers, count, letter);
      LastValue(w, NameField(letter)) == SlotName(insurers, at) &&
      LastValue(w, NaicField(letter)) == SlotNaic(insurers, at)
  {
    if count > 0 {
      var n := count - 1;
      var earlier := InsurerWrites(insurers, n).value;
      var own := InsurerLetter(insurers[n]).value;
      var slot := InsurerSlot(insurers[n], own);
      assert InsurerWrites(insurers, count).value == earlier + slot;
      LoopSlot(insurers, n, letter);
      SlotValue(insurers[n], own, letter);
      LastValueAppend(earlier, slot, NameField(letter));
      LastValueAppend(earlier, slot, NaicField(letter));
    }
  }

  /** The insurers table and slot A: slot A always shows the first
      insurer, whatever its letter; any other slot shows the last of the
      first five insurers with its letter. */
  lemma HeadSlot(pd: Json, letter: string)
    requires HeadWrites(pd).Success?
    ensures var ins := Insurers(pd);
      var at := if letter == "A" && ins != [] then Some(0) else LastOfLetter(ins, Min(5, |ins|), letter);
      LastValue(HeadWrites(pd).value, NameField(letter)) == SlotName(ins, at) &&
      LastValue(HeadWrites(pd).value, NaicField(letter)) == SlotNaic(ins, at)
  {
    var ins := Insurers(pd);
    var named := InsurerWrites(ins, Min(5, |ins|)).value;
    LoopSlot(ins, Min(5, |ins|), letter);
    LastValueAppend(named, SlotAWrites(ins), NameField(letter));
    LastValueAppend(named, SlotAWrites(ins), NaicField(letter));
    if ins != [] {
      SlotValue(ins[0], "A", letter);
    }
  }

  // ----- the dict -----

  /** The slot fields of the returned dict. */
  lemma InsurerFields(pd: Json, holder: Json, agency: Json, today: string, ls: seq<Line>, letter: string)
    requires Acord25Fields(pd, holder, agency, today, ls).Success? && LinesTagged(ls, LineTags)
    ensures var ins := Insurers(pd);
      var m := Acord25Fields(pd, holder, agency, today, ls).value;
      var at := if letter == "A" && ins != [] then Some(0) else LastOfLetter(ins, Min(5, |ins|), letter);
      Lookup(m, NameField(letter)) == SlotName(ins, at) &&
      Lookup(m, NaicField(letter)) == SlotNaic(ins, at)
  {
    SlotFieldsTagged(letter);
    HeadDecides(pd, holder, agency, today, ls, NameField(letter));
    HeadDecides(pd, holder, agency, today, ls, NaicField(letter));
    HeadSlot(pd, letter);
  }

  /** Falsy `insurers` and a legacy carrier: the table is one slot-A
      insurer with the legacy policy's carrier and NAIC code. */
  lemma LegacyInsurer(pd: Json)
    requires !Truthy(GetOr(pd, "insurers", JArr([]))) && Flag(Sub(pd, "policy"), "carrier")
    ensures var pol := Sub(pd, "policy");
      |Insurers(pd)| == 1 && InsurerLetter(Insurers(pd)[0]) == Success("A") &&
      GetOr(Insurers(pd)[0], "carrier", JStr("")) == Get(pol, "carrier") &&
      GetOr(Insurers(pd)[0], "naic", JStr("")) == GetOr(pol, "naic", JStr(""))
    ensures HeadWrites(pd).Success?
  {
    var pol := Sub(pd, "policy");
    var ms := Insurers(pd)[0].members;
    assert ms[0].0 == "letter" && ms[1].0 == "carrier" && ms[2].0 == "naic";
    assert Find(ms[2..], "naic") == Some(GetOr(pol, "naic", JStr("")));
    assert ms[1..][1..] == ms[2..];
    assert Find(ms[1..], "naic") == Find(ms[2..], "naic");
    assert Find(ms[1..], "carrier") == Some(Get(pol, "carrier"));
    InsurerLoopSucceeds(Insurers(pd), 1);
  }

  /** Without listed insurers or a legacy carrier, no slot is filled. */
  lemma NoInsurers(pd: Json, letter: string)
    requires HeadWrites(pd).Success? && Insurers(pd) == []
    ensures LastValue(HeadWrites(pd).value, NameField(letter)) == None
    ensures LastValue(HeadWrites(pd).value, NaicField(letter)) == None
  {
    HeadSlot(pd, letter);
  }

  /** `map_to_acord25` raises exactly when one of the first five insurers
      has a letter `ord` refuses, or the holder is an additional insured
      without a name; the insurers beyond the fifth are never read. */
  lemma Acord25Succeeds(pd: Json, holder: Json, agency: Json, today: string, ls: seq<Line>)
    ensures var ins := Insurers(pd);
      Acord25Fields(pd, holder, agency, today, ls).Success? <==>
        (forall i :: 0 <= i < Min(5, |ins|) ==> InsurerLetter(ins[i]).Success?) &&
        (Flag(holder, "additional_insured") ==> Has(holder, "name"))
  {
    HeadSucceeds(pd);
    assert TailWrites(pd, holder).Success? <==> RemarkParts(holder).Success?;
  }

  lemma HeadSucceeds(pd: Json)
    ensures var ins := Insurers(pd);
      HeadWrites(pd).Success? <==> forall i :: 0 <= i < Min(5, |ins|) ==> InsurerLetter(ins[i]).Success?
  {
    var ins := Insurers(pd);
    InsurerLoopSucceeds(ins, Min(5, |ins|));
  }
}
