/** The certificate holder's part of the ACORD 25 dict: the holder's name
    and address, the remark text built from the holder's flags, and the
    additional-insured codes of the general-liability and automobile
    lines. */
module Acord25Holder {
  import opened Wrappers
  import opened Json
  import opened Text
  import opened FieldMap
  import opened FieldData
  import opened MapAcord25
  import opened Acord25Facts
  import opened Acord25Lookups

  /** Names that differ at one position name different fields. */
  lemma FieldsDiffer(a: string, b: string, i: nat)
    requires i < |a| && i < |b| && a[i] != b[i]
    ensures Field(a) != Field(b)
  {
    FieldInjective(a, b);
  }

  /** A run of entries never assigns a field whose name leaves their
      prefix at position `i`. */
  lemma {:induction false} PrefixMiss(obj: Json, pol: Json, p: string, es: seq<Entry>, k: string, i: nat)
    requires i < |p| && i < |k| && p[i] != k[i]
    ensures LastValue(EntryWrites(obj, pol, p, es), Field(k)) == None
  {
    if es != [] {
      var n := |es| - 1;
      var v := EntryValue(obj, pol, es[n]);
      PrefixMiss(obj, pol, p, es[..n], k, i);
      FieldsDiffer(p + es[n].name, k, i);
      LastValueAppend(EntryWrites(obj, pol, p, es[..n]), if v.Some? then [(Field(p + es[n].name), v.value)] else [], Field(k));
    }
  }

  /** The remark and the two codes are four distinct fields apart from the
      holder's. */
  lemma TailFieldsApart(n: string)
    ensures Field(RemarkField) != Field(GlCodeField) && Field(RemarkField) != Field(AutoCodeField)
    ensures Field(GlCodeField) != Field(AutoCodeField)
    ensures Field(HolderPrefix + n) != Field(RemarkField)
    ensures Field(HolderPrefix + n) != Field(GlCodeField) && Field(HolderPrefix + n) != Field(AutoCodeField)
  {
    FieldsDiffer(RemarkField, GlCodeField, 13);
    FieldsDiffer(RemarkField, AutoCodeField, 13);
    FieldsDiffer(GlCodeField, AutoCodeField, 23);
    FieldsDiffer(HolderPrefix + n, RemarkField, 11);
    FieldsDiffer(HolderPrefix + n, GlCodeField, 11);
    FieldsDiffer(HolderPrefix + n, AutoCodeField, 11);
  }

  /** Two conditional assignments to distinct keys, read at a key. */
  lemma WhenPairValue(c: bool, k: string, d: bool, l: string, v: Json, key: string)
    requires k != l
    ensures LastValue(When(c, k, v) + When(d, l, v), key) ==
      if c && k == key then Some(v) else if d && l == key then Some(v) else None
  {
    LastValueAppend(When(c, k, v), When(d, l, v), key);
    WhenValue(c, k, v, key);
    WhenValue(d, l, v, key);
  }

  /** The codes, read at a key. */
  lemma CodeValue(pd: Json, holder: Json, key: string)
    ensures var ai := Flag(holder, "additional_insured");
      var cov := Sub(pd, "coverages");
      LastValue(CodeWrites(pd, holder), key) ==
        if ai && Flag(Sub(cov, "gl"), "has") && Field(GlCodeField) == key then Some(JStr("Y"))
        else if ai && Flag(Sub(cov, "auto"), "has") && Field(AutoCodeField) == key then Some(JStr("Y"))
        else None
  {
    var cov := Sub(pd, "coverages");
    FieldsDiffer(GlCodeField, AutoCodeField, 23);
    WhenPairValue(Flag(Sub(cov, "gl"), "has"), Field(GlCodeField), Flag(Sub(cov, "auto"), "has"), Field(AutoCodeField), JStr("Y"), key);
  }

  /** The remark and the codes, read at a key. */
  lemma TailValue(pd: Json, holder: Json, key: string)
    requires TailWrites(pd, holder).Success?
    ensures var parts := RemarkParts(holder).value;
      var c := LastValue(CodeWrites(pd, holder), key);
      LastValue(TailWrites(pd, holder).value, key) ==
        if c.Some? then c else if parts != [] && Field(RemarkField) == key then Some(JStr(Join("\n", parts))) else None
  {
    var parts := RemarkParts(holder).value;
    LastValueAppend(RemarkWrites(parts), CodeWrites(pd, holder), key);
    WhenValue(parts != [], Field(RemarkField), JStr(Join("\n", parts)), key);
  }

  /** What the holder's entries and the tail leave at a key. */
  function HolderEnd(pd: Json, holder: Json, key: string): Option<Json>
    requires TailWrites(pd, holder).Success?
  {
    var t := LastValue(TailWrites(pd, holder).value, key);
    if t.Some? then t else LastValue(EntryWrites(holder, JObj([]), HolderPrefix, HolderFields), key)
  }

  lemma HolderEndAtHolder(pd: Json, holder: Json, i: nat)
    requires TailWrites(pd, holder).Success? && i < |HolderFields|
    ensures var e := HolderFields[i];
      e.Copy? && HolderEnd(pd, holder, Field(HolderPrefix + e.name)) == Some(GetOr(holder, e.key, JStr("")))
  {
    var n := HolderFields[i].name;
    var k := Field(HolderPrefix + n);
    TailValue(pd, holder, k);
    CodeValue(pd, holder, k);
    TailFieldsApart(n);
    HolderTable();
    EntryStores(holder, JObj([]), HolderPrefix, HolderFields, i);
  }

  lemma HolderEndAtRemark(pd: Json, holder: Json)
    requires TailWrites(pd, holder).Success?
    ensures var parts := RemarkParts(holder).value;
      HolderEnd(pd, holder, Field(RemarkField)) == if parts != [] then Some(JStr(Join("\n", parts))) else None
  {
    TailValue(pd, holder, Field(RemarkField));
    CodeValue(pd, holder, Field(RemarkField));
    FieldsDiffer(RemarkField, GlCodeField, 13);
    FieldsDiffer(RemarkField, AutoCodeField, 13);
    PrefixMiss(holder, JObj([]), HolderPrefix, HolderFields, RemarkField, 11);
  }

  lemma HolderEndAtGlCode(pd: Json, holder: Json)
    requires TailWrites(pd, holder).Success?
    ensures HolderEnd(pd, holder, Field(GlCodeField)) ==
      if Flag(holder, "additional_insured") && Flag(Sub(Sub(pd, "coverages"), "gl"), "has") then Some(JStr("Y")) else None
  {
    TailValue(pd, holder, Field(GlCodeField));
    CodeValue(pd, holder, Field(GlCodeField));
    FieldsDiffer(GlCodeField, AutoCodeField, 23);
    PrefixMiss(holder, JObj([]), HolderPrefix, HolderFields, GlCodeField, 11);
  }

  lemma HolderEndAtAutoCode(pd: Json, holder: Json)
    requires TailWrites(pd, holder).Success?
    ensures HolderEnd(pd, holder, Field(AutoCodeField)) ==
      if Flag(holder, "additional_insured") && Flag(Sub(Sub(pd, "coverages"), "auto"), "has") then Some(JStr("Y")) else None
  {
    TailValue(pd, holder, Field(AutoCodeField));
    CodeValue(pd, holder, Field(AutoCodeField));
    FieldsDiffer(GlCodeField, AutoCodeField, 23);
    PrefixMiss(holder, JObj([]), HolderPrefix, HolderFields, AutoCodeField, 11);
  }

  /** The holder's entries copy six distinct keys. */
  lemma HolderTable()
    ensures Unique(HolderFields)
    ensures forall i :: 0 <= i < |HolderFields| ==> HolderFields[i].Copy?
  {
  }

  // ----- the dict -----

  /** The holder's name and address fields hold the holder's values, or
      "" when a value is missing. */
  lemma HolderField(pd: Json, holder: Json, agency: Json, today: string, ls: seq<Line>, i: nat)
    requires Acord25Fields(pd, holder, agency, today, ls).Success? && LinesTagged(ls, LineTags)
    requires i < |HolderFields|
    ensures var e := HolderFields[i];
      e.Copy? && Lookup(Acord25Fields(pd, holder, agency, today, ls).value, Field(HolderPrefix + e.name)) ==
        Some(GetOr(holder, e.key, JStr("")))
  {
    PrefixedInitial(HolderPrefix, HolderFields[i].name);
    HolderDecides(pd, holder, agency, today, ls, Field(HolderPrefix + HolderFields[i].name));
    HolderEndAtHolder(pd, holder, i);
  }

  /** The remark is there exactly when the holder's flags give it a
      sentence, and is the sentences joined by line breaks. */
  lemma RemarkLookup(pd: Json, holder: Json, agency: Json, today: string, ls: seq<Line>)
    requires Acord25Fields(pd, holder, agency, today, ls).Success? && LinesTagged(ls, LineTags)
    ensures RemarkParts(holder).Success?
    ensures var parts := RemarkParts(holder).value;
      Lookup(Acord25Fields(pd, holder, agency, today, ls).value, Field(RemarkField)) ==
        if parts != [] then Some(JStr(Join("\n", parts))) else None
  {
    FieldInitial(RemarkField);
    HolderDecides(pd, holder, agency, today, ls, Field(RemarkField));
    HolderEndAtRemark(pd, holder);
  }

  /** The additional-insured code of the general-liability or the
      automobile line is "Y" exactly when the holder is an additional
      insured and the line has coverage, and is not assigned otherwise. */
  lemma CodeLookup(pd: Json, holder: Json, agency: Json, today: string, ls: seq<Line>, code: string, line: string)
    requires Acord25Fields(pd, holder, agency, today, ls).Success? && LinesTagged(ls, LineTags)
    requires (code, line) == (GlCodeField, "gl") || (code, line) == (AutoCodeField, "auto")
    ensures Lookup(Acord25Fields(pd, holder, agency, today, ls).value, Field(code)) ==
      if Flag(holder, "additional_insured") && Flag(Sub(Sub(pd, "coverages"), line), "has") then Some(JStr("Y")) else None
  {
    FieldInitial(code);
    HolderDecides(pd, holder, agency, today, ls, Field(code));
    if code == GlCodeField {
      HolderEndAtGlCode(pd, holder);
    } else {
      HolderEndAtAutoCode(pd, holder);
    }
  }

  // ----- the remark -----

  /** The remark has a sentence exactly when one of the four flags is set. */
  lemma RemarkPresent(holder: Json)
    requires RemarkParts(holder).Success?
    ensures RemarkParts(holder).value != [] <==>
      Flag(holder, "additional_insured") || Flag(holder, "waiver_of_subrogation") ||
      Flag(holder, "primary_noncontributory") || Flag(holder, "additional_description")
  {
  }

  /** The remark raises exactly when the holder is an additional insured
      without a name. */
  lemma RemarkRaises(holder: Json)
    ensures RemarkParts(holder).Failure? <==> Flag(holder, "additional_insured") && !Has(holder, "name")
  {
  }
}
