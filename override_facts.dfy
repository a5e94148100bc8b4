/** The last two steps of `_build_field_data`: the raw checkboxes, then the
    overrides, have the final word, and the dict it returns keeps its keys
    distinct and holds exactly the fields some step assigned. */
module OverrideFacts {
  import opened Wrappers
  import opened Json
  import opened FieldMap
  import opened FieldData
  import opened HistoryFacts

  /** The i-th key of an association list is its i-th entry's name. */
  lemma {:induction false} KeysIndex(m: FieldMap)
    ensures forall i :: 0 <= i < |m| ==> Keys(m)[i] == m[i].0
  {
    if m != [] {
      KeysIndex(m[1..]);
      assert Keys(m) == [m[0].0] + Keys(m[1..]);
    }
  }

  /** A name is among the entries exactly when an assignment run of them
      assigns it. */
  lemma KeysAssigned(ws: Writes, k: string)
    ensures k in Keys(ws) <==> LastValue(ws, k).Some?
  {
    KeysIndex(ws);
    LastValueWritten(ws, k);
    if k in Keys(ws) {
      var i :| 0 <= i < |Keys(ws)| && Keys(ws)[i] == k;
      assert ws[i].0 == k;
    }
  }

  /** `fields[name] = "Yes" if value else ""`: the last entry of a name
      decides its box. */
  lemma {:induction false} CheckboxLast(entries: seq<(string, Json)>, k: string)
    ensures LastValue(CheckboxWrites(entries), k) ==
      if LastValue(entries, k).Some? then Some(JStr(if Truthy(LastValue(entries, k).value) then "Yes" else "")) else None
  {
    if entries != [] {
      CheckboxLast(entries[..|entries| - 1], k);
    }
  }

  /** The dict holds exactly the last value assigned to each name in the
      whole run of `_build_field_data`. */
  lemma FieldDataLookup(config: Json, today: string, k: string)
    ensures Lookup(FieldDict(config, today), k) == LastValue(FieldWrites(config, today), k)
  {
    PutAllLookup([], FieldWrites(config, today), k);
  }

  /** An override always wins: a name among the overrides holds its last
      override value, whatever any earlier step wrote. */
  lemma OverridesWin(config: Json, today: string, k: string)
    requires k in Keys(Overrides(config))
    ensures Lookup(FieldDict(config, today), k) == LastValue(Overrides(config), k)
  {
    var before := ApplicantWrites(config, today) + PropertyWrites(config, today) + HistoryWrites(config)
      + CheckboxWrites(Checkboxes(config));
    FieldDataLookup(config, today, k);
    KeysAssigned(Overrides(config), k);
    LastValueAppend(before, Overrides(config), k);
  }

  /** A raw checkbox not overridden holds `"Yes"` when its last entry is
      truthy and `""` otherwise, whatever any earlier step wrote. */
  lemma CheckboxesWin(config: Json, today: string, k: string)
    requires k in Keys(Checkboxes(config)) && k !in Keys(Overrides(config))
    ensures LastValue(Checkboxes(config), k).Some?
    ensures Lookup(FieldDict(config, today), k) ==
      Some(JStr(if Truthy(LastValue(Checkboxes(config), k).value) then "Yes" else ""))
  {
    var before := ApplicantWrites(config, today) + PropertyWrites(config, today) + HistoryWrites(config);
    var boxes := CheckboxWrites(Checkboxes(config));
    FieldDataLookup(config, today, k);
    KeysAssigned(Overrides(config), k);
    KeysAssigned(Checkboxes(config), k);
    CheckboxLast(Checkboxes(config), k);
    LastValueAppend(before + boxes, Overrides(config), k);
    LastValueAppend(before, boxes, k);
  }

  /** Neither the raw checkboxes nor the overrides touch a name that is in
      neither of them: it keeps what the mapping steps before them left. */
  lemma EarlierStand(config: Json, today: string, k: string)
    requires k !in Keys(Checkboxes(config)) && k !in Keys(Overrides(config))
    ensures Lookup(FieldDict(config, today), k) ==
      LastValue(ApplicantWrites(config, today) + PropertyWrites(config, today) + HistoryWrites(config), k)
  {
    var before := ApplicantWrites(config, today) + PropertyWrites(config, today) + HistoryWrites(config);
    var boxes := CheckboxWrites(Checkboxes(config));
    FieldDataLookup(config, today, k);
    KeysAssigned(Overrides(config), k);
    KeysAssigned(Checkboxes(config), k);
    CheckboxLast(Checkboxes(config), k);
    LastValueAppend(before + boxes, Overrides(config), k);
    LastValueAppend(before, boxes, k);
  }

  /** The dict never holds a name twice, and holds a name exactly when some
      step assigned it. */
  lemma FieldDataValid(config: Json, today: string)
    ensures Valid(FieldDict(config, today))
    ensures forall k :: k in Keys(FieldDict(config, today)) <==> LastValue(FieldWrites(config, today), k).Some?
  {
    assert Valid([]);
    PutAllKeys([], FieldWrites(config, today));
    forall k ensures k in Keys(FieldDict(config, today)) <==> LastValue(FieldWrites(config, today), k).Some? {
      FieldDataLookup(config, today, k);
      LookupKeys(FieldDict(config, today), k);
    }
  }
}
