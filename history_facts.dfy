/** What `_build_field_data` promises about the prior carrier and the loss
    history: the prior carrier's five fields, at most three loss rows under
    their own numbered names, the exact-case column first, and the "no
    losses" box. */
module HistoryFacts {
  import opened Wrappers
  import opened Json
  import opened Text
  import opened FieldMap
  import opened FieldData
  import opened FieldFacts

  // ----- the prior carrier -----

  /** With a truthy `prior_carrier`, each of its five fields holds
      `prior.get(key, "")`; without one, none is written. */
  lemma PriorStored(config: Json, j: nat)
    requires j < |PriorFields|
    ensures var prior := Sub(config, "prior_carrier");
      LastValue(PriorWrites(config), PriorFields[j].stem) ==
        if Truthy(prior) then Some(GetOr(prior, PriorFields[j].key, JStr(""))) else None
  {
    var prior := Sub(config, "prior_carrier");
    assert PriorFields[j].stem + "" == PriorFields[j].stem;
    if Truthy(prior) {
      RuleStores(prior, PriorFields, "", j);
    }
  }

  // ----- loss rows -----

  /** The fields a loss row writes are named by the row's prefix and one of
      the columns. */
  lemma {:induction false} LossKeyNames(prefix: string, loss: Json, keys: seq<string>)
    ensures forall w :: w in LossKeyWrites(prefix, loss, keys) ==> exists j :: 0 <= j < |keys| && w.0 == prefix + keys[j]
  {
    if keys != [] {
      var n := |keys| - 1;
      LossKeyNames(prefix, loss, keys[..n]);
      forall w | w in LossKeyWrites(prefix, loss, keys)
        ensures exists j :: 0 <= j < |keys| && w.0 == prefix + keys[j]
      {
        if w in LossKeyWrites(prefix, loss, keys[..n]) {
          var j :| 0 <= j < n && w.0 == prefix + keys[..n][j];
          assert keys[j] == keys[..n][j];
        } else {
          assert w.0 == prefix + keys[n];
        }
      }
    }
  }

  lemma PrefixKey(p: string, a: string, b: string)
    ensures p + a == p + b ==> a == b
  {
    if p + a == p + b {
      assert a == (p + a)[|p|..];
      assert b == (p + b)[|p|..];
    }
  }

  /** Within one row, each column is written exactly when the loss has it
      (in either case), as `str()` of the exact-case value when present and
      of the lower-case one otherwise. */
  lemma {:induction false} LossKeyStores(prefix: string, loss: Json, keys: seq<string>, j: nat)
    requires j < |keys| && Distinct(keys)
    ensures LastValue(LossKeyWrites(prefix, loss, keys), prefix + keys[j]) ==
      if LossHas(loss, keys[j]) then Some(StrOf(LossValue(loss, keys[j]))) else None
  {
    var n := |keys| - 1;
    var init := keys[..n];
    var k := prefix + keys[j];
    WhenAfter(LossKeyWrites(prefix, loss, init), LossHas(loss, keys[n]), prefix + keys[n], StrOf(LossValue(loss, keys[n])), k);
    PrefixKey(prefix, keys[n], keys[j]);
    DistinctInit(keys, n);
    if j < n {
      assert init[j] == keys[j];
      LossKeyStores(prefix, loss, init, j);
    } else {
      LossKeyMiss(prefix, loss, init, keys[n]);
    }
  }

  /** A prefix of distinct names is distinct, and leaves out the names
      after it. */
  lemma DistinctInit(keys: seq<string>, n: nat)
    requires n < |keys| && Distinct(keys)
    ensures Distinct(keys[..n]) && keys[n] !in keys[..n]
  {
    assert forall i :: 0 <= i < n ==> keys[..n][i] == keys[i];
  }

  /** A column that is not among `keys` is never written. */
  lemma {:induction false} LossKeyMiss(prefix: string, loss: Json, keys: seq<string>, key: string)
    requires key !in keys
    ensures LastValue(LossKeyWrites(prefix, loss, keys), prefix + key) == None
  {
    if keys != [] {
      var n := |keys| - 1;
      assert keys[..n] + [keys[n]] == keys;
      WhenAfter(LossKeyWrites(prefix, loss, keys[..n]), LossHas(loss, keys[n]), prefix + keys[n], StrOf(LossValue(loss, keys[n])), prefix + key);
      PrefixKey(prefix, keys[n], key);
      LossKeyMiss(prefix, loss, keys[..n], key);
    }
  }

  /** A write among the first `count` rows comes from one of them. */
  lemma {:induction false} InLossRows(losses: seq<Json>, count: nat, keys: seq<string>, w: (string, Json))
    requires count <= |losses| && w in LossRows(losses, count, keys)
    ensures exists n :: 1 <= n <= count && w in LossKeyWrites(LossPrefix(n), losses[n - 1], keys)
  {
    if w in LossRows(losses, count - 1, keys) {
      InLossRows(losses, count - 1, keys, w);
    }
  }

  /** Every field the loss loop writes is `ACORD_LossHistory_{n}_<column>`
      for one of the first `count` losses. */
  lemma LossCap(losses: seq<Json>, count: nat, keys: seq<string>)
    requires count <= |losses|
    ensures forall w :: w in LossRows(losses, count, keys) ==>
      exists n, j :: 1 <= n <= count && 0 <= j < |keys| && w.0 == LossPrefix(n) + keys[j]
  {
    forall w | w in LossRows(losses, count, keys)
      ensures exists n, j :: 1 <= n <= count && 0 <= j < |keys| && w.0 == LossPrefix(n) + keys[j]
    {
      InLossRows(losses, count, keys, w);
      var n :| 1 <= n <= count && w in LossKeyWrites(LossPrefix(n), losses[n - 1], keys);
      LossKeyNames(LossPrefix(n), losses[n - 1], keys);
      var j :| 0 <= j < |keys| && w.0 == LossPrefix(n) + keys[j];
    }
  }

  /** Rows numbered by single digits never share a field name. */
  lemma RowsApart(m: nat, n: nat, a: string, b: string)
    requires 1 <= m <= 9 && 1 <= n <= 9 && m != n
    ensures LossPrefix(m) + a != LossPrefix(n) + b
  {
    assert (LossPrefix(m) + a)[18] == DigitChar(m);
    assert (LossPrefix(n) + b)[18] == DigitChar(n);
  }

  /** Among at most nine rows, row `n` alone decides its own fields. */
  lemma {:induction false} LossRowsStore(losses: seq<Json>, count: nat, keys: seq<string>, n: nat, j: nat)
    requires count <= |losses| && count <= 9 && Distinct(keys)
    requires 1 <= n <= count && j < |keys|
    ensures LastValue(LossRows(losses, count, keys), LossPrefix(n) + keys[j]) ==
      if LossHas(losses[n - 1], keys[j]) then Some(StrOf(LossValue(losses[n - 1], keys[j]))) else None
  {
    var k := LossPrefix(n) + keys[j];
    var earlier := LossRows(losses, count - 1, keys);
    var last := LossKeyWrites(LossPrefix(count), losses[count - 1], keys);
    LastValueAppend(earlier, last, k);
    if n == count {
      LossKeyStores(LossPrefix(n), losses[n - 1], keys, j);
      LossCap(losses, count - 1, keys);
      forall w | w in earlier ensures w.0 != k {
        var m, i :| 1 <= m <= count - 1 && 0 <= i < |keys| && w.0 == LossPrefix(m) + keys[i];
        RowsApart(m, n, keys[i], keys[j]);
      }
      LastValueAbsent(earlier, k);
    } else {
      LossKeyNames(LossPrefix(count), losses[count - 1], keys);
      forall w | w in last ensures w.0 != k {
        var i :| 0 <= i < |keys| && w.0 == LossPrefix(count) + keys[i];
        RowsApart(count, n, keys[i], keys[j]);
      }
      LastValueAbsent(last, k);
      LossRowsStore(losses, count - 1, keys, n, j);
    }
  }

  /** `_build_field_data` writes at most three loss rows: every field of the
      loss loop belongs to one of the first `min(3, len)` losses, and each
      column of such a row is decided by that loss alone. */
  lemma HistoryLossRows(config: Json, n: nat, j: nat)
    requires 1 <= n <= 3 && n <= |Losses(config)| && j < |LossKeys|
    ensures var losses := Losses(config);
      var rows := LossRows(losses, Min(3, |losses|), LossKeys);
      (forall w :: w in rows ==> exists m, i :: 1 <= m <= 3 && m <= |losses| && 0 <= i < |LossKeys| && w.0 == LossPrefix(m) + LossKeys[i]) &&
      LastValue(rows, LossPrefix(n) + LossKeys[j]) ==
        if LossHas(losses[n - 1], LossKeys[j]) then Some(StrOf(LossValue(losses[n - 1], LossKeys[j]))) else None
  {
    var losses := Losses(config);
    var count := Min(3, |losses|);
    var rows := LossRows(losses, count, LossKeys);
    LossCap(losses, count, LossKeys);
    forall w | w in rows
      ensures exists m, i :: 1 <= m <= 3 && m <= |losses| && 0 <= i < |LossKeys| && w.0 == LossPrefix(m) + LossKeys[i]
    {
      var m, i :| 1 <= m <= count && 0 <= i < |LossKeys| && w.0 == LossPrefix(m) + LossKeys[i];
    }
    LossRowsStore(losses, count, LossKeys, n, j);
  }

  /** `loss.get(key, loss.get(key.lower(), ""))`: the exact-case key wins,
      the lower-case key is the fallback, and a row column is skipped only
      when the loss has neither. */
  lemma LossValueChoice(loss: Json, key: string)
    ensures Has(loss, key) ==> LossValue(loss, key) == Get(loss, key)
    ensures !Has(loss, key) && Has(loss, Lower(key)) ==> LossValue(loss, key) == Get(loss, Lower(key))
    ensures !LossHas(loss, key) ==> LossValue(loss, key) == JStr("")
  {
  }

  // ----- the "no losses" box -----

  const LossNoneKey := "ACORD_LossHistory_None"

  /** No loss-row field is the "no losses" box: their names are longer. */
  lemma RowsMissNone(losses: seq<Json>, count: nat)
    requires count <= |losses|
    ensures LastValue(LossRows(losses, count, LossKeys), LossNoneKey) == None
  {
    var rows := LossRows(losses, count, LossKeys);
    LossCap(losses, count, LossKeys);
    forall w | w in rows ensures w.0 != LossNoneKey {
      var m, i :| 1 <= m <= count && 0 <= i < |LossKeys| && w.0 == LossPrefix(m) + LossKeys[i];
      assert |LossPrefix(m)| >= 20 && |LossKeys[i]| >= 3;
    }
    LastValueAbsent(rows, LossNoneKey);
  }

  /** No prior-carrier field is the "no losses" box. */
  lemma PriorMissesNone(config: Json)
    ensures LastValue(PriorWrites(config), LossNoneKey) == None
  {
    var prior := PriorWrites(config);
    if Truthy(Sub(config, "prior_carrier")) {
      RuleKeys(Sub(config, "prior_carrier"), PriorFields, "");
      PriorStems();
      forall w | w in prior ensures w.0 != LossNoneKey {
        var i :| 0 <= i < |PriorFields| && w.0 == PriorFields[i].stem + "";
        assert w.0 == PriorFields[i].stem;
      }
    }
    LastValueAbsent(prior, LossNoneKey);
  }
  /** The prior carrier's fields are not the "no losses" box. */
  lemma PriorStems()
    ensures forall i :: 0 <= i < |PriorFields| ==> PriorFields[i].stem != LossNoneKey
  {
    forall i | 0 <= i < |PriorFields| ensures PriorFields[i].stem != LossNoneKey {
      assert PriorFields[i].stem[6] == 'P';
    }
  }


  /** Within the history, the "no losses" box is ticked exactly when
      `loss_history_none` is missing or truthy. */
  lemma LossNoneHistory(config: Json)
    ensures LastValue(HistoryWrites(config), LossNoneKey) ==
      if Truthy(GetOr(config, "loss_history_none", JBool(true))) then Some(Yes) else None
  {
    var losses := Losses(config);
    var prior := PriorWrites(config);
    var none := LossNoneWrites(config);
    var rows := LossRows(losses, Min(3, |losses|), LossKeys);
    RowsMissNone(losses, Min(3, |losses|));
    PriorMissesNone(config);
    LastValueAppend(prior + none, rows, LossNoneKey);
    LastValueAppend(prior, none, LossNoneKey);
  }
}
