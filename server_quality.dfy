/** The extraction quality score of the upload endpoint: `_calc_quality`
    walks the extracted JSON, counting every key of every object it reaches
    and the keys whose value is filled in, and rounds the filled share to a
    percentage. */
module ServerQuality {
  import opened Json

  /** The two counters `_count` updates. */
  datatype Counts = Counts(filled: nat, total: nat) {
    function Plus(other: Counts): Counts {
      Counts(filled + other.filled, total + other.total)
    }
  }

  /** The walk stops below this depth. */
  const MaxDepth := 5

  /** Keys starting with "_" are metadata, never counted nor entered. */
  predicate Hidden(k: string) {
    |k| > 0 && k[0] == '_'
  }

  /** `v and v != "" and v != [] and v != {}`. */
  predicate IsFilled(v: Json) {
    Truthy(v) && v != JStr("") && v != JArr([]) && v != JObj([])
  }

  /** The counts one `_count(obj, depth)` call adds. */
  function Tally(obj: Json, depth: nat): Counts
    decreases obj, 1
  {
    if depth > MaxDepth then Counts(0, 0)
    else match obj
      case JObj(ms) => MembersTally(obj, ms, depth)
      case JArr(xs) => ItemsTally(obj, xs, depth)
      case _ => Counts(0, 0)
  }

  /** What one member of an object at `depth` adds: itself, when its key is
      not hidden, and what its value holds one level down. */
  function MemberTally(ghost parent: Json, m: (string, Json), depth: nat): Counts
    requires m.1 < parent
    decreases parent, 0, 0
  {
    if Hidden(m.0) then Counts(0, 0)
    else Counts(if IsFilled(m.1) then 1 else 0, 1).Plus(Tally(m.1, depth + 1))
  }

  /** The members of an object at `depth`, in order. */
  function MembersTally(ghost parent: Json, ms: seq<(string, Json)>, depth: nat): Counts
    requires forall i :: 0 <= i < |ms| ==> ms[i].1 < parent
    decreases parent, 0, |ms| + 1
  {
    if ms == [] then Counts(0, 0)
    else MembersTally(parent, ms[..|ms| - 1], depth).Plus(MemberTally(parent, ms[|ms| - 1], depth))
  }

  /** The elements of a list at `depth`: each is walked one level down and
      is not counted itself. */
  function ItemsTally(ghost parent: Json, xs: seq<Json>, depth: nat): Counts
    requires forall i :: 0 <= i < |xs| ==> xs[i] < parent
    decreases parent, 0, |xs| + 1
  {
    if xs == [] then Counts(0, 0)
    else ItemsTally(parent, xs[..|xs| - 1], depth).Plus(ItemTally(parent, xs[|xs| - 1], depth))
  }

  /** What one element of a list at `depth` adds: what it holds one level
      down. */
  function ItemTally(ghost parent: Json, x: Json, depth: nat): Counts
    requires x < parent
    decreases parent, 0, 0
  {
    Tally(x, depth + 1)
  }

  /** One more member. */
  lemma MembersStep(parent: Json, ms: seq<(string, Json)>, depth: nat, i: nat)
    requires forall j :: 0 <= j < |ms| ==> ms[j].1 < parent
    requires i < |ms|
    ensures MembersTally(parent, ms[..i + 1], depth) == MembersTally(parent, ms[..i], depth).Plus(MemberTally(parent, ms[i], depth))
  {
    assert ms[..i + 1][..i] == ms[..i];
  }

  /** One more element. */
  lemma ItemsStep(parent: Json, xs: seq<Json>, depth: nat, i: nat)
    requires forall j :: 0 <= j < |xs| ==> xs[j] < parent
    requires i < |xs|
    ensures ItemsTally(parent, xs[..i + 1], depth) == ItemsTally(parent, xs[..i], depth).Plus(ItemTally(parent, xs[i], depth))
  {
    assert xs[..i + 1][..i] == xs[..i];
  }

  /** The score: `round(filled / total * 100)`, 0 without keys. */
  function Score(c: Counts): nat {
    if c.total == 0 then 0 else RoundHalfEven(100 * c.filled, c.total)
  }

  /** Python's `round` of the quotient `a / b`: to the nearest integer,
      halves to the even neighbour. */
  function RoundHalfEven(a: nat, b: nat): nat
    requires b > 0
  {
    var q := a / b;
    var m := a % b;
    if 2 * m < b then q
    else if 2 * m > b then q + 1
    else if q % 2 == 0 then q else q + 1
  }

  /** The two counters of one `_calc_quality` call. */
  class Counter {
    var filled: nat
    var total: nat

    constructor ()
      ensures filled == 0 && total == 0
    {
      filled := 0;
      total := 0;
    }

    /** `_count(obj, depth)`. */
    method Count(obj: Json, depth: nat)
      modifies this
      ensures filled == old(filled) + Tally(obj, depth).filled
      ensures total == old(total) + Tally(obj, depth).total
      decreases obj, 2
    {
      if depth > MaxDepth {
        return;
      }
      match obj {
        case JObj(ms) => CountMembers(obj, depth);
        case JArr(xs) => CountItems(obj, depth);
        case _ =>
      }
    }

    /** `for k, v in obj.items()`. */
    method CountMembers(obj: Json, depth: nat)
      requires obj.JObj? && depth <= MaxDepth
      modifies this
      ensures filled == old(filled) + MembersTally(obj, obj.members, depth).filled
      ensures total == old(total) + MembersTally(obj, obj.members, depth).total
      decreases obj, 1
    {
      var ms := obj.members;
      for i := 0 to |ms|
        invariant filled == old(filled) + MembersTally(obj, ms[..i], depth).filled
        invariant total == old(total) + MembersTally(obj, ms[..i], depth).total
      {
        MembersStep(obj, ms, depth, i);
        CountMember(obj, ms[i], depth);
      }
      assert ms[..|ms|] == ms;
    }

    /** One turn of that loop. */
    method CountMember(ghost parent: Json, m: (string, Json), depth: nat)
      requires m.1 < parent
      modifies this
      ensures filled == old(filled) + MemberTally(parent, m, depth).filled
      ensures total == old(total) + MemberTally(parent, m, depth).total
      decreases parent, 0
    {
      var (k, v) := m;
      if !Hidden(k) {
        total := total + 1;
        if Truthy(v) && v != JStr("") && v != JArr([]) && v != JObj([]) {
          filled := filled + 1;
        }
        Count(v, depth + 1);
      }
    }

    /** `for item in obj`. */
    method CountItems(obj: Json, depth: nat)
      requires obj.JArr? && depth <= MaxDepth
      modifies this
      ensures filled == old(filled) + ItemsTally(obj, obj.items, depth).filled
      ensures total == old(total) + ItemsTally(obj, obj.items, depth).total
      decreases obj, 1
    {
      var xs := obj.items;
      for i := 0 to |xs|
        invariant filled == old(filled) + ItemsTally(obj, xs[..i], depth).filled
        invariant total == old(total) + ItemsTally(obj, xs[..i], depth).total
      {
        ItemsStep(obj, xs, depth, i);
        var x := xs[i];
        assert x < obj;
        Count(x, depth + 1);
      }
      assert xs[..|xs|] == xs;
    }
  }

  /** `_calc_quality(data)`. */
  method CalcQuality(data: Json) returns (score: nat)
    ensures score == Score(Tally(data, 0))
    ensures score <= 100
  {
    var c := new Counter();
    c.Count(data, 0);
    TallyBounded(data, 0);
    ScoreBounded(Tally(data, 0));
    score := if c.total > 0 then RoundHalfEven(100 * c.filled, c.total) else 0;
  }

  // ----- properties -----

  /** The filled test is Python truthiness: its three extra comparisons
      never decide anything. */
  lemma FilledIsTruthy(v: Json)
    ensures IsFilled(v) <==> Truthy(v)
  {
  }

  /** No more keys are filled than counted. */
  lemma {:induction false} TallyBounded(obj: Json, depth: nat)
    ensures Tally(obj, depth).filled <= Tally(obj, depth).total
    decreases obj, 1
  {
    if depth <= MaxDepth {
      match obj
      case JObj(ms) => MembersBounded(obj, ms, depth);
      case JArr(xs) => ItemsBounded(obj, xs, depth);
      case _ =>
    }
  }

  lemma {:induction false} MembersBounded(parent: Json, ms: seq<(string, Json)>, depth: nat)
    requires forall i :: 0 <= i < |ms| ==> ms[i].1 < parent
    ensures MembersTally(parent, ms, depth).filled <= MembersTally(parent, ms, depth).total
    decreases parent, 0, |ms| + 1
  {
    if ms != [] {
      var n := |ms| - 1;
      MembersBounded(parent, ms[..n], depth);
      if !Hidden(ms[n].0) {
        TallyBounded(ms[n].1, depth + 1);
      }
    }
  }

  lemma {:induction false} ItemsBounded(parent: Json, xs: seq<Json>, depth: nat)
    requires forall i :: 0 <= i < |xs| ==> xs[i] < parent
    ensures ItemsTally(parent, xs, depth).filled <= ItemsTally(parent, xs, depth).total
    decreases parent, 0, |xs| + 1
  {
    if xs != [] {
      var n := |xs| - 1;
      ItemsBounded(parent, xs[..n], depth);
      TallyBounded(xs[n], depth + 1);
    }
  }

  /** The score is a percentage: 0 when nothing is filled, 100 when
      everything is. */
  lemma ScoreBounded(c: Counts)
    requires c.filled <= c.total
    ensures Score(c) <= 100
    ensures c.filled == 0 ==> Score(c) == 0
    ensures c.total > 0 && c.filled == c.total ==> Score(c) == 100
  {
    if c.total > 0 {
      RoundAtMost(100 * c.filled, c.total, 100);
      RoundNone(100 * c.filled, c.total);
      RoundFull(100, c.total);
    }
  }

  /** The rounded quotient is within a half of the exact one, and is even
      when the exact one lies half-way between two integers. */
  lemma RoundNearest(a: nat, b: nat)
    requires b > 0
    ensures var r := RoundHalfEven(a, b);
      2 * a <= 2 * (r * b) + b && 2 * (r * b) <= 2 * a + b &&
      (2 * a == 2 * (r * b) + b || 2 * (r * b) == 2 * a + b ==> r % 2 == 0)
  {
    var q := a / b;
    var m := a % b;
    DivMod(a, b);
    MulSucc(q, b);
  }

  lemma DivMod(a: nat, b: nat)
    requires b > 0
    ensures a == (a / b) * b + a % b && a % b < b
  {
  }

  lemma MulSucc(q: nat, b: nat)
    ensures (q + 1) * b == q * b + b
  {
  }

  /** A quotient of at most `q` rounds to at most `q`. */
  lemma RoundAtMost(a: nat, b: nat, q: nat)
    requires b > 0 && a <= q * b
    ensures RoundHalfEven(a, b) <= q
  {
    var r := RoundHalfEven(a, b);
    RoundNearest(a, b);
    if r > q {
      MulMonotone(q + 1, r, b);
      MulSucc(q, b);
    }
  }

  /** Nothing rounds to nothing. */
  lemma RoundNone(a: nat, b: nat)
    requires b > 0
    ensures a == 0 ==> RoundHalfEven(a, b) == 0
  {
    var r := RoundHalfEven(a, b);
    RoundNearest(a, b);
    if a == 0 && r > 0 {
      MulMonotone(1, r, b);
    }
  }

  /** An exact quotient rounds to itself. */
  lemma RoundFull(q: nat, b: nat)
    requires b > 0
    ensures RoundHalfEven(q * b, b) == q
  {
    var r := RoundHalfEven(q * b, b);
    RoundNearest(q * b, b);
    if r < q {
      MulMonotone(r + 1, q, b);
      MulSucc(r, b);
    } else if r > q {
      MulMonotone(q + 1, r, b);
      MulSucc(q, b);
    }
  }

  lemma {:induction false} MulMonotone(x: nat, y: nat, b: nat)
    requires x <= y
    ensures x * b <= y * b
    decreases y - x
  {
    if x < y {
      MulMonotone(x, y - 1, b);
      assert (y - 1) * b + b == y * b;
    }
  }

  /** A key starting with "_" adds nothing, whatever its value holds. */
  lemma HiddenAddsNothing(parent: Json, ms: seq<(string, Json)>, m: (string, Json), depth: nat)
    requires forall i :: 0 <= i < |ms| ==> ms[i].1 < parent
    requires m.1 < parent && Hidden(m.0)
    ensures MembersTally(parent, ms + [m], depth) == MembersTally(parent, ms, depth)
  {
    assert (ms + [m])[..|ms|] == ms;
  }

  /** Below the last level nothing is counted, so the deepest keys counted
      are those of objects at depth 5. */
  lemma DeepNothing(obj: Json, depth: nat)
    requires depth > MaxDepth
    ensures Tally(obj, depth) == Counts(0, 0)
  {
  }

  /** A list adds only what its elements hold: a list of plain values
      adds nothing. */
  lemma {:induction false} PlainItemsNothing(parent: Json, xs: seq<Json>, depth: nat)
    requires forall i :: 0 <= i < |xs| ==> xs[i] < parent
    requires forall i :: 0 <= i < |xs| ==> !xs[i].JObj? && !xs[i].JArr?
    ensures ItemsTally(parent, xs, depth) == Counts(0, 0)
    decreases |xs|
  {
    if xs != [] {
      var n := |xs| - 1;
      PlainItemsNothing(parent, xs[..n], depth);
      assert ItemTally(parent, xs[n], depth) == Counts(0, 0);
    }
  }

  /** A member whose key counts and whose value holds nothing to walk. */
  predicate PlainMember(m: (string, Json)) {
    !Hidden(m.0) && !m.1.JObj? && !m.1.JArr?
  }

  /** A counted member whose value holds nothing to walk adds one key,
      filled exactly when the value is truthy. */
  lemma PlainTally(parent: Json, m: (string, Json), depth: nat)
    requires m.1 < parent && PlainMember(m)
    ensures MemberTally(parent, m, depth) == Counts(if Truthy(m.1) then 1 else 0, 1)
  {
    assert Tally(m.1, depth + 1) == Counts(0, 0);
  }
}
