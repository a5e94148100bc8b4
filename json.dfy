/** Decoded JSON values and the few Python operations the mappers apply to
    them: truthiness, `dict.get`, membership and `str()`. */
module Json {
  import opened Wrappers
  import Text

  /** A value as `json.loads` produces it (floating-point numbers are not
      modelled). An object keeps its members in document order. */
  datatype Json =
    | JNull
    | JBool(b: bool)
    | JInt(i: int)
    | JStr(s: string)
    | JArr(items: seq<Json>)
    | JObj(members: seq<(string, Json)>)

  /** Python truthiness: `None`, `False`, `0`, `""`, `[]` and `{}` are false. */
  predicate Truthy(j: Json) {
    match j
    case JNull => false
    case JBool(b) => b
    case JInt(i) => i != 0
    case JStr(s) => s != []
    case JArr(a) => a != []
    case JObj(m) => m != []
  }

  /** The value of the first member named `k`. */
  function Find(ms: seq<(string, Json)>, k: string): Option<Json> {
    if ms == [] then None
    else if ms[0].0 == k then Some(ms[0].1)
    else Find(ms[1..], k)
  }

  /** `k in j` for a dict `j`. */
  predicate Has(j: Json, k: string) {
    j.JObj? && Find(j.members, k).Some?
  }

  /** `j.get(k, d)`. A value that is not an object answers `d`. */
  function GetOr(j: Json, k: string, d: Json): (r: Json)
    ensures Has(j, k) ==> r == Find(j.members, k).value
    ensures !Has(j, k) ==> r == d
  {
    if j.JObj? then Find(j.members, k).GetOr(d) else d
  }

  /** `j.get(k)`: `None` when the key is missing. */
  function Get(j: Json, k: string): Json {
    GetOr(j, k, JNull)
  }

  /** `j.get(k, {})`, the way the mappers descend into sub-objects. */
  function Sub(j: Json, k: string): Json {
    GetOr(j, k, JObj([]))
  }

  /** `bool(j.get(k))`. */
  predicate Flag(j: Json, k: string) {
    Truthy(Get(j, k))
  }

  /** The members of an object (`dict.items()`); any other value has none. */
  function Members(j: Json): seq<(string, Json)> {
    if j.JObj? then j.members else []
  }

  /** The elements of a list; any other value has none. */
  function Items(j: Json): seq<Json> {
    if j.JArr? then j.items else []
  }

  /** The text of a string value; any other value reads as "". */
  function Str(j: Json): string {
    if j.JStr? then j.s else ""
  }

  /** Python's `str(j)` for a decoded JSON value. */
  function PyStr(j: Json): (r: string)
    ensures j.JStr? ==> r == j.s
    ensures j.JInt? ==> r == Text.IntToDecimal(j.i)
  {
    match j
    case JStr(s) => s
    case _ => Repr(j)
  }

  /** Python's `repr(j)`, in the layout Python uses for `None`, booleans, ints,
      lists and dicts; strings are shown between single quotes. */
  function Repr(j: Json): string
    decreases j, 1
  {
    match j
    case JNull => "None"
    case JBool(b) => if b then "True" else "False"
    case JInt(i) => Text.IntToDecimal(i)
    case JStr(s) => "'" + s + "'"
    case JArr(a) => "[" + ReprItems(j, a) + "]"
    case JObj(m) => "{" + ReprMembers(j, m) + "}"
  }

  function ReprItems(ghost parent: Json, a: seq<Json>): string
    requires forall x :: x in a ==> x < parent
    decreases parent, 0, |a|
  {
    if a == [] then ""
    else
      assert a[0] in a;
      Repr(a[0]) + (if |a| == 1 then "" else
        assert forall x :: x in a[1..] ==> x in a;
        ", " + ReprItems(parent, a[1..]))
  }

  function ReprMembers(ghost parent: Json, m: seq<(string, Json)>): string
    requires forall i :: 0 <= i < |m| ==> m[i].1 < parent
    decreases parent, 0, |m|
  {
    if m == [] then ""
    else "'" + m[0].0 + "': " + Repr(m[0].1)
         + (if |m| == 1 then "" else ", " + ReprMembers(parent, m[1..]))
  }
}
