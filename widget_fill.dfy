/** What filling a document from a flat field map means: every widget whose
    name is a key takes `str(value)`, every other widget keeps its value,
    and the keys no widget carries are reported back. */
module WidgetFill {
  import opened Wrappers
  import opened Json
  import opened FieldMap
  import opened Document

  /** One widget after filling. */
  function FillWidget(w: Widget, fields: FieldMap): Widget {
    match Lookup(fields, w.name)
    case Some(v) => w.(value := Text(PyStr(v)))
    case None => w
  }

  function FillAll(ws: seq<Widget>, fields: FieldMap): (r: seq<Widget>)
    ensures |r| == |ws|
  {
    seq(|ws|, i requires 0 <= i < |ws| => FillWidget(ws[i], fields))
  }

  function FillPage(p: Page, fields: FieldMap): Page {
    p.(widgets := FillAll(p.widgets, fields))
  }

  /** The document after filling. */
  function FillPages(ps: seq<Page>, fields: FieldMap): (r: seq<Page>)
    ensures |r| == |ps|
  {
    seq(|ps|, i requires 0 <= i < |ps| => FillPage(ps[i], fields))
  }

  /** The widgets of a page whose names are keys of the map. */
  function MatchCount(ws: seq<Widget>, fields: FieldMap): nat {
    if ws == [] then 0
    else MatchCount(ws[..|ws| - 1], fields) + (if Lookup(fields, ws[|ws| - 1].name).Some? then 1 else 0)
  }

  /** The widget occurrences of a document whose names are keys of the map. */
  function MatchCountPages(ps: seq<Page>, fields: FieldMap): nat {
    if ps == [] then 0
    else MatchCountPages(ps[..|ps| - 1], fields) + MatchCount(ps[|ps| - 1].widgets, fields)
  }

  /** The keys, in order, that are not among `names`. */
  function Unmatched(keys: seq<string>, names: set<string>): seq<string> {
    if keys == [] then []
    else Unmatched(keys[..|keys| - 1], names) + (if keys[|keys| - 1] in names then [] else [keys[|keys| - 1]])
  }

  /** The keys, in order, that are among `names`. */
  function MatchedKeys(keys: seq<string>, names: set<string>): seq<string> {
    if keys == [] then []
    else MatchedKeys(keys[..|keys| - 1], names) + (if keys[|keys| - 1] in names then [keys[|keys| - 1]] else [])
  }

  // ----- what filling does to one widget and to the document's shape -----

  /** A filled widget keeps its name; it holds `str(value)` exactly when
      its name is a key, and is untouched otherwise. */
  lemma FilledWidget(ps: seq<Page>, fields: FieldMap, p: nat, i: nat)
    requires p < |ps| && i < |ps[p].widgets|
    ensures p < |FillPages(ps, fields)| && i < |FillPages(ps, fields)[p].widgets|
    ensures FillPages(ps, fields)[p].widgets[i].name == ps[p].widgets[i].name
    ensures Lookup(fields, ps[p].widgets[i].name).Some? <==> ps[p].widgets[i].name in Keys(fields)
    ensures Lookup(fields, ps[p].widgets[i].name).Some? ==>
      FillPages(ps, fields)[p].widgets[i].value == Text(PyStr(Lookup(fields, ps[p].widgets[i].name).value))
    ensures ps[p].widgets[i].name !in Keys(fields) ==> FillPages(ps, fields)[p].widgets[i] == ps[p].widgets[i]
  {
    LookupKeys(fields, ps[p].widgets[i].name);
  }

  /** Filling keeps the page count, the page sizes and each page's widget count. */
  lemma FillKeepsShape(ps: seq<Page>, fields: FieldMap)
    ensures |FillPages(ps, fields)| == |ps|
    ensures forall p :: 0 <= p < |ps| ==>
      FillPages(ps, fields)[p].width == ps[p].width &&
      FillPages(ps, fields)[p].height == ps[p].height &&
      |FillPages(ps, fields)[p].widgets| == |ps[p].widgets|
  {
  }

  lemma {:induction false} FillAllNames(ws: seq<Widget>, fields: FieldMap)
    ensures NamesOf(FillAll(ws, fields)) == NamesOf(ws)
  {
    var r := FillAll(ws, fields);
    forall n | n in NamesOf(r) ensures n in NamesOf(ws) {
      var w :| w in r && w.name == n;
      var i :| 0 <= i < |r| && r[i] == w;
      assert ws[i].name == n;
    }
    forall n | n in NamesOf(ws) ensures n in NamesOf(r) {
      var w :| w in ws && w.name == n;
      var i :| 0 <= i < |ws| && ws[i] == w;
      assert r[i].name == n;
    }
  }

  /** Filling changes no widget name, so the document's name set is the
      same before and after. */
  lemma {:induction false} FillKeepsNames(ps: seq<Page>, fields: FieldMap)
    ensures AllNames(FillPages(ps, fields)) == AllNames(ps)
  {
    if ps != [] {
      var n := |ps| - 1;
      FillKeepsNames(ps[..n], fields);
      assert FillPages(ps, fields)[..n] == FillPages(ps[..n], fields);
      FillAllNames(ps[n].widgets, fields);
    }
  }

  /** Filling twice is filling once. */
  lemma FillIdempotent(ps: seq<Page>, fields: FieldMap)
    ensures FillPages(FillPages(ps, fields), fields) == FillPages(ps, fields)
  {
    var once := FillPages(ps, fields);
    forall p | 0 <= p < |ps|
      ensures FillPage(once[p], fields) == once[p]
    {
      assert FillAll(once[p].widgets, fields) == once[p].widgets;
    }
  }

  // ----- the count -----

  /** The count is at most the number of widgets; it equals it exactly when
      every widget is named by a key, and it is zero exactly when none is. */
  lemma {:induction false} MatchCountBounds(ws: seq<Widget>, fields: FieldMap)
    ensures MatchCount(ws, fields) <= |ws|
    ensures MatchCount(ws, fields) == |ws| <==> forall i :: 0 <= i < |ws| ==> ws[i].name in Keys(fields)
    ensures MatchCount(ws, fields) == 0 <==> forall i :: 0 <= i < |ws| ==> ws[i].name !in Keys(fields)
  {
    if ws != [] {
      var n := |ws| - 1;
      MatchCountBounds(ws[..n], fields);
      LookupKeys(fields, ws[n].name);
      assert forall i :: 0 <= i < n ==> ws[..n][i] == ws[i];
    }
  }

  lemma {:induction false} MatchCountPagesBound(ps: seq<Page>, fields: FieldMap)
    ensures MatchCountPages(ps, fields) <= WidgetTotal(ps)
  {
    if ps != [] {
      MatchCountPagesBound(ps[..|ps| - 1], fields);
      MatchCountBounds(ps[|ps| - 1].widgets, fields);
    }
  }

  // ----- the skipped list -----

  /** A key is reported exactly when it is a key and no widget carries it. */
  lemma {:induction false} UnmatchedMembers(keys: seq<string>, names: set<string>)
    ensures forall k :: k in Unmatched(keys, names) <==> k in keys && k !in names
  {
    if keys != [] {
      var n := |keys| - 1;
      UnmatchedMembers(keys[..n], names);
      assert keys == keys[..n] + [keys[n]];
    }
  }

  /** Every key is matched or skipped, never both, and both lists keep the
      map's order: they split the key sequence. */
  lemma {:induction false} UnmatchedPartition(keys: seq<string>, names: set<string>)
    ensures |Unmatched(keys, names)| + |MatchedKeys(keys, names)| == |keys|
    ensures forall k :: k in MatchedKeys(keys, names) <==> k in keys && k in names
  {
    if keys != [] {
      var n := |keys| - 1;
      UnmatchedPartition(keys[..n], names);
      assert keys == keys[..n] + [keys[n]];
    }
  }

  /** The skipped list of a concatenation is the concatenation of the
      skipped lists, so the order of the keys carries over. */
  lemma {:induction false} UnmatchedAppend(a: seq<string>, b: seq<string>, names: set<string>)
    ensures Unmatched(a + b, names) == Unmatched(a, names) + Unmatched(b, names)
  {
    if b != [] {
      var n := |b| - 1;
      UnmatchedAppend(a, b[..n], names);
      assert (a + b)[..|a + b| - 1] == a + b[..n];
    } else {
      assert a + b == a;
    }
  }
}
