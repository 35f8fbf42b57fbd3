/**
 * `_.searchObjDate(o)`: a walk over nested objects and arrays that replaces
 * every Date it visits by its `_.formatDate` text. Objects are walked with
 * `_.each`, so an array-like object (one whose "length" key holds a number)
 * has only its index keys below `length` visited.
 */
module DateSearch {
  import opened Wrappers
  import opened JsValues
  import opened DateFormat

  /** The walk applied to one container; any other value is left as it is. */
  function SearchObjDate(v: Value): (r: Value)
    ensures r.Obj? == v.Obj? && r.Arr? == v.Arr?
    ensures !v.Obj? && !v.Arr? ==> r == v
    decreases v, 1
  {
    match v
    case Obj(m) => Obj(SearchFields(m))
    case Arr(es) => Arr(seq(|es|, i requires 0 <= i < |es| => VisitEntry(es[i])))
    case _ => v
  }

  /** The walk over the entries of an object: visited keys are rewritten, the others kept. */
  function SearchFields(m: map<string, Value>): (r: map<string, Value>)
    ensures r.Keys == m.Keys
    decreases Obj(m), 0
  {
    map k | k in m :: if k in EachKeys(m) then VisitEntry(m[k]) else m[k]
  }

  /** The iterator body: recurse into containers, format Dates, keep everything else. */
  function VisitEntry(a: Value): (r: Value)
    ensures !r.Date?
    ensures r.Obj? == a.Obj? && r.Arr? == a.Arr?
    decreases a, 2
  {
    if a.Obj? || a.Arr? then SearchObjDate(a)
    else if a.Date? then Str(FormatDate(a.date))
    else a
  }

  /** What the walk leaves at a leaf. */
  function LeafAfterSearch(a: Value): Value {
    if a.Date? then Str(FormatDate(a.date)) else a
  }

  predicate IsContainer(v: Value) {
    v.Obj? || v.Arr?
  }

  /** One step of a path: an object key or an array index. */
  datatype Step = Key(k: string) | Index(i: nat)

  /** The value found by following `path` from `v`, if the path exists. */
  function At(v: Value, path: seq<Step>): Option<Value>
    decreases |path|
  {
    if path == [] then Some(v)
    else match (v, path[0])
      case (Obj(m), Key(k)) => if k in m then At(m[k], path[1..]) else None
      case (Arr(es), Index(i)) => if i < |es| then At(es[i], path[1..]) else None
      case _ => None
  }

  /** No object anywhere in `v` is walked as an array-like. */
  predicate NoArrayLike(v: Value)
    decreases v
  {
    match v
    case Obj(m) => !ArrayLike(m) && forall k :: k in m ==> NoArrayLike(m[k])
    case Arr(es) => forall i :: 0 <= i < |es| ==> NoArrayLike(es[i])
    case _ => true
  }

  /** No Date occurs anywhere inside `v`. */
  predicate NoDate(v: Value)
    decreases v
  {
    match v
    case Date(_) => false
    case Obj(m) => forall k :: k in m ==> NoDate(m[k])
    case Arr(es) => forall i :: 0 <= i < |es| ==> NoDate(es[i])
    case _ => true
  }

  /** The walk keeps the kind of every value: containers stay containers, numbers stay numbers. */
  lemma VisitKeepsKind(a: Value)
    ensures VisitEntry(a).Obj? == a.Obj? && VisitEntry(a).Arr? == a.Arr?
    ensures VisitEntry(a).Num? == a.Num? && (a.Num? ==> VisitEntry(a) == a)
    ensures a.Obj? ==> VisitEntry(a).fields.Keys == a.fields.Keys
    ensures a.Arr? ==> |VisitEntry(a).elems| == |a.elems|
  {
  }

  lemma SearchKeepsEachKeys(m: map<string, Value>)
    ensures ArrayLike(SearchFields(m)) == ArrayLike(m)
    ensures EachKeys(SearchFields(m)) == EachKeys(m)
  {
    var r := SearchFields(m);
    if "length" in m {
      VisitKeepsKind(m["length"]);
    }
  }

  /** A map that is not array-like has every entry visited. */
  lemma SearchVisitsEveryKey(m: map<string, Value>)
    requires !ArrayLike(m)
    ensures forall k :: k in m ==> SearchFields(m)[k] == VisitEntry(m[k])
  {
  }

  /** After the walk of a container with no array-like object inside, no Date is left anywhere. */
  lemma {:induction false} SearchLeavesNoDate(v: Value)
    requires IsContainer(v) && NoArrayLike(v)
    ensures NoDate(SearchObjDate(v))
    decreases v, 0
  {
    match v
    case Obj(m) =>
      var r := SearchFields(m);
      forall k | k in r ensures NoDate(r[k]) {
        VisitLeavesNoDate(m[k]);
      }
    case Arr(es) =>
      var r := SearchObjDate(v).elems;
      forall i | 0 <= i < |r| ensures NoDate(r[i]) {
        VisitLeavesNoDate(es[i]);
      }
  }

  lemma {:induction false} VisitLeavesNoDate(a: Value)
    requires NoArrayLike(a)
    ensures NoDate(VisitEntry(a))
    decreases a, 1
  {
    if IsContainer(a) {
      SearchLeavesNoDate(a);
    }
  }

  /**
   * Every path of a container leads, after the walk, to a value iff it did before;
   * the walk changes values, never the shape of the tree.
   */
  lemma {:induction false} SearchKeepsPaths(v: Value, path: seq<Step>)
    ensures At(SearchObjDate(v), path).Some? <==> At(v, path).Some?
    decreases |path|, 0
  {
    if path != [] && IsContainer(v) {
      match (v, path[0])
      case (Obj(m), Key(k)) =>
        if k in m {
          VisitKeepsPaths(m[k], k in EachKeys(m), path[1..]);
        }
      case (Arr(es), Index(i)) =>
        if i < |es| {
          VisitKeepsPaths(es[i], true, path[1..]);
        }
      case _ =>
    }
  }

  lemma {:induction false} VisitKeepsPaths(a: Value, visited: bool, path: seq<Step>)
    ensures At(if visited then VisitEntry(a) else a, path).Some? <==> At(a, path).Some?
    decreases |path|, 1
  {
    if visited && path != [] && IsContainer(a) {
      SearchKeepsPaths(a, path);
    }
  }

  /**
   * Where a container with no array-like object inside holds a leaf at a
   * non-empty path, the walked container holds the same leaf, or its
   * formatted text if the leaf is a Date, at the same path.
   */
  lemma {:induction false} SearchRewritesLeaves(v: Value, path: seq<Step>, leaf: Value)
    requires IsContainer(v) && NoArrayLike(v) && path != []
    requires At(v, path) == Some(leaf) && !IsContainer(leaf)
    ensures At(SearchObjDate(v), path) == Some(LeafAfterSearch(leaf))
    decreases |path|, 0
  {
    match (v, path[0])
    case (Obj(m), Key(k)) =>
      VisitRewritesLeaves(m[k], path[1..], leaf);
    case (Arr(es), Index(i)) =>
      VisitRewritesLeaves(es[i], path[1..], leaf);
  }

  lemma {:induction false} VisitRewritesLeaves(a: Value, path: seq<Step>, leaf: Value)
    requires NoArrayLike(a)
    requires At(a, path) == Some(leaf) && !IsContainer(leaf)
    ensures At(VisitEntry(a), path) == Some(LeafAfterSearch(leaf))
    decreases |path|, 1
  {
    if path == [] {
      assert a == leaf;
    } else {
      SearchRewritesLeaves(a, path, leaf);
    }
  }

  /** Walking a second time changes nothing. */
  lemma {:induction false} SearchIdempotent(v: Value)
    ensures SearchObjDate(SearchObjDate(v)) == SearchObjDate(v)
    decreases v, 0
  {
    match v
    case Obj(m) =>
      var r := SearchFields(m);
      SearchKeepsEachKeys(m);
      forall k | k in m && k in EachKeys(m) ensures VisitEntry(VisitEntry(m[k])) == VisitEntry(m[k]) {
        VisitIdempotent(m[k]);
      }
      assert SearchFields(r) == r;
    case Arr(es) =>
      var r := SearchObjDate(v).elems;
      forall i | 0 <= i < |es| ensures VisitEntry(r[i]) == r[i] {
        VisitIdempotent(es[i]);
      }
      assert SearchObjDate(SearchObjDate(v)).elems == r;
    case _ =>
  }

  lemma {:induction false} VisitIdempotent(a: Value)
    ensures VisitEntry(VisitEntry(a)) == VisitEntry(a)
    decreases a, 1
  {
    if IsContainer(a) {
      SearchIdempotent(a);
    }
  }

  /** The array-like path: a Date under a key other than an index survives the walk. */
  lemma ArrayLikeKeepsDate(d: DateTime)
    ensures SearchObjDate(Obj(map["length" := Num(0), "when" := Date(d)])) ==
      Obj(map["length" := Num(0), "when" := Date(d)])
  {
    var m := map["length" := Num(0), "when" := Date(d)];
    assert EachKeys(m) == {};
    assert SearchFields(m) == m;
  }
}
