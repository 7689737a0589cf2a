/**
 * Combinators nested into finite trees. Deadline and Value of a node are
 * pure functions of its parents, so a tree of Cons and Union nodes over
 * ordinary contexts answers them recursively. Value is the leftmost
 * leaf's value for the key; a tree of Cons nodes reports the earliest leaf
 * deadline, a tree of Union nodes the leftmost one present.
 */
module Nesting {
  import opened Contexts
  import Constext
  import Coalext

  /** An ordinary (non-combinator) context: its deadline and the values
      Value() finds for each key (a missing key stands for nil). */
  datatype Leaf<K, V> = Leaf(deadline: Option<int>, values: map<K, V>)

  datatype Ctx<K, V> =
    | Base(leaf: Leaf<K, V>)
    | Cons(car: Ctx<K, V>, cdr: Ctx<K, V>)
    | Union(head: Ctx<K, V>, tail: Ctx<K, V>)

  /** Value(k) through the tree: a non-nil answer is some leaf's value for
      k, and the answer is nil only when no leaf defines k. */
  function Value<K, V>(t: Ctx<K, V>, k: K): (r: Option<V>)
    ensures r.Some? ==> exists leaf :: leaf in Leaves(t) && k in leaf.values && r == Some(leaf.values[k])
    ensures r.None? <==> forall leaf :: leaf in Leaves(t) ==> k !in leaf.values
  {
    match t
    case Base(leaf) => if k in leaf.values then Some(leaf.values[k]) else None
    case Cons(car, cdr) => Constext.Value(Value(car, k), Value(cdr, k))
    case Union(head, tail) => Coalext.Value(Value(head, k), Value(tail, k))
  }

  /** Deadline() through the tree: a reported deadline is some leaf's, and
      none is reported only when no leaf has one. */
  function Deadline<K, V>(t: Ctx<K, V>): (r: Option<int>)
    ensures r.Some? ==> exists leaf :: leaf in Leaves(t) && leaf.deadline == r
    ensures r.None? <==> forall leaf :: leaf in Leaves(t) ==> leaf.deadline.None?
  {
    match t
    case Base(leaf) => leaf.deadline
    case Cons(car, cdr) => Constext.Deadline(Deadline(car), Deadline(cdr))
    case Union(head, tail) => Coalext.Deadline(Deadline(head), Deadline(tail))
  }

  /** The ordinary contexts of a tree, left to right. */
  function Leaves<K, V>(t: Ctx<K, V>): seq<Leaf<K, V>> {
    match t
    case Base(leaf) => [leaf]
    case Cons(car, cdr) => Leaves(car) + Leaves(cdr)
    case Union(head, tail) => Leaves(head) + Leaves(tail)
  }

  predicate PairsOnly<K, V>(t: Ctx<K, V>) {
    match t
    case Base(_) => true
    case Cons(car, cdr) => PairsOnly(car) && PairsOnly(cdr)
    case Union(_, _) => false
  }

  predicate UnionsOnly<K, V>(t: Ctx<K, V>) {
    match t
    case Base(_) => true
    case Cons(_, _) => false
    case Union(head, tail) => UnionsOnly(head) && UnionsOnly(tail)
  }

  /** Reference definition: the value of the first leaf that defines k. */
  function FirstValue<K, V>(ls: seq<Leaf<K, V>>, k: K): Option<V>
    decreases |ls|
  {
    if ls == [] then None
    else if k in ls[0].values then Some(ls[0].values[k])
    else FirstValue(ls[1..], k)
  }

  /** Reference definition: the first deadline present among the leaves. */
  function FirstDeadline<K, V>(ls: seq<Leaf<K, V>>): Option<int>
    decreases |ls|
  {
    if ls == [] then None
    else if ls[0].deadline.Some? then ls[0].deadline
    else FirstDeadline(ls[1..])
  }

  /** Leaf i defines k and no leaf before it does. */
  predicate DefinesFirst<K, V>(ls: seq<Leaf<K, V>>, k: K, i: int) {
    0 <= i < |ls| && k in ls[i].values && forall j :: 0 <= j < i ==> k !in ls[j].values
  }

  lemma {:induction false} FirstValueAppend<K, V>(a: seq<Leaf<K, V>>, b: seq<Leaf<K, V>>, k: K)
    ensures FirstValue(a + b, k) == if FirstValue(a, k).Some? then FirstValue(a, k) else FirstValue(b, k)
    decreases |a|
  {
    if a == [] {
      assert a + b == b;
    } else {
      assert (a + b)[0] == a[0] && (a + b)[1..] == a[1..] + b;
      FirstValueAppend(a[1..], b, k);
    }
  }

  lemma {:induction false} FirstDeadlineAppend<K, V>(a: seq<Leaf<K, V>>, b: seq<Leaf<K, V>>)
    ensures FirstDeadline(a + b) == if FirstDeadline(a).Some? then FirstDeadline(a) else FirstDeadline(b)
    decreases |a|
  {
    if a == [] {
      assert a + b == b;
    } else {
      assert (a + b)[0] == a[0] && (a + b)[1..] == a[1..] + b;
      FirstDeadlineAppend(a[1..], b);
    }
  }

  /** FirstValue is the value of a leaf that defines k with no earlier leaf
      defining it, and nil when no leaf defines k. */
  lemma {:induction false} FirstValueIsLeftmost<K, V>(ls: seq<Leaf<K, V>>, k: K)
    ensures FirstValue(ls, k).None? <==> forall j :: 0 <= j < |ls| ==> k !in ls[j].values
    ensures forall i :: DefinesFirst(ls, k, i) ==> FirstValue(ls, k) == Some(ls[i].values[k])
    decreases |ls|
  {
    if ls != [] {
      FirstValueIsLeftmost(ls[1..], k);
      assert forall j :: 1 <= j < |ls| ==> ls[j] == ls[1..][j - 1];
    }
  }

  /** Nesting keeps left-biased precedence: any tree of Cons and Union
      nodes answers Value(k) with the first leaf, left to right, that
      defines k. */
  lemma {:induction false} ValueIsFirstLeaf<K, V>(t: Ctx<K, V>, k: K)
    ensures Value(t, k) == FirstValue(Leaves(t), k)
  {
    match t
    case Base(leaf) =>
      assert Leaves(t)[1..] == [];
    case Cons(car, cdr) =>
      ValueIsFirstLeaf(car, k);
      ValueIsFirstLeaf(cdr, k);
      FirstValueAppend(Leaves(car), Leaves(cdr), k);
    case Union(head, tail) =>
      ValueIsFirstLeaf(head, k);
      ValueIsFirstLeaf(tail, k);
      FirstValueAppend(Leaves(head), Leaves(tail), k);
  }

  /** The same, stated over leaf positions: a leaf that defines k shadows
      every leaf to its right, and Value(k) is nil only if no leaf defines k. */
  lemma ValuePrecedence<K, V>(t: Ctx<K, V>, k: K)
    ensures var ls := Leaves(t);
      && (Value(t, k).None? <==> forall j :: 0 <= j < |ls| ==> k !in ls[j].values)
      && forall i :: DefinesFirst(ls, k, i) ==> Value(t, k) == Some(ls[i].values[k])
  {
    ValueIsFirstLeaf(t, k);
    FirstValueIsLeftmost(Leaves(t), k);
  }

  /** A tree of Cons nodes reports the earliest deadline of its leaves: no
      later than any leaf's, equal to one of them, and absent only when no
      leaf has one. */
  lemma {:induction false} PairsReportEarliestDeadline<K, V>(t: Ctx<K, V>)
    requires PairsOnly(t)
    ensures Deadline(t).None? <==> forall leaf :: leaf in Leaves(t) ==> leaf.deadline.None?
    ensures forall leaf :: leaf in Leaves(t) && leaf.deadline.Some? ==>
              Deadline(t).Some? && Deadline(t).value <= leaf.deadline.value
    ensures Deadline(t).Some? ==> exists leaf :: leaf in Leaves(t) && leaf.deadline == Deadline(t)
  {
    match t
    case Base(leaf) =>
    case Cons(car, cdr) =>
      PairsReportEarliestDeadline(car);
      PairsReportEarliestDeadline(cdr);
      assert Leaves(t) == Leaves(car) + Leaves(cdr);
  }

  /** A tree of Union nodes reports the leftmost deadline that is present. */
  lemma {:induction false} UnionsReportLeftmostDeadline<K, V>(t: Ctx<K, V>)
    requires UnionsOnly(t)
    ensures Deadline(t) == FirstDeadline(Leaves(t))
  {
    match t
    case Base(leaf) =>
      assert Leaves(t)[1..] == [];
    case Union(head, tail) =>
      UnionsReportLeftmostDeadline(head);
      UnionsReportLeftmostDeadline(tail);
      FirstDeadlineAppend(Leaves(head), Leaves(tail));
  }

  /** The value lookups of TestValueUnion: "foo" comes from the first
      parent, "bar" from the second, also through a nested Cons. */
  lemma ValueUnionScenario()
    ensures var c1 := Base(Leaf(None, map["foo" := "bar"]));
      var c2 := Base(Leaf(None, map["foo" := "baz"]));
      var c3 := Base(Leaf(None, map["bar" := "quux"]));
      && Value(Cons(c1, c2), "foo") == Some("bar")
      && Value(Cons(c1, c3), "bar") == Some("quux")
      && Value(Cons(Cons(c1, c2), c3), "bar") == Some("quux")
  {
  }
}
