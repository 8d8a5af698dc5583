/**
 The BSP split tree of app/Sources/Tiling/SplitTree.swift: a value type whose
 leaves are panes and whose splits carry an axis and the fraction of the space
 given to the first (left or top) child. Lengths are reals, so floating-point
 rounding is not modelled.
 */
module SplitTree {
  import opened Wrappers

  type PaneId = nat

  datatype Axis = Horizontal | Vertical

  datatype FocusDirection = Left | Right | Up | Down

  datatype Node =
    | Leaf(id: PaneId)
    | Split(axis: Axis, ratio: real, first: Node, second: Node)

  // ---------------------------------------------------------------- shape

  function Leaves(n: Node): seq<PaneId> {
    match n
    case Leaf(id) => [id]
    case Split(_, _, first, second) => Leaves(first) + Leaves(second)
  }

  predicate Contains(n: Node, id: PaneId) {
    match n
    case Leaf(l) => l == id
    case Split(_, _, first, second) => Contains(first, id) || Contains(second, id)
  }

  ghost predicate Distinct(ids: seq<PaneId>) {
    forall i, j :: 0 <= i < j < |ids| ==> ids[i] != ids[j]
  }

  predicate RatioOk(r: real) { 0.1 <= r <= 0.9 }

  predicate RatiosOk(n: Node) {
    match n
    case Leaf(_) => true
    case Split(_, r, first, second) => RatioOk(r) && RatiosOk(first) && RatiosOk(second)
  }

  lemma ContainsIsMembership(n: Node, id: PaneId)
    ensures Contains(n, id) <==> id in Leaves(n)
  {
  }

  // Distinct leaves split into two disjoint, distinct halves.
  lemma DistinctHalves(a: seq<PaneId>, b: seq<PaneId>)
    requires Distinct(a + b)
    ensures Distinct(a) && Distinct(b)
    ensures forall id :: id in a ==> id !in b
  {
    var c := a + b;
    assert forall i :: 0 <= i < |a| ==> a[i] == c[i];
    assert forall i :: 0 <= i < |b| ==> b[i] == c[|a| + i];
  }

  // ------------------------------------------------- insertion and removal

  function InsertAtRoot(n: Node, newLeaf: PaneId, axis: Axis, ratio: real, newFirst: bool): Node {
    if newFirst then Split(axis, ratio, Leaf(newLeaf), n) else Split(axis, ratio, n, Leaf(newLeaf))
  }

  function Insert(n: Node, newLeaf: PaneId, target: PaneId, axis: Axis, ratio: real, newFirst: bool): Node {
    match n
    case Leaf(id) =>
      if id == target then InsertAtRoot(n, newLeaf, axis, ratio, newFirst) else n
    case Split(a, r, first, second) =>
      Split(a, r,
            Insert(first, newLeaf, target, axis, ratio, newFirst),
            Insert(second, newLeaf, target, axis, ratio, newFirst))
  }

  function Remove(n: Node, target: PaneId): Option<Node> {
    match n
    case Leaf(id) => if id == target then None else Some(n)
    case Split(a, r, first, second) =>
      match (Remove(first, target), Remove(second, target))
      case (None, None) => None
      case (None, Some(s)) => Some(s)
      case (Some(f), None) => Some(f)
      case (Some(f), Some(s)) => Some(Split(a, r, f, s))
  }

  // The reference for removal: drop one id from a list.
  function Without(ids: seq<PaneId>, id: PaneId): seq<PaneId> {
    if ids == [] then []
    else (if ids[0] == id then [] else [ids[0]]) + Without(ids[1..], id)
  }

  lemma {:induction false} WithoutConcat(a: seq<PaneId>, b: seq<PaneId>, id: PaneId)
    ensures Without(a + b, id) == Without(a, id) + Without(b, id)
  {
    if a == [] {
      assert a + b == b;
    } else {
      var head := if a[0] == id then [] else [a[0]];
      var ab := a + b;
      assert ab[0] == a[0] && ab[1..] == a[1..] + b;
      WithoutConcat(a[1..], b, id);
      assert Without(ab, id) == head + (Without(a[1..], id) + Without(b, id));
      assert head + (Without(a[1..], id) + Without(b, id)) == head + Without(a[1..], id) + Without(b, id);
    }
  }

  lemma {:induction false} WithoutAbsent(a: seq<PaneId>, id: PaneId)
    requires id !in a
    ensures Without(a, id) == a
  {
    if a != [] {
      WithoutAbsent(a[1..], id);
    }
  }

  // Removal drops exactly the target from the leaf list, keeps the order of the
  // rest, and yields no tree exactly when nothing else is left.
  lemma {:induction false} RemoveLeaves(n: Node, target: PaneId)
    ensures var r := Remove(n, target);
            && (r.None? <==> Without(Leaves(n), target) == [])
            && (r.Some? ==> Leaves(r.value) == Without(Leaves(n), target))
  {
    match n
    case Leaf(_) =>
    case Split(_, _, first, second) =>
      RemoveLeaves(first, target);
      RemoveLeaves(second, target);
      WithoutConcat(Leaves(first), Leaves(second), target);
  }

  lemma {:induction false} RemoveAbsent(n: Node, target: PaneId)
    requires target !in Leaves(n)
    ensures Remove(n, target) == Some(n)
  {
    match n
    case Leaf(_) =>
    case Split(_, _, first, second) =>
      RemoveAbsent(first, target);
      RemoveAbsent(second, target);
  }

  // Removing a freshly inserted leaf gives back the original tree, its shape
  // and ratios included, wherever the leaf went and whatever its ratio was.
  lemma {:induction false} RemoveUndoesInsert(
      n: Node, newLeaf: PaneId, target: PaneId, axis: Axis, ratio: real, newFirst: bool)
    requires newLeaf !in Leaves(n)
    ensures Remove(Insert(n, newLeaf, target, axis, ratio, newFirst), newLeaf) == Some(n)
    ensures Remove(InsertAtRoot(n, newLeaf, axis, ratio, newFirst), newLeaf) == Some(n)
  {
    RemoveAbsent(n, newLeaf);
    match n
    case Leaf(_) =>
    case Split(_, _, first, second) =>
      RemoveUndoesInsert(first, newLeaf, target, axis, ratio, newFirst);
      RemoveUndoesInsert(second, newLeaf, target, axis, ratio, newFirst);
  }

  // The reference for insertion: put a list in place of one id.
  function Replaced(ids: seq<PaneId>, id: PaneId, pair: seq<PaneId>): seq<PaneId> {
    if ids == [] then []
    else (if ids[0] == id then pair else [ids[0]]) + Replaced(ids[1..], id, pair)
  }

  lemma {:induction false} ReplacedConcat(a: seq<PaneId>, b: seq<PaneId>, id: PaneId, pair: seq<PaneId>)
    ensures Replaced(a + b, id, pair) == Replaced(a, id, pair) + Replaced(b, id, pair)
  {
    if a == [] {
      assert a + b == b;
    } else {
      var head := if a[0] == id then pair else [a[0]];
      assert (a + b)[0] == a[0] && (a + b)[1..] == a[1..] + b;
      ReplacedConcat(a[1..], b, id, pair);
      assert head + (Replaced(a[1..], id, pair) + Replaced(b, id, pair))
        == head + Replaced(a[1..], id, pair) + Replaced(b, id, pair);
    }
  }

  lemma {:induction false} InsertInPlace(
      n: Node, newLeaf: PaneId, target: PaneId, axis: Axis, ratio: real, newFirst: bool)
    ensures Leaves(Insert(n, newLeaf, target, axis, ratio, newFirst))
      == Replaced(Leaves(n), target, if newFirst then [newLeaf, target] else [target, newLeaf])
  {
    match n
    case Leaf(id) =>
      assert Leaves(n)[1..] == [];
    case Split(_, _, first, second) =>
      InsertInPlace(first, newLeaf, target, axis, ratio, newFirst);
      InsertInPlace(second, newLeaf, target, axis, ratio, newFirst);
      ReplacedConcat(Leaves(first), Leaves(second), target, if newFirst then [newLeaf, target] else [target, newLeaf]);
  }

  // Insertion puts the new leaf next to the target, on the side asked for, and
  // keeps the order of the rest; without the target it changes nothing. A tree of
  // distinct leaves gains exactly the new one.
  lemma {:induction false} InsertLeaves(
      n: Node, newLeaf: PaneId, target: PaneId, axis: Axis, ratio: real, newFirst: bool)
    ensures var r := Insert(n, newLeaf, target, axis, ratio, newFirst);
            && Leaves(r) == Replaced(Leaves(n), target, if newFirst then [newLeaf, target] else [target, newLeaf])
            && (target !in Leaves(n) ==> r == n)
            && (Distinct(Leaves(n)) && target in Leaves(n) ==>
                  multiset(Leaves(r)) == multiset(Leaves(n)) + multiset{newLeaf})
  {
    InsertInPlace(n, newLeaf, target, axis, ratio, newFirst);
    if target !in Leaves(n) {
      InsertAbsent(n, newLeaf, target, axis, ratio, newFirst);
    } else if Distinct(Leaves(n)) {
      InsertPresent(n, newLeaf, target, axis, ratio, newFirst);
    }
  }

  lemma MultisetOfSplit(axis: Axis, ratio: real, first: Node, second: Node)
    ensures multiset(Leaves(Split(axis, ratio, first, second))) == multiset(Leaves(first)) + multiset(Leaves(second))
  {
  }

  lemma {:induction false} InsertPresent(
      n: Node, newLeaf: PaneId, target: PaneId, axis: Axis, ratio: real, newFirst: bool)
    requires Distinct(Leaves(n)) && target in Leaves(n)
    ensures multiset(Leaves(Insert(n, newLeaf, target, axis, ratio, newFirst)))
      == multiset(Leaves(n)) + multiset{newLeaf}
  {
    match n
    case Leaf(_) =>
      MultisetOfSplit(axis, ratio, Leaf(newLeaf), n);
      MultisetOfSplit(axis, ratio, n, Leaf(newLeaf));
    case Split(ax, ra, first, second) =>
      DistinctHalves(Leaves(first), Leaves(second));
      MultisetOfSplit(ax, ra, first, second);
      if target in Leaves(first) {
        InsertPresent(first, newLeaf, target, axis, ratio, newFirst);
        InsertAbsent(second, newLeaf, target, axis, ratio, newFirst);
        MultisetOfSplit(ax, ra, Insert(first, newLeaf, target, axis, ratio, newFirst), second);
      } else {
        InsertPresent(second, newLeaf, target, axis, ratio, newFirst);
        InsertAbsent(first, newLeaf, target, axis, ratio, newFirst);
        MultisetOfSplit(ax, ra, first, Insert(second, newLeaf, target, axis, ratio, newFirst));
      }
  }

  lemma {:induction false} InsertAbsent(
      n: Node, newLeaf: PaneId, target: PaneId, axis: Axis, ratio: real, newFirst: bool)
    requires target !in Leaves(n)
    ensures Insert(n, newLeaf, target, axis, ratio, newFirst) == n
  {
    match n
    case Leaf(_) =>
    case Split(_, _, first, second) =>
      InsertAbsent(first, newLeaf, target, axis, ratio, newFirst);
      InsertAbsent(second, newLeaf, target, axis, ratio, newFirst);
  }

  lemma {:induction false} InsertKeepsRatios(
      n: Node, newLeaf: PaneId, target: PaneId, axis: Axis, ratio: real, newFirst: bool)
    requires RatiosOk(n) && RatioOk(ratio)
    ensures RatiosOk(Insert(n, newLeaf, target, axis, ratio, newFirst))
  {
    match n
    case Leaf(_) =>
    case Split(_, _, first, second) =>
      InsertKeepsRatios(first, newLeaf, target, axis, ratio, newFirst);
      InsertKeepsRatios(second, newLeaf, target, axis, ratio, newFirst);
  }

  lemma {:induction false} RemoveKeepsRatios(n: Node, target: PaneId)
    requires RatiosOk(n)
    ensures var r := Remove(n, target); r.Some? ==> RatiosOk(r.value)
  {
    match n
    case Leaf(_) =>
    case Split(_, _, first, second) =>
      RemoveKeepsRatios(first, target);
      RemoveKeepsRatios(second, target);
  }

  lemma {:induction false} DistinctWithout(a: seq<PaneId>, id: PaneId)
    requires Distinct(a)
    ensures id !in Without(a, id) && Distinct(Without(a, id))
    ensures forall k :: k in Without(a, id) <==> k in a && k != id
  {
    if a != [] {
      assert Distinct(a[1..]);
      DistinctWithout(a[1..], id);
      assert a[0] !in a[1..];
      if a[0] == id {
        WithoutAbsent(a[1..], id);
      } else {
        var w := Without(a[1..], id);
        assert Without(a, id) == [a[0]] + w;
        forall i, j | 0 <= i < j < |w| + 1 ensures ([a[0]] + w)[i] != ([a[0]] + w)[j] {
          if i == 0 { assert w[j - 1] in a[1..]; } else { assert w[i - 1] != w[j - 1]; }
        }
      }
    }
  }

  lemma {:induction false} WithoutMultiset(a: seq<PaneId>, id: PaneId)
    requires Distinct(a)
    ensures multiset(a) == multiset(Without(a, id)) + (if id in a then multiset{id} else multiset{})
  {
    if a != [] {
      assert Distinct(a[1..]);
      WithoutMultiset(a[1..], id);
      assert a == [a[0]] + a[1..];
      if a[0] == id {
        assert a[0] !in a[1..];
        WithoutAbsent(a[1..], id);
      }
    }
  }
}
