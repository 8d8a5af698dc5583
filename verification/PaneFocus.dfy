/**
 Spatial focus and movement: the nearest pane in a direction, moving a pane
 beside it, and the session of app/Sources/Mux/Tiling/Session.swift, whose
 wrap-around focus walks to the far side.
 */
module PaneFocus {
  import opened Wrappers
  import opened SplitTree
  import opened SplitLayout
  import opened SplitResize

  type Rects = map<PaneId, Rect>

  function Opposite(d: FocusDirection): FocusDirection {
    match d
    case Left => Right
    case Right => Left
    case Up => Down
    case Down => Up
  }

  function AxisOf(d: FocusDirection): Axis {
    if d.Left? || d.Right? then Horizontal else Vertical
  }

  predicate TowardsFirst(d: FocusDirection) { d.Left? || d.Up? }

  // How far along the direction a rectangle's centre lies.
  function Reach(d: FocusDirection, r: Rect): real {
    match d
    case Left => -r.MidX()
    case Right => r.MidX()
    case Up => -r.MidY()
    case Down => r.MidY()
  }

  predicate Eligible(d: FocusDirection, from: Rect, r: Rect) {
    match d
    case Left => r.MidX() < from.MidX() - 1.0
    case Right => r.MidX() > from.MidX() + 1.0
    case Up => r.MidY() < from.MidY() - 1.0
    case Down => r.MidY() > from.MidY() + 1.0
  }

  function Distance(from: Rect, r: Rect): real {
    var dx, dy := r.MidX() - from.MidX(), r.MidY() - from.MidY();
    dx * dx + dy * dy
  }

  function Candidates(rects: Rects, id: PaneId, d: FocusDirection): set<PaneId>
    requires id in rects
  {
    set k | k in rects && k != id && Eligible(d, rects[id], rects[k])
  }

  // What a neighbour lookup may answer: nothing exactly when no pane is
  // eligible, otherwise some nearest eligible pane. Ties are broken by the
  // dictionary's order, which is left open.
  ghost predicate IsNeighbor(rects: Rects, id: PaneId, d: FocusDirection, answer: Option<PaneId>) {
    if id !in rects then answer.None?
    else
      && (answer.None? <==> Candidates(rects, id, d) == {})
      && (answer.Some? ==>
            && answer.value in Candidates(rects, id, d)
            && forall k :: k in Candidates(rects, id, d)
                 ==> Distance(rects[id], rects[answer.value]) <= Distance(rects[id], rects[k]))
  }

  method Neighbor(rects: Rects, id: PaneId, d: FocusDirection) returns (answer: Option<PaneId>)
    ensures IsNeighbor(rects, id, d, answer)
  {
    if id !in rects { return None; }
    answer := None;
    var rest := Candidates(rects, id, d);
    while rest != {}
      invariant rest <= Candidates(rects, id, d)
      invariant answer.None? ==> rest == Candidates(rects, id, d)
      invariant answer.Some? ==>
        && answer.value in Candidates(rects, id, d)
        && forall k :: k in Candidates(rects, id, d) - rest
             ==> Distance(rects[id], rects[answer.value]) <= Distance(rects[id], rects[k])
      decreases |rest|
    {
      var k :| k in rest;
      if answer.None? || Distance(rects[id], rects[k]) < Distance(rects[id], rects[answer.value]) {
        answer := Some(k);
      }
      rest := rest - {k};
    }
  }

  // ----------------------------------------------------------------- moves

  // `nb` is the neighbour the lookup answered.
  function Moving(n: Node, id: PaneId, d: FocusDirection, nb: Option<PaneId>): Option<Node> {
    if !Contains(n, id) then None else
      match Remove(n, id)
      case None => None
      case Some(rest) =>
        if nb.Some? then Some(Insert(rest, id, nb.value, AxisOf(d), 0.5, TowardsFirst(d)))
        else if SpansEdge(n, id, d) then None
        else if TowardsFirst(d) then Some(Split(AxisOf(d), 0.5, Leaf(id), rest))
        else Some(Split(AxisOf(d), 0.5, rest, Leaf(id)))
  }

  predicate SpansEdge(n: Node, id: PaneId, d: FocusDirection) {
    n.Split? && n.axis == AxisOf(d) && (if TowardsFirst(d) then n.first else n.second) == Leaf(id)
  }

  lemma {:induction false} DistinctIsMultiplicity(s: seq<PaneId>)
    ensures Distinct(s) <==> forall x :: multiset(s)[x] <= 1
  {
    if s != [] {
      DistinctIsMultiplicity(s[1..]);
      assert s == [s[0]] + s[1..];
      if Distinct(s) {
        assert s[0] !in s[1..];
      }
      if forall x :: multiset(s)[x] <= 1 {
        assert multiset(s) == multiset{s[0]} + multiset(s[1..]);
        assert multiset(s)[s[0]] <= 1;
        assert forall x :: multiset(s[1..])[x] <= multiset(s)[x];
        assert s[0] !in s[1..];
        forall i, j | 0 <= i < j < |s| ensures s[i] != s[j] {
          if i == 0 { assert s[j] in s[1..]; } else { assert s[1..][i - 1] != s[1..][j - 1]; }
        }
      }
    }
  }

  // A sole leaf holds only one pane, so removing one of two leaves a tree.
  lemma {:induction false} RemoveFromSplit(n: Node, id: PaneId)
    requires Distinct(Leaves(n))
    ensures Remove(n, id).None? <==> n == Leaf(id)
  {
    match n
    case Leaf(_) =>
    case Split(_, _, first, second) =>
      DistinctHalves(Leaves(first), Leaves(second));
      RemoveFromSplit(first, id);
      RemoveFromSplit(second, id);
      assert first == Leaf(id) ==> id in Leaves(first);
      assert second == Leaf(id) ==> id in Leaves(second);
  }

  lemma MoveKeepsRatios(n: Node, id: PaneId, d: FocusDirection, nb: Option<PaneId>)
    requires RatiosOk(n)
    ensures var r := Moving(n, id, d, nb); r.Some? ==> RatiosOk(r.value)
  {
    RemoveKeepsRatios(n, id);
    var rest := Remove(n, id);
    if rest.Some? && nb.Some? {
      InsertKeepsRatios(rest.value, id, nb.value, AxisOf(d), 0.5, TowardsFirst(d));
    }
  }

  lemma MovedLeaves(n: Node, id: PaneId, d: FocusDirection, nb: Option<PaneId>)
    requires Distinct(Leaves(n)) && (nb.Some? ==> nb.value in Leaves(n) && nb.value != id)
    ensures var r := Moving(n, id, d, nb);
      r.Some? ==> multiset(Leaves(r.value)) == multiset(Leaves(n)) && Distinct(Leaves(r.value))
  {
    ContainsIsMembership(n, id);
    var r := Moving(n, id, d, nb);
    if r.Some? {
      var rest := Remove(n, id).value;
      RemoveLeaves(n, id);
      DistinctWithout(Leaves(n), id);
      WithoutMultiset(Leaves(n), id);
      if nb.Some? { InsertLeaves(rest, id, nb.value, AxisOf(d), 0.5, TowardsFirst(d)); }
      DistinctIsMultiplicity(Leaves(n));
      DistinctIsMultiplicity(Leaves(r.value));
    }
  }

  // A move keeps exactly the same distinct leaves, and is refused exactly when
  // the pane is absent, alone, or already spans that edge.
  lemma MoveKeepsPanes(n: Node, id: PaneId, d: FocusDirection, b: Rect, nb: Option<PaneId>)
    requires Distinct(Leaves(n)) && IsNeighbor(Layout(n, b), id, d, nb)
    ensures var r := Moving(n, id, d, nb);
      && (r.None? <==> id !in Leaves(n) || n == Leaf(id) || (nb.None? && SpansEdge(n, id, d)))
      && (r.Some? ==>
            && multiset(Leaves(r.value)) == multiset(Leaves(n))
            && Distinct(Leaves(r.value))
            && (RatiosOk(n) ==> RatiosOk(r.value)))
  {
    ContainsIsMembership(n, id);
    RemoveFromSplit(n, id);
    LayoutKeys(n, b);
    if RatiosOk(n) { MoveKeepsRatios(n, id, d, nb); }
    MovedLeaves(n, id, d, nb);
  }

  // ----------------------------------------------------------- wrap-around

  // The panes whose centre lies more than a point further along the direction.
  function Beyond(rects: Rects, d: FocusDirection, from: Rect): set<PaneId> {
    set k | k in rects && Eligible(d, from, rects[k])
  }

  // Each hop leaves strictly fewer panes beyond it: the walk's measure.
  lemma HopShrinks(rects: Rects, d: FocusDirection, from: PaneId, to: PaneId)
    requires from in rects && to in rects && Eligible(d, rects[from], rects[to])
    ensures Reach(d, rects[to]) > Reach(d, rects[from]) + 1.0
    ensures Beyond(rects, d, rects[to]) < Beyond(rects, d, rects[from])
    ensures |Beyond(rects, d, rects[to])| < |Beyond(rects, d, rects[from])|
  {
    assert to in Beyond(rects, d, rects[from]) - Beyond(rects, d, rects[to]);
    SubsetSize(Beyond(rects, d, rects[to]), Beyond(rects, d, rects[from]), to);
  }

  lemma {:induction false} SubsetSize(a: set<PaneId>, b: set<PaneId>, x: PaneId)
    requires a <= b && x in b && x !in a
    ensures |a| < |b|
  {
    if a != {} {
      var y :| y in a;
      SubsetSize(a - {y}, b - {y}, x);
    }
  }

  // The walk stops on a pane that no other pane lies a point beyond.
  ghost predicate AtFarSide(rects: Rects, id: PaneId, d: FocusDirection) {
    id in rects && forall k :: k in rects ==> Reach(d, rects[k]) <= Reach(d, rects[id]) + 1.0
  }

  method FarSide(rects: Rects, start: PaneId, d: FocusDirection) returns (candidate: PaneId)
    requires start in rects
    ensures AtFarSide(rects, candidate, d)
    ensures candidate == start <==> Candidates(rects, start, d) == {}
    ensures candidate != start ==> Reach(d, rects[candidate]) > Reach(d, rects[start]) + 1.0
  {
    candidate := start;
    var next := Neighbor(rects, candidate, d);
    while next.Some?
      invariant candidate in rects
      invariant IsNeighbor(rects, candidate, d, next)
      invariant candidate == start || Reach(d, rects[candidate]) > Reach(d, rects[start]) + 1.0
      invariant candidate != start ==> Candidates(rects, start, d) != {}
      decreases |Beyond(rects, d, rects[candidate])|
    {
      HopShrinks(rects, d, candidate, next.value);
      if candidate == start { assert next.value in Candidates(rects, start, d); }
      candidate := next.value;
      next := Neighbor(rects, candidate, d);
    }
    forall k | k in rects ensures Reach(d, rects[k]) <= Reach(d, rects[candidate]) + 1.0 {
      assert k !in Candidates(rects, candidate, d);
    }
  }

  // --------------------------------------------------------------- session

  ghost predicate FocusMoves(rects: Rects, from: PaneId, d: FocusDirection, to: PaneId)
    requires from in rects
  {
    if Candidates(rects, from, d) != {} then IsNeighbor(rects, from, d, Some(to))
    else AtFarSide(rects, to, Opposite(d))
         && (to == from <==> Candidates(rects, from, Opposite(d)) == {})
  }

  class Session {
    var tree: Option<Node>
    var panes: set<PaneId>
    var focusedId: Option<PaneId>
    var zoomedId: Option<PaneId>

    // The tree's leaves are exactly the panes, each once, and the ratios legal.
    ghost predicate Valid()
      reads this
    {
      && (tree.None? ==> panes == {})
      && (tree.Some? ==>
            && Distinct(Leaves(tree.value))
            && RatiosOk(tree.value)
            && panes == set k | k in Leaves(tree.value))
      && (focusedId.Some? ==> focusedId.value in panes)
    }

    constructor (first: PaneId)
      ensures Valid() && tree == Some(Leaf(first)) && focusedId == Some(first) && zoomedId == None
    {
      tree, panes, focusedId, zoomedId := Some(Leaf(first)), {first}, Some(first), None;
    }

    method FocusDirection(d: FocusDirection, bounds: Rect)
      requires Valid()
      modifies this`focusedId, this`zoomedId
      ensures Valid()
      ensures tree.None? || old(focusedId).None? ==> focusedId == old(focusedId) && zoomedId == old(zoomedId)
      ensures tree.Some? && old(focusedId).Some? ==>
        var rects := Layout(tree.value, bounds);
        && focusedId.Some? && old(focusedId).value in rects
        && FocusMoves(rects, old(focusedId).value, d, focusedId.value)
        && zoomedId == if focusedId == old(focusedId) then old(zoomedId) else None
    {
      if tree.None? || focusedId.None? { return; }
      var rects := Layout(tree.value, bounds);
      LayoutKeys(tree.value, bounds);
      var target := Neighbor(rects, focusedId.value, d);
      if target.None? {
        var candidate := FarSide(rects, focusedId.value, Opposite(d));
        target := if candidate == focusedId.value then None else Some(candidate);
      }
      if target.Some? && target.value in panes {
        zoomedId := None;
        focusedId := target;
      }
    }

    // Right and down grow the focused pane whichever side of its split it is on.
    method ResizeFocused(d: FocusDirection, step: real)
      requires Valid()
      modifies this`tree
      ensures Valid()
      ensures old(tree).Some? && focusedId.Some? ==>
        var t, id, axis := old(tree).value, focusedId.value, AxisOf(d);
        && tree.Some?
        && Leaves(tree.value) == Leaves(t)
        && (axis !in AncestorAxes(t, id) ==> tree == old(tree))
        && forall b :: axis in AncestorAxes(t, id) && AdjustedExtent(t, id, axis, b) >= GAP ==>
             && id in Layout(t, b) && id in Layout(tree.value, b)
             && Responds(Layout(t, b)[id], Layout(tree.value, b)[id], axis,
                         if TowardsFirst(d) then -step else step)
    {
      if tree.None? || focusedId.None? { return; }
      var delta := if d.Right? || d.Down? then step else -step;
      var adjusted := AdjustRatio(tree.value, focusedId.value, AxisOf(d), delta);
      AdjustableExactly(tree.value, focusedId.value, AxisOf(d), delta);
      AdjustKeepsShape(tree.value, focusedId.value, AxisOf(d), delta);
      forall b | AxisOf(d) in AncestorAxes(tree.value, focusedId.value)
                 && AdjustedExtent(tree.value, focusedId.value, AxisOf(d), b) >= GAP
        ensures focusedId.value in Layout(tree.value, b) && focusedId.value in Layout(adjusted.value, b)
        ensures Responds(Layout(tree.value, b)[focusedId.value], Layout(adjusted.value, b)[focusedId.value],
                         AxisOf(d), delta)
      {
        Resize(tree.value, focusedId.value, AxisOf(d), delta, b);
      }
      if adjusted.Some? { tree := adjusted; }
    }

    method MoveFocused(d: FocusDirection, bounds: Rect)
      requires Valid()
      modifies this`tree, this`zoomedId
      ensures Valid()
      ensures tree.Some? <==> old(tree).Some?
      ensures tree.Some? ==> multiset(Leaves(tree.value)) == multiset(Leaves(old(tree).value))
      ensures old(tree).Some? && focusedId.Some? ==>
        && zoomedId == None
        && exists nb :: MovesTo(old(tree).value, focusedId.value, d, bounds, nb, tree)
    {
      if tree.None? || focusedId.None? { return; }
      LayoutKeys(tree.value, bounds);
      var nb := Neighbor(Layout(tree.value, bounds), focusedId.value, d);
      var moved := Moving(tree.value, focusedId.value, d, nb);
      MovedSession(tree.value, focusedId.value, d, bounds, nb);
      assert MovesTo(tree.value, focusedId.value, d, bounds, nb, if moved.Some? then moved else tree);
      zoomedId := None;
      if moved.Some? { Rearrange(moved.value); }
    }

    // The same panes in another tree.
    method Rearrange(moved: Node)
      requires Valid() && tree.Some? && Distinct(Leaves(moved)) && RatiosOk(moved)
      requires (set k | k in Leaves(moved)) == (set k | k in Leaves(tree.value))
      modifies this`tree
      ensures Valid() && tree == Some(moved)
    {
      tree := Some(moved);
    }
  }

  lemma MovedSession(n: Node, id: PaneId, d: FocusDirection, bounds: Rect, nb: Option<PaneId>)
    requires Distinct(Leaves(n)) && RatiosOk(n) && IsNeighbor(Layout(n, bounds), id, d, nb)
    ensures var moved := Moving(n, id, d, nb);
      moved.Some? ==>
        && Distinct(Leaves(moved.value)) && RatiosOk(moved.value)
        && multiset(Leaves(moved.value)) == multiset(Leaves(n))
        && (set k | k in Leaves(moved.value)) == (set k | k in Leaves(n))
  {
    MoveKeepsPanes(n, id, d, bounds, nb);
    var moved := Moving(n, id, d, nb);
    if moved.Some? { SameMembers(Leaves(n), Leaves(moved.value)); }
  }

  // The tree after a move beside `nb`, or the same one when the move is refused.
  ghost predicate MovesTo(n: Node, id: PaneId, d: FocusDirection, bounds: Rect, nb: Option<PaneId>, after: Option<Node>) {
    && IsNeighbor(Layout(n, bounds), id, d, nb)
    && after == if Moving(n, id, d, nb).Some? then Moving(n, id, d, nb) else Some(n)
  }

  lemma SameMembers(a: seq<PaneId>, b: seq<PaneId>)
    requires multiset(a) == multiset(b)
    ensures forall k :: k in a <==> k in b
  {
    forall k ensures k in a <==> k in b {
      assert k in a <==> k in multiset(a);
      assert k in b <==> k in multiset(b);
    }
  }
}
