/** Resizing the split nearest to a pane along an axis. */
module SplitResize {
  import opened Wrappers
  import opened SplitTree
  import opened SplitLayout

  function Clamp(r: real): real { if r < 0.1 then 0.1 else if r > 0.9 then 0.9 else r }

  // The deepest split of the wanted axis above the pane moves its ratio; under
  // the second child the sign flips, so a positive delta grows the pane.
  function AdjustRatio(n: Node, id: PaneId, axis: Axis, delta: real): Option<Node> {
    match n
    case Leaf(_) => None
    case Split(a, ratio, first, second) =>
      if Contains(first, id) then
        match AdjustRatio(first, id, axis, delta)
        case Some(f) => Some(Split(a, ratio, f, second))
        case None => if a == axis then Some(Split(a, Clamp(ratio + delta), first, second)) else None
      else if Contains(second, id) then
        match AdjustRatio(second, id, axis, delta)
        case Some(s) => Some(Split(a, ratio, first, s))
        case None => if a == axis then Some(Split(a, Clamp(ratio - delta), first, second)) else None
      else None
  }

  // The axes of the splits above a leaf.
  function AncestorAxes(n: Node, id: PaneId): set<Axis> {
    match n
    case Leaf(_) => {}
    case Split(a, _, first, second) =>
      if Contains(first, id) then {a} + AncestorAxes(first, id)
      else if Contains(second, id) then {a} + AncestorAxes(second, id)
      else {}
  }

  // The leaves under the split that a resize adjusts: the smallest subtree that
  // holds the pane and is split along the axis.
  function AdjustedLeaves(n: Node, id: PaneId, axis: Axis): set<PaneId> {
    match n
    case Leaf(_) => {}
    case Split(a, _, first, second) =>
      var child := if Contains(first, id) then first else second;
      if axis in AncestorAxes(child, id) then AdjustedLeaves(child, id, axis)
      else set k | k in Leaves(n)
  }

  // The extent of that split along the axis.
  function AdjustedExtent(n: Node, id: PaneId, axis: Axis, b: Rect): real {
    match n
    case Leaf(_) => b.Extent(axis)
    case Split(a, ratio, first, second) =>
      var isFirst := Contains(first, id);
      var child := if isFirst then first else second;
      if axis in AncestorAxes(child, id)
      then AdjustedExtent(child, id, axis, if isFirst then FirstRect(a, ratio, b) else SecondRect(a, ratio, b))
      else b.Extent(axis)
  }

  // A resize finds nothing to adjust exactly when no split above the pane has
  // the axis.
  lemma {:induction false} AdjustableExactly(n: Node, id: PaneId, axis: Axis, delta: real)
    ensures AdjustRatio(n, id, axis, delta).Some? <==> axis in AncestorAxes(n, id)
  {
    match n
    case Leaf(_) =>
    case Split(_, _, first, second) =>
      AdjustableExactly(first, id, axis, delta);
      AdjustableExactly(second, id, axis, delta);
  }

  lemma {:induction false} AdjustKeepsShape(n: Node, id: PaneId, axis: Axis, delta: real)
    requires RatiosOk(n)
    ensures var r := AdjustRatio(n, id, axis, delta);
            r.Some? ==> Leaves(r.value) == Leaves(n) && RatiosOk(r.value)
  {
    match n
    case Leaf(_) =>
    case Split(_, _, first, second) =>
      AdjustKeepsShape(first, id, axis, delta);
      AdjustKeepsShape(second, id, axis, delta);
  }

  predicate SameAcross(r: Rect, q: Rect, axis: Axis) {
    r.Extent(Other(axis)) == q.Extent(Other(axis)) && r.Origin(Other(axis)) == q.Origin(Other(axis))
  }

  lemma ChildrenSameAcross(a: Axis, ratio: real, axis: Axis, b: Rect, c: Rect)
    requires a != axis && SameAcross(b, c, axis)
    ensures SameAcross(FirstRect(a, ratio, b), FirstRect(a, ratio, c), axis)
    ensures SameAcross(SecondRect(a, ratio, b), SecondRect(a, ratio, c), axis)
  {
  }

  // Without a split along the axis above it, a pane spans its bounds that way,
  // and its place across the axis does not depend on the bounds along it.
  lemma {:induction false} SpansAxis(n: Node, id: PaneId, axis: Axis, b: Rect, c: Rect)
    requires Distinct(Leaves(n)) && id in Leaves(n) && axis !in AncestorAxes(n, id)
    requires SameAcross(b, c, axis)
    ensures id in Layout(n, b) && id in Layout(n, c)
    ensures Layout(n, b)[id].Extent(axis) == b.Extent(axis)
    ensures Layout(n, c)[id].Extent(axis) == c.Extent(axis)
    ensures SameAcross(Layout(n, b)[id], Layout(n, c)[id], axis)
  {
    match n
    case Leaf(_) =>
    case Split(a, ratio, first, second) =>
      ContainsIsMembership(first, id);
      ContainsIsMembership(second, id);
      LayoutOfSplit(a, ratio, first, second, b, id);
      LayoutOfSplit(a, ratio, first, second, c, id);
      ChildrenSameAcross(a, ratio, axis, b, c);
      if id in Leaves(first) {
        SpansAxis(first, id, axis, FirstRect(a, ratio, b), FirstRect(a, ratio, c));
      } else {
        SpansAxis(second, id, axis, SecondRect(a, ratio, b), SecondRect(a, ratio, c));
      }
  }

  // A larger ratio gives more to the first child and less to the second, unless
  // there is less than nothing to share.
  lemma ShareMoves(total: real, r: real, q: real, first: bool)
    requires if first then r <= q else q <= r
    ensures total >= 0.0 ==> Share(total, r, first) <= Share(total, q, first)
    ensures total <= 0.0 ==> Share(total, r, first) >= Share(total, q, first)
  {
    var more := if first then q - r else r - q;
    assert total * (q - r) == total * q - total * r;
    assert total >= 0.0 ==> total * more >= 0.0;
    assert total <= 0.0 ==> total * more <= 0.0;
  }

  // A split with room for its divider responds in the delta's direction, one
  // without in the other.
  function Felt(delta: real, extent: real): real { if extent >= GAP then delta else -delta }

  // How a pane's rectangle responds: it never shrinks along the axis for a
  // non-negative delta, never grows for a non-positive one, and its place
  // across the axis does not change.
  ghost predicate Responds(before: Rect, after: Rect, axis: Axis, delta: real) {
    && (delta >= 0.0 ==> after.Extent(axis) >= before.Extent(axis))
    && (delta <= 0.0 ==> after.Extent(axis) <= before.Extent(axis))
    && SameAcross(before, after, axis)
  }

  function Share(total: real, ratio: real, first: bool): real {
    if first then total * ratio else total - total * ratio
  }

  // The pane's extent below a split along the axis, and its place across it.
  lemma {:induction false} PaneBelowSplit(
      axis: Axis, ratio: real, first: Node, second: Node, id: PaneId, b: Rect, r: real)
    requires Distinct(Leaves(Split(axis, ratio, first, second)))
    requires id in Leaves(first) || id in Leaves(second)
    requires axis !in AncestorAxes(if id in Leaves(first) then first else second, id)
    ensures var before, after := Layout(Split(axis, ratio, first, second), b), Layout(Split(axis, r, first, second), b);
            && id in before && id in after
            && before[id].Extent(axis) == Share(b.Extent(axis) - GAP, ratio, id in Leaves(first))
            && after[id].Extent(axis) == Share(b.Extent(axis) - GAP, r, id in Leaves(first))
            && SameAcross(before[id], after[id], axis)
  {
    assert Leaves(Split(axis, r, first, second)) == Leaves(Split(axis, ratio, first, second));
    LayoutOfSplit(axis, ratio, first, second, b, id);
    LayoutOfSplit(axis, r, first, second, b, id);
    ChildExtents(axis, ratio, b);
    ChildExtents(axis, r, b);
    if id in Leaves(first) {
      SpansAxis(first, id, axis, FirstRect(axis, ratio, b), FirstRect(axis, r, b));
    } else {
      SpansAxis(second, id, axis, SecondRect(axis, ratio, b), SecondRect(axis, r, b));
    }
  }

  lemma {:induction false} AdjustHere(
      ratio: real, first: Node, second: Node, id: PaneId, axis: Axis, delta: real, b: Rect)
    requires Distinct(Leaves(Split(axis, ratio, first, second)))
    requires RatioOk(ratio) && (id in Leaves(first) || id in Leaves(second))
    requires axis !in AncestorAxes(if id in Leaves(first) then first else second, id)
    ensures var r := Clamp(if id in Leaves(first) then ratio + delta else ratio - delta);
            var before, after := Split(axis, ratio, first, second), Split(axis, r, first, second);
            && id in Layout(before, b) && id in Layout(after, b)
            && Responds(Layout(before, b)[id], Layout(after, b)[id], axis, Felt(delta, b.Extent(axis)))
  {
    var isFirst := id in Leaves(first);
    var r := Clamp(if isFirst then ratio + delta else ratio - delta);
    PaneBelowSplit(axis, ratio, first, second, id, b, r);
    if delta >= 0.0 { ShareMoves(b.Extent(axis) - GAP, ratio, r, isFirst); }
    if delta <= 0.0 { ShareMoves(b.Extent(axis) - GAP, r, ratio, isFirst); }
  }

  lemma {:induction false} ResizePane(n: Node, id: PaneId, axis: Axis, delta: real, b: Rect)
    requires Distinct(Leaves(n)) && RatiosOk(n) && id in Leaves(n) && axis in AncestorAxes(n, id)
    ensures var r := AdjustRatio(n, id, axis, delta);
            && r.Some?
            && id in Layout(n, b) && id in Layout(r.value, b)
            && Responds(Layout(n, b)[id], Layout(r.value, b)[id], axis, Felt(delta, AdjustedExtent(n, id, axis, b)))
  {
    AdjustableExactly(n, id, axis, delta);
    match n
    case Leaf(_) =>
    case Split(a, ratio, first, second) =>
      ContainsIsMembership(first, id);
      ContainsIsMembership(second, id);
      LayoutOfSplit(a, ratio, first, second, b, id);
      AdjustableExactly(first, id, axis, delta);
      AdjustableExactly(second, id, axis, delta);
      AdjustKeepsShape(n, id, axis, delta);
      var n' := AdjustRatio(n, id, axis, delta).value;
      var child := if id in Leaves(first) then first else second;
      if axis in AncestorAxes(child, id) {
        LayoutOfSplit(a, ratio, n'.first, n'.second, b, id);
        if id in Leaves(first) {
          ResizePane(first, id, axis, delta, FirstRect(a, ratio, b));
          AdjustKeepsShape(first, id, axis, delta);
        } else {
          ResizePane(second, id, axis, delta, SecondRect(a, ratio, b));
          AdjustKeepsShape(second, id, axis, delta);
        }
      } else {
        AdjustHere(ratio, first, second, id, axis, delta, b);
      }
  }

  lemma {:induction false} ResizeLeavesOthers(n: Node, id: PaneId, axis: Axis, delta: real, b: Rect, k: PaneId)
    requires Distinct(Leaves(n)) && RatiosOk(n) && id in Leaves(n)
    requires axis in AncestorAxes(n, id)
    requires k in Leaves(n) && k !in AdjustedLeaves(n, id, axis)
    ensures var r := AdjustRatio(n, id, axis, delta);
            && r.Some?
            && k in Layout(n, b) && k in Layout(r.value, b)
            && Layout(n, b)[k] == Layout(r.value, b)[k]
  {
    AdjustableExactly(n, id, axis, delta);
    match n
    case Leaf(_) =>
    case Split(a, ratio, first, second) =>
      ContainsIsMembership(first, id);
      ContainsIsMembership(second, id);
      LayoutOfSplit(a, ratio, first, second, b, id);
      LayoutOfSplit(a, ratio, first, second, b, k);
      AdjustableExactly(first, id, axis, delta);
      AdjustableExactly(second, id, axis, delta);
      AdjustKeepsShape(n, id, axis, delta);
      var n' := AdjustRatio(n, id, axis, delta).value;
      LayoutOfSplit(a, n'.ratio, n'.first, n'.second, b, k);
      if id in Leaves(first) {
        AdjustKeepsShape(first, id, axis, delta);
        if k in Leaves(first) {
          ResizeLeavesOthers(first, id, axis, delta, FirstRect(a, ratio, b), k);
        }
      } else {
        AdjustKeepsShape(second, id, axis, delta);
        if k in Leaves(second) {
          ResizeLeavesOthers(second, id, axis, delta, SecondRect(a, ratio, b), k);
        }
      }
  }

  // Resizing around a pane: refused exactly when no split above it has the
  // axis; otherwise the leaves stay, the ratios stay legal, the pane responds
  // in the delta's direction, or against it when the adjusted split is too small
  // for its own divider, only across the axis it stays put, and every pane outside
  // the adjusted split keeps its rectangle.
  lemma Resize(n: Node, id: PaneId, axis: Axis, delta: real, b: Rect)
    requires Distinct(Leaves(n)) && RatiosOk(n) && id in Leaves(n)
    ensures AdjustRatio(n, id, axis, delta).Some? <==> axis in AncestorAxes(n, id)
    ensures var r := AdjustRatio(n, id, axis, delta);
      r.Some? ==>
        && Leaves(r.value) == Leaves(n) && RatiosOk(r.value)
        && id in Layout(n, b) && id in Layout(r.value, b)
        && Responds(Layout(n, b)[id], Layout(r.value, b)[id], axis, Felt(delta, AdjustedExtent(n, id, axis, b)))
        && id in AdjustedLeaves(n, id, axis)
        && forall k :: k in Leaves(n) && k !in AdjustedLeaves(n, id, axis) ==>
             k in Layout(n, b) && k in Layout(r.value, b) && Layout(n, b)[k] == Layout(r.value, b)[k]
  {
    AdjustableExactly(n, id, axis, delta);
    if axis in AncestorAxes(n, id) {
      AdjustKeepsShape(n, id, axis, delta);
      ResizePane(n, id, axis, delta, b);
      PaneIsAdjusted(n, id, axis);
      forall k | k in Leaves(n) && k !in AdjustedLeaves(n, id, axis)
        ensures var r := AdjustRatio(n, id, axis, delta).value;
                k in Layout(n, b) && k in Layout(r, b) && Layout(n, b)[k] == Layout(r, b)[k]
      {
        ResizeLeavesOthers(n, id, axis, delta, b, k);
      }
    }
  }

  lemma {:induction false} PaneIsAdjusted(n: Node, id: PaneId, axis: Axis)
    requires axis in AncestorAxes(n, id)
    ensures id in AdjustedLeaves(n, id, axis)
  {
    match n
    case Leaf(_) =>
    case Split(_, _, first, second) =>
      ContainsIsMembership(first, id);
      ContainsIsMembership(second, id);
      var child := if Contains(first, id) then first else second;
      if axis in AncestorAxes(child, id) { PaneIsAdjusted(child, id, axis); }
  }
}
