/**
 Laying a split tree out in a rectangle: the tiling theorem, and the exact
 bounds a tree needs so that no pane is given a negative size.
 */
module SplitLayout {
  import opened Wrappers
  import opened SplitTree

  // Top-left origin, as in the flipped container view.
  datatype Rect = Rect(x: real, y: real, w: real, h: real) {
    function MidX(): real { x + w / 2.0 }
    function MidY(): real { y + h / 2.0 }
    function Area(): real { w * h }
    function Extent(axis: Axis): real { if axis.Horizontal? then w else h }
    function Origin(axis: Axis): real { if axis.Horizontal? then x else y }
    predicate Has(px: real, py: real) { x <= px < x + w && y <= py < y + h }
  }

  const GAP: real := 1.0

  function Other(axis: Axis): Axis { if axis.Horizontal? then Vertical else Horizontal }

  function FirstRect(axis: Axis, ratio: real, b: Rect): Rect {
    match axis
    case Horizontal => b.(w := (b.w - GAP) * ratio)
    case Vertical => b.(h := (b.h - GAP) * ratio)
  }

  function SecondRect(axis: Axis, ratio: real, b: Rect): Rect {
    match axis
    case Horizontal =>
      var w := (b.w - GAP) * ratio;
      b.(x := b.x + w + GAP, w := b.w - w - GAP)
    case Vertical =>
      var h := (b.h - GAP) * ratio;
      b.(y := b.y + h + GAP, h := b.h - h - GAP)
  }

  // The strip between the two children, which the container paints.
  function DividerRect(axis: Axis, ratio: real, b: Rect): Rect {
    match axis
    case Horizontal => Rect(b.x + (b.w - GAP) * ratio, b.y, GAP, b.h)
    case Vertical => Rect(b.x, b.y + (b.h - GAP) * ratio, b.w, GAP)
  }

  lemma ChildExtents(axis: Axis, ratio: real, b: Rect)
    ensures var e := b.Extent(axis);
            && FirstRect(axis, ratio, b).Extent(axis) == (e - GAP) * ratio
            && SecondRect(axis, ratio, b).Extent(axis) == e - (e - GAP) * ratio - GAP
    ensures FirstRect(axis, ratio, b).Extent(Other(axis)) == b.Extent(Other(axis))
    ensures SecondRect(axis, ratio, b).Extent(Other(axis)) == b.Extent(Other(axis))
  {
  }

  // On a repeated leaf the first child's rectangle wins, as the merge does.
  function Layout(n: Node, b: Rect): map<PaneId, Rect> {
    match n
    case Leaf(id) => map[id := b]
    case Split(axis, ratio, first, second) =>
      Layout(second, SecondRect(axis, ratio, b)) + Layout(first, FirstRect(axis, ratio, b))
  }

  lemma {:induction false} LayoutKeys(n: Node, b: Rect)
    ensures forall id :: id in Layout(n, b) <==> id in Leaves(n)
  {
    match n
    case Leaf(_) =>
    case Split(axis, ratio, first, second) =>
      LayoutKeys(first, FirstRect(axis, ratio, b));
      LayoutKeys(second, SecondRect(axis, ratio, b));
  }

  // With distinct leaves each pane's rectangle comes from the child holding it.
  lemma LayoutOfSplit(axis: Axis, ratio: real, first: Node, second: Node, b: Rect, id: PaneId)
    requires Distinct(Leaves(Split(axis, ratio, first, second)))
    requires id in Leaves(first) + Leaves(second)
    ensures Distinct(Leaves(first)) && Distinct(Leaves(second))
    ensures id in Leaves(first) ==>
      && id !in Leaves(second)
      && id in Layout(first, FirstRect(axis, ratio, b))
      && id in Layout(Split(axis, ratio, first, second), b)
      && Layout(Split(axis, ratio, first, second), b)[id] == Layout(first, FirstRect(axis, ratio, b))[id]
    ensures id in Leaves(second) ==>
      && id !in Leaves(first)
      && id in Layout(second, SecondRect(axis, ratio, b))
      && id in Layout(Split(axis, ratio, first, second), b)
      && Layout(Split(axis, ratio, first, second), b)[id] == Layout(second, SecondRect(axis, ratio, b))[id]
  {
    DistinctHalves(Leaves(first), Leaves(second));
    LayoutKeys(first, FirstRect(axis, ratio, b));
    LayoutKeys(second, SecondRect(axis, ratio, b));
  }

  // -------------------------------------------------------- bounds needed

  // Every rectangle handed down the tree has non-negative sides.
  predicate Sized(n: Node, b: Rect) {
    && b.w >= 0.0 && b.h >= 0.0
    && match n
       case Leaf(_) => true
       case Split(axis, ratio, first, second) =>
         Sized(first, FirstRect(axis, ratio, b)) && Sized(second, SecondRect(axis, ratio, b))
  }

  function Max(a: real, b: real): real { if a < b then b else a }

  // The least extent along an axis that sizes the whole tree.
  function Need(n: Node, along: Axis): real
    requires RatiosOk(n)
  {
    match n
    case Leaf(_) => 0.0
    case Split(axis, ratio, first, second) =>
      if axis == along
      then GAP + Max(Need(first, along) / ratio, Need(second, along) / (1.0 - ratio))
      else Max(Need(first, along), Need(second, along))
  }

  lemma ShareFits(total: real, ratio: real, need: real)
    requires ratio > 0.0
    ensures total * ratio >= need <==> total >= need / ratio
  {
    var q := need / ratio;
    assert need == q * ratio;
    if total >= q {
      assert (total - q) * ratio >= 0.0;
    } else {
      assert (q - total) * ratio > 0.0;
    }
  }

  lemma RestOfShare(total: real, ratio: real)
    ensures total - total * ratio == total * (1.0 - ratio)
  {
  }

  lemma {:induction false} NeedIsNonNegative(n: Node, along: Axis)
    requires RatiosOk(n)
    ensures Need(n, along) >= 0.0
  {
    match n
    case Leaf(_) =>
    case Split(_, _, first, second) =>
      NeedIsNonNegative(first, along);
      NeedIsNonNegative(second, along);
  }

  lemma SplitNeed(ratio: real, nf: real, ns: real, extent: real)
    requires RatioOk(ratio)
    ensures extent >= GAP + Max(nf / ratio, ns / (1.0 - ratio)) <==>
      && (extent - GAP) * ratio >= nf
      && extent - (extent - GAP) * ratio - GAP >= ns
  {
    var total := extent - GAP;
    ShareFits(total, ratio, nf);
    ShareFits(total, 1.0 - ratio, ns);
    RestOfShare(total, ratio);
  }

  lemma {:induction false} NeedAlong(axis: Axis, ratio: real, first: Node, second: Node, extent: real)
    requires RatiosOk(Split(axis, ratio, first, second))
    ensures extent >= Need(Split(axis, ratio, first, second), axis) <==>
      && (extent - GAP) * ratio >= Need(first, axis)
      && extent - (extent - GAP) * ratio - GAP >= Need(second, axis)
  {
    SplitNeed(ratio, Need(first, axis), Need(second, axis), extent);
  }

  lemma {:induction false} NeedAcross(axis: Axis, ratio: real, first: Node, second: Node, extent: real)
    requires RatiosOk(Split(axis, ratio, first, second))
    ensures extent >= Need(Split(axis, ratio, first, second), Other(axis)) <==>
      extent >= Need(first, Other(axis)) && extent >= Need(second, Other(axis))
  {
  }

  predicate Fits(n: Node, b: Rect)
    requires RatiosOk(n)
  {
    b.w >= Need(n, Horizontal) && b.h >= Need(n, Vertical)
  }

  lemma {:induction false} FitsChildren(axis: Axis, ratio: real, first: Node, second: Node, b: Rect)
    requires RatiosOk(Split(axis, ratio, first, second))
    ensures Fits(Split(axis, ratio, first, second), b) <==>
      Fits(first, FirstRect(axis, ratio, b)) && Fits(second, SecondRect(axis, ratio, b))
  {
    ChildExtents(axis, ratio, b);
    NeedAlong(axis, ratio, first, second, b.Extent(axis));
    NeedAcross(axis, ratio, first, second, b.Extent(Other(axis)));
  }

  // Exactly the bounds that reach Need along both axes lay the tree out without
  // a negative size anywhere.
  lemma {:induction false} SizedExactly(n: Node, b: Rect)
    requires RatiosOk(n)
    ensures Sized(n, b) <==> Fits(n, b)
  {
    NeedIsNonNegative(n, Horizontal);
    NeedIsNonNegative(n, Vertical);
    match n
    case Leaf(_) =>
    case Split(axis, ratio, first, second) =>
      SizedExactly(first, FirstRect(axis, ratio, b));
      SizedExactly(second, SecondRect(axis, ratio, b));
      FitsChildren(axis, ratio, first, second, b);
  }

  function Depth(n: Node): nat {
    match n
    case Leaf(_) => 0
    case Split(_, _, first, second) =>
      var d, e := Depth(first), Depth(second);
      1 + if d < e then e else d
  }

  // 0, 1, 11, 111, ...: enough for any tree of that depth.
  function DepthNeed(depth: nat): real {
    if depth == 0 then 0.0 else GAP + 10.0 * DepthNeed(depth - 1)
  }

  lemma {:induction false} DepthNeedMonotone(d: nat, e: nat)
    requires d <= e
    ensures 0.0 <= DepthNeed(d) <= DepthNeed(e)
  {
    if d > 0 {
      DepthNeedMonotone(d - 1, e - 1);
    } else if e > 0 {
      DepthNeedMonotone(0, e - 1);
    }
  }

  lemma QuotientBound(need: real, ratio: real, bound: real)
    requires ratio >= 0.1 && 0.0 <= need <= bound
    ensures need / ratio <= 10.0 * bound
  {
    ShareFits(10.0 * bound, ratio, need);
    assert bound * (10.0 * ratio - 1.0) >= 0.0;
    assert 10.0 * bound * ratio == bound * (10.0 * ratio - 1.0) + bound;
  }

  lemma {:induction false} NeedWithinDepth(n: Node, along: Axis)
    requires RatiosOk(n)
    ensures Need(n, along) <= DepthNeed(Depth(n))
  {
    match n
    case Leaf(_) =>
    case Split(axis, ratio, first, second) =>
      var below := Depth(n) - 1;
      NeedWithinDepth(first, along);
      NeedWithinDepth(second, along);
      NeedIsNonNegative(first, along);
      NeedIsNonNegative(second, along);
      DepthNeedMonotone(Depth(first), below);
      DepthNeedMonotone(Depth(second), below);
      QuotientBound(Need(first, along), ratio, DepthNeed(below));
      QuotientBound(Need(second, along), 1.0 - ratio, DepthNeed(below));
  }

  // --------------------------------------------------------------- tiling

  predicate Inside(r: Rect, b: Rect) {
    && r.w >= 0.0 && r.h >= 0.0
    && b.x <= r.x && r.x + r.w <= b.x + b.w
    && b.y <= r.y && r.y + r.h <= b.y + b.h
  }

  // At least the divider's width apart along one of the axes.
  predicate Apart(r: Rect, q: Rect) {
    || r.x + r.w + GAP <= q.x || q.x + q.w + GAP <= r.x
    || r.y + r.h + GAP <= q.y || q.y + q.h + GAP <= r.y
  }

  lemma {:induction false} LeafInside(n: Node, b: Rect, id: PaneId)
    requires Distinct(Leaves(n)) && Sized(n, b) && id in Leaves(n)
    ensures id in Layout(n, b) && Inside(Layout(n, b)[id], b)
  {
    match n
    case Leaf(_) =>
    case Split(axis, ratio, first, second) =>
      LayoutOfSplit(axis, ratio, first, second, b, id);
      if id in Leaves(first) {
        LeafInside(first, FirstRect(axis, ratio, b), id);
      } else {
        LeafInside(second, SecondRect(axis, ratio, b), id);
      }
  }

  lemma {:induction false} LeavesApart(n: Node, b: Rect, p: PaneId, q: PaneId)
    requires Distinct(Leaves(n)) && Sized(n, b)
    requires p in Leaves(n) && q in Leaves(n) && p != q
    ensures p in Layout(n, b) && q in Layout(n, b) && Apart(Layout(n, b)[p], Layout(n, b)[q])
  {
    match n
    case Leaf(_) =>
    case Split(axis, ratio, first, second) =>
      LayoutOfSplit(axis, ratio, first, second, b, p);
      LayoutOfSplit(axis, ratio, first, second, b, q);
      var fr, sr := FirstRect(axis, ratio, b), SecondRect(axis, ratio, b);
      if p in Leaves(first) && q in Leaves(first) {
        LeavesApart(first, fr, p, q);
      } else if p in Leaves(second) && q in Leaves(second) {
        LeavesApart(second, sr, p, q);
      } else if p in Leaves(first) {
        LeafInside(first, fr, p);
        LeafInside(second, sr, q);
      } else {
        LeafInside(second, sr, p);
        LeafInside(first, fr, q);
      }
  }

  function AreaOf(ids: seq<PaneId>, rects: map<PaneId, Rect>): real
    requires forall id :: id in ids ==> id in rects
  {
    if ids == [] then 0.0 else rects[ids[0]].Area() + AreaOf(ids[1..], rects)
  }

  function DividerArea(n: Node, b: Rect): real {
    match n
    case Leaf(_) => 0.0
    case Split(axis, ratio, first, second) =>
      DividerRect(axis, ratio, b).Area()
      + DividerArea(first, FirstRect(axis, ratio, b))
      + DividerArea(second, SecondRect(axis, ratio, b))
  }

  lemma {:induction false} AreaOfSame(ids: seq<PaneId>, a: map<PaneId, Rect>, b: map<PaneId, Rect>)
    requires forall id :: id in ids ==> id in a && id in b && a[id] == b[id]
    ensures AreaOf(ids, a) == AreaOf(ids, b)
  {
    if ids != [] { AreaOfSame(ids[1..], a, b); }
  }

  lemma {:induction false} AreaOfConcat(s: seq<PaneId>, t: seq<PaneId>, rects: map<PaneId, Rect>)
    requires forall id :: id in s + t ==> id in rects
    ensures forall id :: id in s || id in t ==> id in rects
    ensures AreaOf(s + t, rects) == AreaOf(s, rects) + AreaOf(t, rects)
  {
    assert forall id :: id in s || id in t ==> id in s + t;
    if s == [] {
      assert s + t == t;
    } else {
      assert (s + t)[1..] == s[1..] + t;
      AreaOfConcat(s[1..], t, rects);
    }
  }

  lemma SplitArea(axis: Axis, ratio: real, b: Rect)
    ensures FirstRect(axis, ratio, b).Area() + DividerRect(axis, ratio, b).Area()
            + SecondRect(axis, ratio, b).Area() == b.Area()
  {
    match axis
    case Horizontal =>
      var w := (b.w - GAP) * ratio;
      assert w * b.h + GAP * b.h + (b.w - w - GAP) * b.h == b.w * b.h;
    case Vertical =>
      var h := (b.h - GAP) * ratio;
      assert b.w * h + b.w * GAP + b.w * (b.h - h - GAP) == b.w * b.h;
  }

  lemma {:induction false} AreaConserved(n: Node, b: Rect)
    requires Distinct(Leaves(n))
    ensures forall id :: id in Leaves(n) ==> id in Layout(n, b)
    ensures AreaOf(Leaves(n), Layout(n, b)) + DividerArea(n, b) == b.Area()
  {
    LayoutKeys(n, b);
    match n
    case Leaf(id) =>
      assert AreaOf([id], Layout(n, b)) == b.Area() + AreaOf([], Layout(n, b));
    case Split(axis, ratio, first, second) =>
      var fr, sr := FirstRect(axis, ratio, b), SecondRect(axis, ratio, b);
      DistinctHalves(Leaves(first), Leaves(second));
      AreaConserved(first, fr);
      AreaConserved(second, sr);
      AreaOfConcat(Leaves(first), Leaves(second), Layout(n, b));
      forall id | id in Leaves(first) + Leaves(second)
        ensures id in Leaves(first) ==> Layout(n, b)[id] == Layout(first, fr)[id]
        ensures id in Leaves(second) ==> Layout(n, b)[id] == Layout(second, sr)[id]
      {
        LayoutOfSplit(axis, ratio, first, second, b, id);
      }
      AreaOfSame(Leaves(first), Layout(n, b), Layout(first, fr));
      AreaOfSame(Leaves(second), Layout(n, b), Layout(second, sr));
      SplitArea(axis, ratio, b);
  }

  predicate OnDivider(n: Node, b: Rect, px: real, py: real) {
    match n
    case Leaf(_) => false
    case Split(axis, ratio, first, second) =>
      || DividerRect(axis, ratio, b).Has(px, py)
      || OnDivider(first, FirstRect(axis, ratio, b), px, py)
      || OnDivider(second, SecondRect(axis, ratio, b), px, py)
  }

  // Every point of the bounds is on a divider or in some pane.
  lemma {:induction false} PointCovered(n: Node, b: Rect, px: real, py: real)
    returns (owner: Option<PaneId>)
    requires Distinct(Leaves(n)) && b.Has(px, py)
    ensures owner.None? ==> OnDivider(n, b, px, py)
    ensures owner.Some? ==> owner.value in Layout(n, b) && Layout(n, b)[owner.value].Has(px, py)
  {
    match n
    case Leaf(id) => owner := Some(id);
    case Split(axis, ratio, first, second) =>
      DistinctHalves(Leaves(first), Leaves(second));
      var fr, sr := FirstRect(axis, ratio, b), SecondRect(axis, ratio, b);
      if fr.Has(px, py) {
        owner := PointCovered(first, fr, px, py);
        LayoutKeys(first, fr);
        if owner.Some? { LayoutOfSplit(axis, ratio, first, second, b, owner.value); }
      } else if sr.Has(px, py) {
        owner := PointCovered(second, sr, px, py);
        LayoutKeys(second, sr);
        if owner.Some? { LayoutOfSplit(axis, ratio, first, second, b, owner.value); }
      } else {
        owner := None;
      }
  }

  // The tiling theorem: one rectangle per leaf, all inside the bounds, pairwise
  // at least a gap apart, covering every point the dividers do not, and leaf
  // areas plus divider areas adding up to the whole.
  lemma Tiling(n: Node, b: Rect)
    requires Distinct(Leaves(n)) && RatiosOk(n)
    requires Fits(n, b)
    ensures Layout(n, b).Keys == set id | id in Leaves(n)
    ensures forall id :: id in Leaves(n) ==> Inside(Layout(n, b)[id], b)
    ensures forall p, q :: p in Leaves(n) && q in Leaves(n) && p != q
              ==> Apart(Layout(n, b)[p], Layout(n, b)[q])
    ensures AreaOf(Leaves(n), Layout(n, b)) + DividerArea(n, b) == b.Area()
    ensures forall px, py :: b.Has(px, py) ==>
              OnDivider(n, b, px, py)
              || exists id :: id in Layout(n, b) && Layout(n, b)[id].Has(px, py)
  {
    SizedExactly(n, b);
    LayoutKeys(n, b);
    AreaConserved(n, b);
    forall id | id in Leaves(n) ensures Inside(Layout(n, b)[id], b) { LeafInside(n, b, id); }
    forall p, q | p in Leaves(n) && q in Leaves(n) && p != q
      ensures Apart(Layout(n, b)[p], Layout(n, b)[q])
    {
      LeavesApart(n, b, p, q);
    }
    forall px, py | b.Has(px, py)
      ensures OnDivider(n, b, px, py)
              || exists id :: id in Layout(n, b) && Layout(n, b)[id].Has(px, py)
    {
      var owner := PointCovered(n, b, px, py);
    }
  }

  // Bounds stated from the depth alone are enough for the tiling theorem.
  lemma DepthBoundsSuffice(n: Node, b: Rect)
    requires RatiosOk(n)
    requires b.w >= DepthNeed(Depth(n)) && b.h >= DepthNeed(Depth(n))
    ensures Sized(n, b) && Fits(n, b)
  {
    NeedWithinDepth(n, Horizontal);
    NeedWithinDepth(n, Vertical);
    SizedExactly(n, b);
  }
}
