/** client/pane/resize.go: what a segment's minimum is the minimum of, and what the walls it
    sets leave room for. */
module PaneMinimum {
  import opened Options
  import opened PaneLayout
  import opened PaneResize

  /** How far a rectangle reaches along the axis. */
  function Extent(r: Rect, dir: Direction): real
  {
    if dir == Horizontal then r.h else r.w
  }

  /** Every pane reaches at least this far along the axis. */
  ghost predicate Serves(n: TreeNode, r: Rect, dir: Direction, minPx: real, rs: Ratios)
  {
    forall id :: id in Rects(n, r, rs) ==> Extent(Rects(n, r, rs)[id], dir) >= minPx
  }

  /** The two halves of a split share its extent along its own axis, and each has all of it
      along the other. */
  lemma HalvesShare(r: Rect, d: Direction, ratio: real, dir: Direction)
    ensures var (ra, rb) := SplitRect(r, d, ratio);
            if d == dir then Extent(ra, dir) == Share(Extent(r, dir), Clamp01(ratio)) && Extent(ra, dir) + Extent(rb, dir) == Extent(r, dir)
            else Extent(ra, dir) == Extent(rb, dir) == Extent(r, dir)
  {
    hide Share, Clamp01;
  }

  lemma HalvesServe(s: Split, a: TreeNode, b: TreeNode, r: Rect, dir: Direction, minPx: real, rs: Ratios)
    requires Ids(a) !! Ids(b)
    ensures var halves := SplitRect(r, s.dir, RatioIn(rs, s));
            Serves(Inner(s, a, b), r, dir, minPx, rs) <==>
            Serves(a, halves.0, dir, minPx, rs) && Serves(b, halves.1, dir, minPx, rs)
  {
    hide SplitRect, Extent;
    var halves := SplitRect(r, s.dir, RatioIn(rs, s));
    var all, first, second := Rects(Inner(s, a, b), r, rs), Rects(a, halves.0, rs), Rects(b, halves.1, rs);
    assert forall id :: id in first ==> id in all && all[id] == first[id];
    assert forall id :: id in second ==> id in all && all[id] == second[id];
  }

  /** No layout gives every pane its minimum in less than the segment's. */
  lemma {:induction false} MinSizeNeeded(n: TreeNode, r: Rect, dir: Direction, minPx: real, rs: Ratios)
    requires Distinct(n) && Serves(n, r, dir, minPx, rs)
    ensures Extent(r, dir) >= MinSize(n, dir, minPx)
  {
    hide SplitRect, Extent, Serves, Share;
    match n
    case Leaf(id) => OneServed(id, r, dir, minPx, rs);
    case Inner(s, a, b) =>
      var halves := SplitRect(r, s.dir, RatioIn(rs, s));
      HalvesServe(s, a, b, r, dir, minPx, rs);
      HalvesShare(r, s.dir, RatioIn(rs, s), dir);
      MinSizeNeeded(a, halves.0, dir, minPx, rs);
      MinSizeNeeded(b, halves.1, dir, minPx, rs);
  }

  lemma OneServed(id: string, r: Rect, dir: Direction, minPx: real, rs: Ratios)
    ensures Serves(Leaf(id), r, dir, minPx, rs) <==> Extent(r, dir) >= minPx
  {
    assert Rects(Leaf(id), r, rs)[id] == r;
  }

  /** Ratios that share an extent out by what each side needs. */
  function ByNeed(n: TreeNode, dir: Direction, minPx: real): (rs: Ratios)
    requires minPx > 0.0
    ensures rs.Keys == Splits(n)
  {
    match n
    case Leaf(_) => map[]
    case Inner(s, a, b) =>
      NeedsRoom(a, dir, minPx);
      NeedsRoom(b, dir, minPx);
      var ma, mb := MinSize(a, dir, minPx), MinSize(b, dir, minPx);
      (ByNeed(a, dir, minPx) + ByNeed(b, dir, minPx))[s := if s.dir == dir then ma / (ma + mb) else 0.5]
  }

  lemma {:induction false} NeedsRoom(n: TreeNode, dir: Direction, minPx: real)
    requires minPx > 0.0
    ensures MinSize(n, dir, minPx) >= minPx
  {
    if n.Inner? {
      NeedsRoom(n.a, dir, minPx);
      NeedsRoom(n.b, dir, minPx);
    }
  }

  lemma {:induction false} ByNeedIsUnit(n: TreeNode, dir: Direction, minPx: real)
    requires minPx > 0.0
    ensures UnitRatios(Splits(n), ByNeed(n, dir, minPx))
  {
    if n.Inner? {
      NeedsRoom(n.a, dir, minPx);
      NeedsRoom(n.b, dir, minPx);
      ByNeedIsUnit(n.a, dir, minPx);
      ByNeedIsUnit(n.b, dir, minPx);
      ShareByNeed(MinSize(n.a, dir, minPx), MinSize(n.b, dir, minPx), MinSize(n.a, dir, minPx) + MinSize(n.b, dir, minPx));
    }
  }

  /** An extent with room for both needs, shared out by need, leaves each its own. */
  lemma ShareByNeed(a: real, b: real, w: real)
    requires a > 0.0 && b > 0.0 && w >= a + b
    ensures 0.0 < a / (a + b) < 1.0
    ensures Share(w, a / (a + b)) >= a && w - Share(w, a / (a + b)) >= b
  {
    var q, c := a / (a + b), b / (a + b);
    assert (a + b) * q == a && (a + b) * c == b;
    assert q > 0.0 && c > 0.0 && q + c == 1.0 by {
      QuotientSum(a, b);
    }
    TimesMore(a + b, w, q);
    TimesMore(a + b, w, c);
    assert w * c == w * (1.0 - q) == w - w * q;
  }

  lemma QuotientSum(a: real, b: real)
    requires a > 0.0 && b > 0.0
    ensures a / (a + b) > 0.0 && b / (a + b) > 0.0 && a / (a + b) + b / (a + b) == 1.0
  {
    assert a / (a + b) + b / (a + b) == (a + b) / (a + b);
  }

  lemma TimesMore(x: real, y: real, k: real)
    requires x <= y && k > 0.0
    ensures x * k <= y * k
  {
    assert (y - x) * k >= 0.0;
  }

  /** In the segment's minimum, or more, some unit ratios give every pane its own. */
  lemma {:induction false} MinSizeServes(n: TreeNode, r: Rect, dir: Direction, minPx: real)
    requires Distinct(n) && minPx > 0.0 && Extent(r, dir) >= MinSize(n, dir, minPx)
    ensures Serves(n, r, dir, minPx, ByNeed(n, dir, minPx))
  {
    hide SplitRect, Extent, Serves, Share, RatioIn;
    var rs := ByNeed(n, dir, minPx);
    match n
    case Leaf(id) => OneServed(id, r, dir, minPx, rs);
    case Inner(s, a, b) =>
      var halves := SplitRect(r, s.dir, RatioIn(rs, s));
      var ma, mb := MinSize(a, dir, minPx), MinSize(b, dir, minPx);
      HalvesShare(r, s.dir, RatioIn(rs, s), dir);
      NeedsRoom(a, dir, minPx);
      NeedsRoom(b, dir, minPx);
      if s.dir == dir {
        ShareByNeed(ma, mb, Extent(r, dir));
        OwnRatio(rs, s, ma / (ma + mb));
      }
      MinSizeServes(a, halves.0, dir, minPx);
      MinSizeServes(b, halves.1, dir, minPx);
      ByNeedOf(s, a, b, dir, minPx);
      RectsSame(a, halves.0, ByNeed(a, dir, minPx), rs);
      RectsSame(b, halves.1, ByNeed(b, dir, minPx), rs);
      SameServes(a, halves.0, dir, minPx, ByNeed(a, dir, minPx), rs);
      SameServes(b, halves.1, dir, minPx, ByNeed(b, dir, minPx), rs);
      HalvesServe(s, a, b, r, dir, minPx, rs);
  }

  lemma OwnRatio(rs: Ratios, s: Split, q: real)
    requires s in rs && rs[s] == q && 0.0 <= q <= 1.0
    ensures RatioIn(rs, s) == Clamp01(RatioIn(rs, s)) == q
  {
  }

  lemma SameServes(n: TreeNode, r: Rect, dir: Direction, minPx: real, rs: Ratios, rs': Ratios)
    requires Rects(n, r, rs) == Rects(n, r, rs') && Serves(n, r, dir, minPx, rs)
    ensures Serves(n, r, dir, minPx, rs')
  {
  }

  lemma ByNeedOf(s: Split, a: TreeNode, b: TreeNode, dir: Direction, minPx: real)
    requires Distinct(Inner(s, a, b)) && minPx > 0.0
    ensures var rs := ByNeed(Inner(s, a, b), dir, minPx);
            && (forall x :: x in Splits(a) ==> RatioIn(rs, x) == RatioIn(ByNeed(a, dir, minPx), x))
            && (forall x :: x in Splits(b) ==> RatioIn(rs, x) == RatioIn(ByNeed(b, dir, minPx), x))
  {
  }

  /** A segment's minimum is exactly the least extent in which some unit ratios give every pane
      of it the minimum along the axis. */
  lemma MinSizeIsLeast(n: TreeNode, r: Rect, dir: Direction, minPx: real)
    requires Distinct(n) && minPx > 0.0
    ensures Extent(r, dir) >= MinSize(n, dir, minPx) <==> exists rs: Ratios :: UnitRatios(Splits(n), rs) && Serves(n, r, dir, minPx, rs)
  {
    hide Serves, MinSize, Extent, UnitRatios;
    if Extent(r, dir) >= MinSize(n, dir, minPx) {
      MinSizeServes(n, r, dir, minPx);
      ByNeedIsUnit(n, dir, minPx);
    }
    forall rs: Ratios | Serves(n, r, dir, minPx, rs) ensures Extent(r, dir) >= MinSize(n, dir, minPx) {
      MinSizeNeeded(n, r, dir, minPx, rs);
    }
  }

  // ---------------------------------------------------------------- the walls

  /** A divider is held to the nearest place between the walls. */
  lemma HeldBetween(x: real, lo: real, hi: real)
    requires lo <= hi
    ensures var y := ClampTo(x, lo, hi);
            && lo <= y <= hi && (lo <= x <= hi ==> y == x) && (x < lo ==> y == lo) && (x > hi ==> y == hi)
  {
  }

  lemma {:induction false} SumTight(a: seq<real>, b: seq<real>)
    requires |a| == |b| && forall i :: 0 <= i < |a| ==> a[i] >= b[i]
    ensures Sum(a) >= Sum(b)
    ensures Sum(a) == Sum(b) ==> a == b
  {
    if a != [] {
      SumTight(a[1..], b[1..]);
      if Sum(a) == Sum(b) {
        assert a == [a[0]] + a[1..] && b == [b[0]] + b[1..];
      }
    }
  }

  /** A divider at a wall has every segment on that side at its minimum, and past it some segment
      there is under its own. */
  lemma WallsAreTight(c: Corridor, dir: Direction, minPx: real, sizes: seq<real>)
    requires c.bIdx + 1 < |c.segs| == |sizes| && Sum(sizes) == c.total
    ensures var served := forall i :: 0 <= i < |sizes| ==> sizes[i] >= MinSize(c.segs[i], dir, minPx);
            && (served ==> WallLo(c, dir, minPx) <= BoundaryPos(c, sizes) <= WallHi(c, dir, minPx))
            && (served && BoundaryPos(c, sizes) == WallLo(c, dir, minPx) ==>
                  forall i :: 0 <= i <= c.bIdx ==> sizes[i] == MinSize(c.segs[i], dir, minPx))
            && (served && BoundaryPos(c, sizes) == WallHi(c, dir, minPx) ==>
                  forall i :: c.bIdx < i < |sizes| ==> sizes[i] == MinSize(c.segs[i], dir, minPx))
  {
    hide MinSize, Sum;
    var b, mins := c.bIdx, Mins(c.segs, dir, minPx);
    SumSplit(sizes, b + 1);
    if forall i :: 0 <= i < |sizes| ==> sizes[i] >= MinSize(c.segs[i], dir, minPx) {
      SumTight(sizes[..b + 1], mins[..b + 1]);
      SumTight(sizes[b + 1..], mins[b + 1..]);
      if BoundaryPos(c, sizes) == WallLo(c, dir, minPx) {
        forall i | 0 <= i <= b ensures sizes[i] == MinSize(c.segs[i], dir, minPx) {
          assert sizes[..b + 1][i] == mins[..b + 1][i];
        }
      }
      if BoundaryPos(c, sizes) == WallHi(c, dir, minPx) {
        forall i | b < i < |sizes| ensures sizes[i] == MinSize(c.segs[i], dir, minPx) {
          assert sizes[b + 1..][i - b - 1] == mins[b + 1..][i - b - 1];
        }
      }
    }
  }

  /** Between a corridor's walls, and there only, some segment sizes of its extent put the divider
      and serve every segment. */
  lemma WallsAreExact(c: Corridor, dir: Direction, minPx: real, x: real)
    requires c.bIdx + 1 < |c.segs|
    ensures WallLo(c, dir, minPx) <= x <= WallHi(c, dir, minPx) <==>
            exists sizes :: |sizes| == |c.segs| && Sum(sizes) == c.total && BoundaryPos(c, sizes) == x &&
              forall i :: 0 <= i < |sizes| ==> sizes[i] >= MinSize(c.segs[i], dir, minPx)
  {
    hide MinSize, Sum;
    var b, mins := c.bIdx, Mins(c.segs, dir, minPx);
    if WallLo(c, dir, minPx) <= x <= WallHi(c, dir, minPx) {
      var lo, hi := mins[..b + 1], mins[b + 1..];
      var left, right := x - c.start - Sum(lo), c.start + c.total - x - Sum(hi);
      var l, r := lo[b := lo[b] + left], hi[0 := hi[0] + right];
      SumUpdate(lo, b, lo[b] + left);
      SumUpdate(hi, 0, hi[0] + right);
      SumConcat(l, r);
      var sizes := l + r;
      assert sizes[..b + 1] == l;
      assert BoundaryPos(c, sizes) == x;
    }
    forall sizes | |sizes| == |c.segs| && Sum(sizes) == c.total && BoundaryPos(c, sizes) == x &&
      forall i :: 0 <= i < |sizes| ==> sizes[i] >= MinSize(c.segs[i], dir, minPx)
      ensures WallLo(c, dir, minPx) <= x <= WallHi(c, dir, minPx)
    {
      WallsAreTight(c, dir, minPx, sizes);
    }
  }
}
