/** client/pane/resize.go: cascading divider drags along the run of same-axis splits. */
module PaneResize {
  import opened Options
  import opened PaneLayout

  // ---------------------------------------------------------------- pure reading

  function Sum(s: seq<real>): real
  {
    if s == [] then 0.0 else s[0] + Sum(s[1..])
  }

  /** The subtrees a same-axis run of splits lines up, in order. */
  function Flatten(n: TreeNode, dir: Direction): (segs: seq<TreeNode>)
    ensures |segs| >= 1
  {
    if n.Leaf? || n.split.dir != dir then [n] else Flatten(n.a, dir) + Flatten(n.b, dir)
  }

  function SegmentSizes(n: TreeNode, dir: Direction, total: real, rs: Ratios): (sizes: seq<real>)
    ensures |sizes| == |Flatten(n, dir)|
    decreases n
  {
    if n.Leaf? || n.split.dir != dir then [total]
    else SegmentSizes(n.a, dir, Share(total, RatioIn(rs, n.split)), rs) +
         SegmentSizes(n.b, dir, Share(total, 1.0 - RatioIn(rs, n.split)), rs)
  }

  /** The smallest extent a subtree can be squeezed to along dir. */
  function MinSize(n: TreeNode, dir: Direction, minPx: real): real
  {
    if n.Leaf? then minPx
    else
      var a, b := MinSize(n.a, dir, minPx), MinSize(n.b, dir, minPx);
      if n.split.dir == dir then a + b else if a > b then a else b
  }

  function Mins(segs: seq<TreeNode>, dir: Direction, minPx: real): (mins: seq<real>)
    ensures |mins| == |segs| && forall i :: 0 <= i < |segs| ==> mins[i] == MinSize(segs[i], dir, minPx)
  {
    seq(|segs|, i requires 0 <= i < |segs| => MinSize(segs[i], dir, minPx))
  }

  /** Start and length along the axis. */
  function AxisSpan(r: Rect, dir: Direction): (real, real)
  {
    if dir == Horizontal then (r.y, r.h) else (r.x, r.w)
  }

  /** The splits whose ratios lay the run out. */
  function Spine(n: TreeNode, dir: Direction): (spine: set<Split>)
    ensures spine <= Splits(n)
  {
    if n.Leaf? || n.split.dir != dir then {} else {n.split} + Spine(n.a, dir) + Spine(n.b, dir)
  }

  /** The topmost split reached from target upward by splits of its own axis only; open
      says the run may still go on above it. */
  function TopOf(n: TreeNode, target: Split): Option<(TreeNode, bool)>
  {
    if n.Leaf? then None
    else if n.split == target then Some((n, true))
    else
      var inA := TopOf(n.a, target);
      var below := if inA.Some? then inA else TopOf(n.b, target);
      if below.None? then None
      else if below.value.1 && n.split.dir == target.dir then Some((n, true))
      else Some((below.value.0, false))
  }

  /** target's laid-out container rectangle. */
  function LocateSplit(n: TreeNode, r: Rect, target: Split, rs: Ratios): Option<Rect>
  {
    if n.Leaf? then None
    else if n.split == target then Some(r)
    else
      var halves := SplitRect(r, n.split.dir, RatioIn(rs, n.split));
      var inA := LocateSplit(n.a, halves.0, target, rs);
      if inA.Some? then inA else LocateSplit(n.b, halves.1, target, rs)
  }

  /** The index, among a run's segments, of the last one before target's divider. */
  function BoundaryAt(top: TreeNode, target: Split): nat
  {
    if top.Leaf? then 0
    else if top.split == target then |Flatten(top.a, target.dir)| - 1
    else if target in Splits(top.a) then BoundaryAt(top.a, target)
    else |Flatten(top.a, target.dir)| + BoundaryAt(top.b, target)
  }

  /** The corridor around a divider, read once. */
  datatype Corridor = Corridor(top: TreeNode, rect: Rect, segs: seq<TreeNode>,
    start: real, total: real, sizes: seq<real>, bIdx: nat)

  ghost predicate IsCorridor(c: Corridor, root: TreeNode, rootRect: Rect, target: Split, rs: Ratios)
  {
    && TopOf(root, target).Some? && c.top == TopOf(root, target).value.0 && c.top.Inner?
    && LocateSplit(root, rootRect, c.top.split, rs) == Some(c.rect)
    && c.segs == Flatten(c.top, target.dir)
    && (c.start, c.total) == AxisSpan(c.rect, target.dir)
    && c.sizes == SegmentSizes(c.top, target.dir, c.total, rs)
    && c.bIdx == BoundaryAt(c.top, target) && c.bIdx + 1 < |c.segs|
  }

  /** Where the divider may go: everything on a side at its minimum. */
  function WallLo(c: Corridor, dir: Direction, minPx: real): real
    requires c.bIdx + 1 < |c.segs|
  {
    c.start + Sum(Mins(c.segs, dir, minPx)[..c.bIdx + 1])
  }

  function WallHi(c: Corridor, dir: Direction, minPx: real): real
    requires c.bIdx + 1 < |c.segs|
  {
    c.start + c.total - Sum(Mins(c.segs, dir, minPx)[c.bIdx + 1..])
  }

  function ClampTo(x: real, lo: real, hi: real): real
  {
    var y := if x < lo then lo else x;
    if y > hi then hi else y
  }

  // ---------------------------------------------------------------- sums

  lemma {:induction false} SumConcat(a: seq<real>, b: seq<real>)
    ensures Sum(a + b) == Sum(a) + Sum(b)
  {
    if a == [] {
      assert a + b == b;
    } else {
      assert (a + b)[1..] == a[1..] + b;
      SumConcat(a[1..], b);
    }
  }

  lemma NoSum()
    ensures Sum([]) == 0.0
  {
  }

  lemma SumOne(x: real)
    ensures Sum([x]) == x
  {
    assert [x][1..] == [];
  }

  lemma SumNext(s: seq<real>, lo: nat, i: nat)
    requires lo <= i < |s|
    ensures Sum(s[lo..i + 1]) == Sum(s[lo..i]) + s[i]
  {
    assert s[lo..i + 1] == s[lo..i] + [s[i]];
    SumConcat(s[lo..i], [s[i]]);
    SumOne(s[i]);
  }

  lemma SumSplit(s: seq<real>, k: nat)
    requires k <= |s|
    ensures Sum(s) == Sum(s[..k]) + Sum(s[k..])
  {
    assert s == s[..k] + s[k..];
    SumConcat(s[..k], s[k..]);
  }

  lemma {:induction false} SumUpdate(s: seq<real>, i: nat, v: real)
    requires i < |s|
    ensures Sum(s[i := v]) == Sum(s) - s[i] + v
  {
    var t := s[i := v];
    if i == 0 {
      assert t[1..] == s[1..];
    } else {
      assert t[1..] == s[1..][i - 1 := v];
      SumUpdate(s[1..], i - 1, v);
    }
  }

  lemma {:induction false} SumBelow(a: seq<real>, b: seq<real>)
    requires |a| == |b| && forall i :: 0 <= i < |a| ==> a[i] <= b[i]
    ensures Sum(a) <= Sum(b)
  {
    if a != [] {
      assert a[0] <= b[0];
      SumBelow(a[1..], b[1..]);
    }
  }

  lemma {:induction false} SumNonNegative(a: seq<real>)
    requires forall i :: 0 <= i < |a| ==> a[i] >= 0.0
    ensures Sum(a) >= 0.0
  {
    if a != [] {
      SumNonNegative(a[1..]);
    }
  }

  // ---------------------------------------------------------------- finding the corridor

  /** Whether target is under n, and its ancestors from the nearest up. */
  method PathTo(n: TreeNode, target: Split) returns (path: seq<TreeNode>, found: bool)
    ensures found <==> target in Splits(n)
    ensures found ==> ClimbsTo(n, target, path)
    decreases n
  {
    if n.Leaf? {
      return [], false;
    }
    if n.split == target {
      return [n], true;
    }
    path, found := PathTo(n.a, target);
    if !found {
      path, found := PathTo(n.b, target);
    }
    if found {
      return path + [n], true;
    }
  }

  /** path starts at target's own node and climbs parent by parent to n. */
  ghost predicate ClimbsTo(n: TreeNode, target: Split, path: seq<TreeNode>)
    decreases |path|
  {
    && path != [] && path[|path| - 1] == n && n.Inner?
    && if |path| == 1 then n.split == target
       else n.split != target &&
            if target in Splits(n.a) then ClimbsTo(n.a, target, path[..|path| - 1])
            else ClimbsTo(n.b, target, path[..|path| - 1])
  }

  /** How far up the run goes, folded over the path. */
  function TopOnPath(path: seq<TreeNode>, dir: Direction, k: nat): (TreeNode, bool)
    requires k < |path| && forall i :: 0 <= i < |path| ==> path[i].Inner?
  {
    if k == 0 then (path[0], true)
    else
      var below := TopOnPath(path, dir, k - 1);
      if below.1 && path[k].split.dir == dir then (path[k], true) else (below.0, false)
  }

  lemma {:induction false} TopIsOnPath(n: TreeNode, target: Split, path: seq<TreeNode>)
    requires ClimbsTo(n, target, path) && Distinct(n)
    ensures forall i :: 0 <= i < |path| ==> path[i].Inner?
    ensures TopOf(n, target) == Some(TopOnPath(path, target.dir, |path| - 1))
    ensures target in Splits(n)
    decreases |path|
  {
    if |path| > 1 {
      var rest := path[..|path| - 1];
      if target in Splits(n.a) {
        TopIsOnPath(n.a, target, rest);
      } else {
        TopIsOnPath(n.b, target, rest);
        TopOfNone(n.a, target);
      }
      PrefixTop(path, rest, target.dir, |rest| - 1);
    }
  }

  lemma {:induction false} PrefixTop(path: seq<TreeNode>, rest: seq<TreeNode>, dir: Direction, k: nat)
    requires k < |rest| <= |path| && rest == path[..|rest|]
    requires forall i :: 0 <= i < |rest| ==> rest[i].Inner?
    requires forall i :: 0 <= i < |path| ==> path[i].Inner?
    ensures TopOnPath(path, dir, k) == TopOnPath(rest, dir, k)
  {
    if k > 0 {
      PrefixTop(path, rest, dir, k - 1);
    }
  }

  lemma {:induction false} TopOfNone(n: TreeNode, target: Split)
    ensures TopOf(n, target).None? <==> target !in Splits(n)
  {
    if n.Inner? {
      TopOfNone(n.a, target);
      TopOfNone(n.b, target);
    }
  }

  /** The climb: keep going while the parent splits the same axis. */
  method CorridorTop(root: TreeNode, target: Split) returns (top: TreeNode, ok: bool)
    requires Distinct(root)
    ensures ok <==> target in Splits(root)
    ensures ok ==> TopOf(root, target).Some? && top == TopOf(root, target).value.0
  {
    var path, found := PathTo(root, target);
    if !found {
      return root, false;
    }
    TopIsOnPath(root, target, path);
    top := path[0];
    var i := 1;
    ghost var open := true;
    while i < |path|
      invariant 1 <= i <= |path|
      invariant (top, open) == TopOnPath(path, target.dir, i - 1) && open
    {
      if path[i].split.dir != target.dir {
        TopStays(path, target.dir, i, top);
        break;
      }
      top := path[i];
      i := i + 1;
    }
    ok := true;
  }

  lemma {:induction false} TopStays(path: seq<TreeNode>, dir: Direction, i: nat, top: TreeNode)
    requires 0 < i < |path| && forall k :: 0 <= k < |path| ==> path[k].Inner?
    requires TopOnPath(path, dir, i - 1).0 == top && path[i].split.dir != dir
    ensures TopOnPath(path, dir, |path| - 1) == (top, false)
  {
    var k := i;
    while k < |path| - 1
      invariant i <= k < |path| && TopOnPath(path, dir, k) == (top, false)
    {
      k := k + 1;
    }
  }

  /** The run's top splits target's axis, target lies on its spine, and its parent, if it
      has one, splits the other axis. */
  lemma {:induction false} TopIsWholeRun(n: TreeNode, target: Split)
    requires Distinct(n) && TopOf(n, target).Some?
    ensures var (top, open) := TopOf(n, target).value;
            && top.Inner? && top.split.dir == target.dir && target in Spine(top, target.dir)
            && Splits(top) <= Splits(n) && Ids(top) <= Ids(n) && Distinct(top)
            && (open <==> top == n)
            && (!open ==> ParentDir(n, top).Some? && ParentDir(n, top).value != target.dir)
  {
    if n.split == target {
    } else {
      TopOfNone(n.a, target);
      TopOfNone(n.b, target);
      var child := if TopOf(n.a, target).Some? then n.a else n.b;
      TopIsWholeRun(child, target);
      var top := TopOf(child, target).value.0;
      if top != child {
        var id := SomePane(top);
        OnlyChild(n, child, top);
      }
    }
  }

  /** The direction a subtree's parent splits. */
  function ParentDir(n: TreeNode, sub: TreeNode): Option<Direction>
  {
    if n.Leaf? then None
    else if n.a == sub || n.b == sub then Some(n.split.dir)
    else if Ids(sub) <= Ids(n.a) then ParentDir(n.a, sub) else ParentDir(n.b, sub)
  }

  lemma {:induction false} SomePane(n: TreeNode) returns (id: string)
    ensures id in Ids(n)
  {
    if n.Leaf? {
      id := n.pane;
    } else {
      id := SomePane(n.a);
    }
  }

  lemma {:induction false} OnlyChild(n: TreeNode, child: TreeNode, sub: TreeNode)
    requires Distinct(n) && n.Inner? && (child == n.a || child == n.b) && Ids(sub) <= Ids(child) && sub != child
    ensures ParentDir(n, sub) == ParentDir(child, sub)
  {
    var id := SomePane(sub);
    var other := SomePane(if child == n.a then n.b else n.a);
  }

  /** A subtree's panes lie in exactly one segment of its run, so no two segments are one. */
  lemma {:induction false} SegmentsDistinct(n: TreeNode, dir: Direction, i: nat, j: nat)
    requires Distinct(n) && i < j < |Flatten(n, dir)|
    ensures Flatten(n, dir)[i] != Flatten(n, dir)[j]
  {
    var k := |Flatten(n.a, dir)|;
    if j < k {
      SegmentsDistinct(n.a, dir, i, j);
    } else if i >= k {
      SegmentsDistinct(n.b, dir, i - k, j - k);
    } else {
      var seg := Flatten(n.a, dir)[i];
      SegmentIn(n.a, dir, i);
      SegmentIn(n.b, dir, j - k);
      var id := SomePane(seg);
    }
  }

  lemma {:induction false} SegmentIn(n: TreeNode, dir: Direction, i: nat)
    requires i < |Flatten(n, dir)|
    ensures Ids(Flatten(n, dir)[i]) <= Ids(n)
    ensures Splits(Flatten(n, dir)[i]) <= Splits(n)
  {
    if n.Inner? && n.split.dir == dir {
      var k := |Flatten(n.a, dir)|;
      if i < k {
        SegmentIn(n.a, dir, i);
      } else {
        SegmentIn(n.b, dir, i - k);
      }
    }
  }

  /** target's node in the run. */
  function NodeOf(n: TreeNode, target: Split): TreeNode
  {
    if n.Leaf? || n.split == target then n
    else if target in Splits(n.a) then NodeOf(n.a, target) else NodeOf(n.b, target)
  }

  /** The last segment before a divider on the spine stands at BoundaryAt. */
  lemma {:induction false} BoundarySegment(top: TreeNode, target: Split)
    requires Distinct(top) && target in Spine(top, target.dir)
    ensures var node, b := NodeOf(top, target), BoundaryAt(top, target);
            && node.Inner? && node.split == target
            && b + 1 < |Flatten(top, target.dir)|
            && Flatten(top, target.dir)[b] == Flatten(node.a, target.dir)[|Flatten(node.a, target.dir)| - 1]
  {
    var dir := target.dir;
    if top.split == target {
      return;
    }
    var first := Flatten(top.a, dir);
    if target in Spine(top.a, dir) {
      BoundarySegment(top.a, target);
      assert NodeOf(top, target) == NodeOf(top.a, target);
      assert Flatten(top, dir)[BoundaryAt(top.a, target)] == first[BoundaryAt(top.a, target)];
    } else {
      BoundarySegment(top.b, target);
      assert NodeOf(top, target) == NodeOf(top.b, target);
      var second := Flatten(top.b, dir);
      assert Flatten(top, dir)[|first| + BoundaryAt(top.b, target)] == second[BoundaryAt(top.b, target)];
    }
  }

  method BoundaryIndex(segs: seq<TreeNode>, node: TreeNode, dir: Direction) returns (b: int)
    requires node.Inner?
    ensures var last := Flatten(node.a, dir)[|Flatten(node.a, dir)| - 1];
            if b < 0 then last !in segs else b < |segs| && segs[b] == last && last !in segs[..b]
  {
    var aSegs := Flatten(node.a, dir);
    var last := aSegs[|aSegs| - 1];
    b := 0;
    while b < |segs|
      invariant 0 <= b <= |segs| && last !in segs[..b]
    {
      if segs[b] == last {
        return;
      }
      b := b + 1;
    }
    b := -1;
  }

  /** The corridor opens around every divider of the tree. */
  method OpenCorridor(root: TreeNode, rootRect: Rect, target: Split, rs: Ratios) returns (c: Corridor, ok: bool)
    requires Distinct(root)
    ensures ok <==> target in Splits(root)
    ensures ok ==> IsCorridor(c, root, rootRect, target, rs)
  {
    c := Corridor(root, rootRect, [], 0.0, 0.0, [], 0);
    var top, found := CorridorTop(root, target);
    if !found {
      return c, false;
    }
    TopIsWholeRun(root, target);
    LocateFinds(root, rootRect, top.split, rs);
    var rect := LocateSplit(root, rootRect, top.split, rs);
    if rect.None? {
      return c, false;
    }
    var segs := Flatten(top, target.dir);
    var span := AxisSpan(rect.value, target.dir);
    BoundarySegment(top, target);
    var b := BoundaryIndex(segs, NodeOf(top, target), target.dir);
    BoundaryIsAt(top, target, b);
    return Corridor(top, rect.value, segs, span.0, span.1, SegmentSizes(top, target.dir, span.1, rs), b), true;
  }

  lemma BoundaryIsAt(top: TreeNode, target: Split, b: int)
    requires Distinct(top) && target in Spine(top, target.dir)
    requires var segs, node := Flatten(top, target.dir), NodeOf(top, target);
             node.Inner? &&
             var last := Flatten(node.a, target.dir)[|Flatten(node.a, target.dir)| - 1];
             if b < 0 then last !in segs else b < |segs| && segs[b] == last
    ensures b == BoundaryAt(top, target)
  {
    BoundarySegment(top, target);
    var segs, at := Flatten(top, target.dir), BoundaryAt(top, target);
    assert segs[at] in segs;
    if b < at {
      if b >= 0 { SegmentsDistinct(top, target.dir, b, at); }
    } else if at < b {
      SegmentsDistinct(top, target.dir, at, b);
    }
  }

  lemma {:induction false} LocateFinds(n: TreeNode, r: Rect, target: Split, rs: Ratios)
    ensures LocateSplit(n, r, target, rs).Some? <==> target in Splits(n)
  {
    hide SplitRect;
    if n.Inner? {
      var halves := SplitRect(r, n.split.dir, RatioIn(rs, n.split));
      LocateFinds(n.a, halves.0, target, rs);
      LocateFinds(n.b, halves.1, target, rs);
    }
  }

  /** The walls, summed segment by segment outward from each end. */
  method Walls(c: Corridor, dir: Direction, minPx: real) returns (lo: real, hi: real)
    requires c.bIdx + 1 < |c.segs|
    ensures lo == WallLo(c, dir, minPx) && hi == WallHi(c, dir, minPx)
  {
    hide Sum, MinSize;
    ghost var mins := Mins(c.segs, dir, minPx);
    NoSum();
    lo := c.start;
    var i := 0;
    assert mins[..i] == [];
    while i < c.bIdx + 1
      invariant 0 <= i <= c.bIdx + 1
      invariant lo == c.start + Sum(mins[..i])
    {
      lo := lo + MinSize(c.segs[i], dir, minPx);
      assert mins[0..i] == mins[..i] && mins[0..i + 1] == mins[..i + 1];
      SumNext(mins, 0, i);
      i := i + 1;
    }
    hi := c.start + c.total;
    assert mins[i..i] == [];
    while i < |c.segs|
      invariant c.bIdx + 1 <= i <= |c.segs|
      invariant hi == c.start + c.total - Sum(mins[c.bIdx + 1..i])
    {
      hi := hi - MinSize(c.segs[i], dir, minPx);
      SumNext(mins, c.bIdx + 1, i);
      i := i + 1;
    }
    assert mins[c.bIdx + 1..i] == mins[c.bIdx + 1..];
  }

  // ---------------------------------------------------------------- taking

  /** The k-th segment outward from the boundary. */
  function Near(n: nat, k: int, fromEnd: bool): int
  {
    if fromEnd then n - 1 - k else k
  }

  /** What taking need outward from the boundary leaves: no segment grows, none is taken
      from below its minimum, one is taken from only once all nearer ones are down to
      theirs, and all of need is taken unless everything is down to its minimum. */
  ghost predicate Taken(was: seq<real>, now: seq<real>, mins: seq<real>, need: real, fromEnd: bool)
    requires |was| == |now| == |mins|
  {
    && (forall i :: 0 <= i < |was| ==> now[i] == was[i] || mins[i] <= now[i] < was[i])
    && (forall k, l :: 0 <= k < l < |was| && now[Near(|was|, l, fromEnd)] < was[Near(|was|, l, fromEnd)] ==>
          now[Near(|was|, k, fromEnd)] <= mins[Near(|was|, k, fromEnd)])
    && Sum(was) - Sum(now) <= need
    && (Sum(was) - Sum(now) == need || forall i :: 0 <= i < |was| ==> now[i] <= mins[i])
  }

  ghost predicate TakenAt(was: seq<real>, now: seq<real>, mins: seq<real>, i: int)
    requires |was| == |now| == |mins|
  {
    0 <= i < |was| && (now[i] == was[i] || mins[i] <= now[i] < was[i])
  }

  /** The state of the taking with the nearest k segments visited and need still owed. */
  ghost predicate Taking(was: seq<real>, now: seq<real>, mins: seq<real>, fromEnd: bool, k: int, owed: real, need: real)
  {
    && |was| == |now| == |mins| && 0 <= k <= |was| && need >= 0.0
    && owed - need == Sum(was) - Sum(now)
    && (forall j :: k <= j < |was| ==> now[Near(|was|, j, fromEnd)] == was[Near(|was|, j, fromEnd)])
    && (forall j :: 0 <= j < k ==> TakenAt(was, now, mins, Near(|was|, j, fromEnd)))
    && (need > 0.0 ==> forall j :: 0 <= j < k ==> now[Near(|was|, j, fromEnd)] <= mins[Near(|was|, j, fromEnd)])
    && (forall j, l :: 0 <= j < l < k && now[Near(|was|, l, fromEnd)] < was[Near(|was|, l, fromEnd)] ==>
          now[Near(|was|, j, fromEnd)] <= mins[Near(|was|, j, fromEnd)])
  }

  lemma TakeStep(was: seq<real>, now: seq<real>, mins: seq<real>, fromEnd: bool, k: int, owed: real, need: real, take: real)
    requires Taking(was, now, mins, fromEnd, k, owed, need) && k < |was| && need > 0.0
    requires var i := Near(|was|, k, fromEnd);
             take == if now[i] - mins[i] <= 0.0 then 0.0 else if need > now[i] - mins[i] then now[i] - mins[i] else need
    ensures var i := Near(|was|, k, fromEnd);
            Taking(was, now[i := now[i] - take], mins, fromEnd, k + 1, owed, need - take)
  {
    hide Sum;
    var i := Near(|was|, k, fromEnd);
    SumUpdate(now, i, now[i] - take);
    var next := now[i := now[i] - take];
    forall j | 0 <= j < k + 1
      ensures TakenAt(was, next, mins, Near(|was|, j, fromEnd))
    {
      if j < k { assert TakenAt(was, now, mins, Near(|was|, j, fromEnd)); }
    }
  }

  lemma TakeDone(was: seq<real>, now: seq<real>, mins: seq<real>, fromEnd: bool, k: int, owed: real, need: real)
    requires Taking(was, now, mins, fromEnd, k, owed, need) && (need == 0.0 || k == |was|)
    ensures Taken(was, now, mins, owed, fromEnd)
  {
    hide Sum;
    forall i | 0 <= i < |was|
      ensures now[i] == was[i] || mins[i] <= now[i] < was[i]
      ensures need > 0.0 ==> now[i] <= mins[i]
    {
      var j := if fromEnd then |was| - 1 - i else i;
      assert Near(|was|, j, fromEnd) == i;
      if j < k { assert TakenAt(was, now, mins, Near(|was|, j, fromEnd)); }
    }
  }

  /** Removes need outward from the boundary, in place. */
  method TakeSequential(segs: seq<TreeNode>, sizes: array<real>, lo: nat, hi: nat, owed: real,
    dir: Direction, minPx: real, fromEnd: bool)
    requires lo <= hi <= sizes.Length == |segs| && owed > 0.0
    modifies sizes
    ensures sizes[..lo] == old(sizes[..lo]) && sizes[hi..] == old(sizes[hi..])
    ensures Taken(old(sizes[lo..hi]), sizes[lo..hi], Mins(segs, dir, minPx)[lo..hi], owed, fromEnd)
  {
    hide Sum, Taken, Taking;
    var need, n := owed, hi - lo;
    ghost var was, mins := sizes[lo..hi], Mins(segs, dir, minPx)[lo..hi];
    NothingTaken(was, mins, fromEnd, owed);
    var k := 0;
    while k < n
      invariant 0 <= k <= n
      invariant sizes[..lo] == old(sizes[..lo]) && sizes[hi..] == old(sizes[hi..])
      invariant Taking(was, sizes[lo..hi], mins, fromEnd, k, owed, need)
    {
      if need <= 0.0 {
        NeedIsOwed(was, sizes[lo..hi], mins, fromEnd, k, owed, need);
        break;
      }
      var i := lo + k;
      if fromEnd {
        i := hi - 1 - k;
      }
      var avail := sizes[i] - MinSize(segs[i], dir, minPx);
      var take := need;
      if take > avail {
        take := avail;
      }
      if avail <= 0.0 {
        take := 0.0;
      }
      ghost var before := sizes[lo..hi];
      TakeStep(was, before, mins, fromEnd, k, owed, need, take);
      sizes[i] := sizes[i] - take;
      assert sizes[lo..hi] == before[i - lo := before[i - lo] - take];
      need := need - take;
      k := k + 1;
    }
    TakeDone(was, sizes[lo..hi], mins, fromEnd, k, owed, need);
  }

  lemma NothingTaken(was: seq<real>, mins: seq<real>, fromEnd: bool, owed: real)
    requires |was| == |mins| && owed >= 0.0
    ensures Taking(was, was, mins, fromEnd, 0, owed, owed)
  {
  }

  lemma NeedIsOwed(was: seq<real>, now: seq<real>, mins: seq<real>, fromEnd: bool, k: int, owed: real, need: real)
    requires Taking(was, now, mins, fromEnd, k, owed, need) && need <= 0.0
    ensures need == 0.0
  {
  }

  // ---------------------------------------------------------------- writing the ratios

  /** The ratios once a run's segments are to have the given sizes; a run of no extent
      keeps the ratios it had. */
  function Applied(n: TreeNode, dir: Direction, sizes: seq<real>, rs: Ratios): Ratios
    requires |sizes| == |Flatten(n, dir)|
    decreases n
  {
    if n.Leaf? || n.split.dir != dir then rs
    else
      var k := |Flatten(n.a, dir)|;
      var below := Applied(n.b, dir, sizes[k..], Applied(n.a, dir, sizes[..k], rs));
      var a, b := Sum(sizes[..k]), Sum(sizes[k..]);
      if a + b > 0.0 then below[n.split := a / (a + b)] else below
  }

  lemma {:induction false} AppliedElsewhere(n: TreeNode, dir: Direction, sizes: seq<real>, rs: Ratios, s: Split)
    requires |sizes| == |Flatten(n, dir)| && s !in Spine(n, dir)
    ensures RatioIn(Applied(n, dir, sizes, rs), s) == RatioIn(rs, s)
  {
    if n.Inner? && n.split.dir == dir {
      var k := |Flatten(n.a, dir)|;
      AppliedElsewhere(n.a, dir, sizes[..k], rs, s);
      AppliedElsewhere(n.b, dir, sizes[k..], Applied(n.a, dir, sizes[..k], rs), s);
    }
  }

  lemma {:induction false} SizesSame(n: TreeNode, dir: Direction, total: real, rs: Ratios, rs': Ratios)
    requires forall s :: s in Spine(n, dir) ==> RatioIn(rs, s) == RatioIn(rs', s)
    ensures SegmentSizes(n, dir, total, rs) == SegmentSizes(n, dir, total, rs')
  {
    hide Share, Flatten, Splits, RatioIn;
    if n.Inner? && n.split.dir == dir {
      var q := RatioIn(rs, n.split);
      assert n.split in Spine(n, dir) && RatioIn(rs', n.split) == q;
      SizesSame(n.a, dir, Share(total, q), rs, rs');
      SizesSame(n.b, dir, Share(total, 1.0 - q), rs, rs');
    }
  }

  lemma NonNegativeFactor(q: real, t: real)
    requires t > 0.0 && q * t >= 0.0
    ensures q >= 0.0
  {
  }

  /** A share of a whole, given back. */
  lemma ShareOf(a: real, b: real)
    requires a >= 0.0 && b >= 0.0 && a + b > 0.0
    ensures var q := a / (a + b);
            0.0 <= q <= 1.0 && (a + b) * q == a && (a + b) * (1.0 - q) == b
  {
    var t := a + b;
    var q := a / t;
    assert q * t == a;
    NonNegativeFactor(q, t);
    assert (1.0 - q) * t == t - q * t;
    NonNegativeFactor(1.0 - q, t);
    assert t * q == q * t && t * (1.0 - q) == (1.0 - q) * t;
  }

  ghost predicate UnitRatios(spine: set<Split>, rs: Ratios)
  {
    forall s :: s in spine ==> 0.0 <= RatioIn(rs, s) <= 1.0
  }

  /** The ratio a run's own split gets. */
  lemma AppliedHere(n: TreeNode, dir: Direction, sizes: seq<real>, rs: Ratios)
    requires Distinct(n) && n.Inner? && n.split.dir == dir && |sizes| == |Flatten(n, dir)|
    ensures var k := |Flatten(n.a, dir)|;
            var a, b := Sum(sizes[..k]), Sum(sizes[k..]);
            RatioIn(Applied(n, dir, sizes, rs), n.split) == if a + b > 0.0 then a / (a + b) else RatioIn(rs, n.split)
  {
    hide Sum;
    var k := |Flatten(n.a, dir)|;
    AppliedElsewhere(n.a, dir, sizes[..k], rs, n.split);
    AppliedElsewhere(n.b, dir, sizes[k..], Applied(n.a, dir, sizes[..k], rs), n.split);
  }

  /** That ratio hands its children their extents. */
  lemma RatioShares(a: real, b: real, had: real, q: real)
    requires a >= 0.0 && b >= 0.0 && q == if a + b > 0.0 then a / (a + b) else had
    ensures Share(a + b, q) == a && Share(a + b, 1.0 - q) == b
    ensures 0.0 <= had <= 1.0 ==> 0.0 <= q <= 1.0
  {
    if a + b > 0.0 {
      ShareOf(a, b);
    } else {
      assert a + b == 0.0;
    }
  }

  /** What a run's two halves were given stays given. */
  lemma AppliedBelow(n: TreeNode, dir: Direction, sizes: seq<real>, rs: Ratios, s: Split)
    requires Distinct(n) && n.Inner? && n.split.dir == dir && |sizes| == |Flatten(n, dir)|
    ensures var k := |Flatten(n.a, dir)|;
            var mid, out := Applied(n.a, dir, sizes[..k], rs), Applied(n, dir, sizes, rs);
            && (s in Splits(n.a) ==> RatioIn(out, s) == RatioIn(mid, s))
            && (s in Splits(n.b) ==> RatioIn(out, s) == RatioIn(Applied(n.b, dir, sizes[k..], mid), s))
            && (s in Splits(n.b) ==> RatioIn(mid, s) == RatioIn(rs, s))
  {
    var k := |Flatten(n.a, dir)|;
    var mid := Applied(n.a, dir, sizes[..k], rs);
    if s in Splits(n.a) {
      AppliedElsewhere(n.b, dir, sizes[k..], mid, s);
    } else if s in Splits(n.b) {
      AppliedElsewhere(n.a, dir, sizes[..k], rs, s);
    }
  }

  /** The rewritten ratios lay the run out to exactly those sizes. */
  lemma {:induction false} AppliedLaysOut(n: TreeNode, dir: Direction, sizes: seq<real>, rs: Ratios)
    requires Distinct(n) && |sizes| == |Flatten(n, dir)| && forall i :: 0 <= i < |sizes| ==> sizes[i] >= 0.0
    ensures SegmentSizes(n, dir, Sum(sizes), Applied(n, dir, sizes, rs)) == sizes
    ensures UnitRatios(Spine(n, dir), rs) ==> UnitRatios(Spine(n, dir), Applied(n, dir, sizes, rs))
  {
    hide Sum, Applied, Share, Distinct, Splits, Spine, MinSize, RatioIn;
    if n.Leaf? || n.split.dir != dir {
      assert sizes == [sizes[0]];
      SumOne(sizes[0]);
      AppliedLeaf(n, dir, sizes, rs);
    } else {
      RunParts(n, dir);
      var k := |Flatten(n.a, dir)|;
      AppliedLaysOut(n.a, dir, sizes[..k], rs);
      AppliedLaysOut(n.b, dir, sizes[k..], Applied(n.a, dir, sizes[..k], rs));
      AppliedInside(n, dir, sizes, rs);
      AppliedHere(n, dir, sizes, rs);
      SumNonNegative(sizes[..k]);
      SumNonNegative(sizes[k..]);
      var out := Applied(n, dir, sizes, rs);
      RatioShares(Sum(sizes[..k]), Sum(sizes[k..]), RatioIn(rs, n.split), RatioIn(out, n.split));
      SumSplit(sizes, k);
      SegmentsJoin(n, dir, sizes, out);
    }
  }

  /** Both halves of a run are laid out by the whole's ratios as by their own. */
  lemma AppliedInside(n: TreeNode, dir: Direction, sizes: seq<real>, rs: Ratios)
    requires Distinct(n) && n.Inner? && n.split.dir == dir && |sizes| == |Flatten(n, dir)|
    ensures var k := |Flatten(n.a, dir)|;
            var mid, out := Applied(n.a, dir, sizes[..k], rs), Applied(n, dir, sizes, rs);
            var below := Applied(n.b, dir, sizes[k..], mid);
            && SegmentSizes(n.a, dir, Sum(sizes[..k]), out) == SegmentSizes(n.a, dir, Sum(sizes[..k]), mid)
            && SegmentSizes(n.b, dir, Sum(sizes[k..]), out) == SegmentSizes(n.b, dir, Sum(sizes[k..]), below)
            && (UnitRatios(Spine(n.a, dir), mid) ==> UnitRatios(Spine(n.a, dir), out))
            && (UnitRatios(Spine(n.b, dir), below) ==> UnitRatios(Spine(n.b, dir), out))
            && (UnitRatios(Spine(n, dir), rs) ==> UnitRatios(Spine(n.a, dir), rs) && UnitRatios(Spine(n.b, dir), mid))
  {
    hide Sum, Applied, SegmentSizes;
    var k := |Flatten(n.a, dir)|;
    var mid, out := Applied(n.a, dir, sizes[..k], rs), Applied(n, dir, sizes, rs);
    var below := Applied(n.b, dir, sizes[k..], mid);
    forall s | s in Spine(n.a, dir)
      ensures RatioIn(mid, s) == RatioIn(out, s)
    {
      AppliedBelow(n, dir, sizes, rs, s);
    }
    forall s | s in Spine(n.b, dir)
      ensures RatioIn(below, s) == RatioIn(out, s) && RatioIn(mid, s) == RatioIn(rs, s)
    {
      AppliedBelow(n, dir, sizes, rs, s);
    }
    SizesSame(n.a, dir, Sum(sizes[..k]), mid, out);
    SizesSame(n.b, dir, Sum(sizes[k..]), below, out);
  }

  /** A run's sizes from its two halves'. */
  lemma SegmentsJoin(n: TreeNode, dir: Direction, sizes: seq<real>, rs: Ratios)
    requires n.Inner? && n.split.dir == dir && |sizes| == |Flatten(n, dir)|
    requires var k := |Flatten(n.a, dir)|;
             && Share(Sum(sizes), RatioIn(rs, n.split)) == Sum(sizes[..k])
             && Share(Sum(sizes), 1.0 - RatioIn(rs, n.split)) == Sum(sizes[k..])
             && SegmentSizes(n.a, dir, Sum(sizes[..k]), rs) == sizes[..k]
             && SegmentSizes(n.b, dir, Sum(sizes[k..]), rs) == sizes[k..]
    ensures SegmentSizes(n, dir, Sum(sizes), rs) == sizes
  {
    hide Sum, Share;
    var k := |Flatten(n.a, dir)|;
    assert sizes == sizes[..k] + sizes[k..];
  }

  /** A segment's extent, looked up by the segment. */
  method SegmentExtent(m: TreeNode, segs: seq<TreeNode>, sizes: seq<real>, ghost lo: nat) returns (ext: real)
    requires |segs| == |sizes| && lo < |segs| && segs[lo] == m
    requires forall i, j :: 0 <= i < j < |segs| ==> segs[i] != segs[j]
    ensures ext == sizes[lo]
  {
    var i := 0;
    while i < |segs|
      invariant 0 <= i <= lo
    {
      if segs[i] == m {
        return sizes[i];
      }
      i := i + 1;
    }
  }

  /** Between a split's two children: the first child's ratios are written. */
  lemma AppliedLeft(m: TreeNode, dir: Direction, sizes: seq<real>, rs: Ratios)
    requires Distinct(m) && m.Inner? && m.split.dir == dir && |sizes| == |Flatten(m, dir)|
    requires Holds(m.b, rs)
    ensures Holds(m.b, Applied(m.a, dir, sizes[..|Flatten(m.a, dir)|], rs))
  {
    forall s | s in Splits(m.b)
      ensures RatioIn(Applied(m.a, dir, sizes[..|Flatten(m.a, dir)|], rs), s) == RatioIn(rs, s)
    {
      AppliedBelow(m, dir, sizes, rs, s);
    }
  }

  /** Once the split's own ratio is written too, all of the run's are. */
  lemma AppliedWhole(m: TreeNode, dir: Direction, sizes: seq<real>, rs: Ratios)
    requires Distinct(m) && m.Inner? && m.split.dir == dir && |sizes| == |Flatten(m, dir)|
    requires var k := |Flatten(m.a, dir)|;
             var mid := Applied(m.a, dir, sizes[..k], rs);
             var a, b := Sum(sizes[..k]), Sum(sizes[k..]);
             && Holds(m.a, mid) && Holds(m.b, Applied(m.b, dir, sizes[k..], mid))
             && m.split.ratio == if a + b > 0.0 then a / (a + b) else RatioIn(rs, m.split)
    ensures Holds(m, Applied(m, dir, sizes, rs))
  {
    hide Sum;
    var k := |Flatten(m.a, dir)|;
    var mid := Applied(m.a, dir, sizes[..k], rs);
    forall s | s in Splits(m)
      ensures s.ratio == RatioIn(Applied(m, dir, sizes, rs), s)
    {
      if s == m.split {
        AppliedElsewhere(m.a, dir, sizes[..k], rs, s);
        AppliedElsewhere(m.b, dir, sizes[k..], mid, s);
      } else {
        AppliedBelow(m, dir, sizes, rs, s);
      }
    }
  }

  lemma HalfOf(all: seq<TreeNode>, sizes: seq<real>, segs: seq<TreeNode>, lo: nat, k: nat, n: nat)
    requires |segs| == |sizes| && k <= n && lo + n <= |segs| && all == segs[lo..lo + n]
    ensures segs[lo..lo + k] == all[..k] && segs[lo + k..lo + n] == all[k..]
    ensures sizes[lo..lo + k] == sizes[lo..lo + n][..k] && sizes[lo + k..lo + n] == sizes[lo..lo + n][k..]
  {
  }

  /** The walk that rewrites a run's ratios, each from its children's new extents. */
  method Apply(m: TreeNode, dir: Direction, segs: seq<TreeNode>, sizes: seq<real>, ghost lo: nat, ghost rs: Ratios)
    returns (ext: real)
    requires |segs| == |sizes| && lo + |Flatten(m, dir)| <= |segs|
    requires segs[lo..lo + |Flatten(m, dir)|] == Flatten(m, dir)
    requires forall i, j :: 0 <= i < j < |segs| ==> segs[i] != segs[j]
    requires Distinct(m) && Holds(m, rs)
    modifies Spine(m, dir)`ratio
    ensures ext == Sum(sizes[lo..lo + |Flatten(m, dir)|])
    ensures Holds(m, Applied(m, dir, sizes[lo..lo + |Flatten(m, dir)|], rs))
    decreases m
  {
    hide Sum, Applied, Flatten, Spine, Distinct, Splits, Holds;
    SplitsAllocated(m);
    ghost var n := |Flatten(m, dir)|;
    ghost var mine := sizes[lo..lo + n];
    if m.Leaf? || m.split.dir != dir {
      AppliedLeaf(m, dir, mine, rs);
      ext := SegmentExtent(m, segs, sizes, lo);
      assert mine == [sizes[lo]];
      SumOne(sizes[lo]);
      return;
    }
    ghost var k := |Flatten(m.a, dir)|;
    RunParts(m, dir);
    HoldsParts(m, rs);
    HalfOf(Flatten(m, dir), sizes, segs, lo, k, n);
    var a := Apply(m.a, dir, segs, sizes, lo, rs);
    AppliedLeft(m, dir, mine, rs);
    var b := Apply(m.b, dir, segs, sizes, lo + k, Applied(m.a, dir, mine[..k], rs));
    SumSplit(mine, k);
    assert m.split.ratio == RatioIn(rs, m.split);
    if a + b > 0.0 {
      m.split.ratio := a / (a + b);
    }
    AppliedWhole(m, dir, mine, rs);
    return a + b;
  }

  lemma RunParts(m: TreeNode, dir: Direction)
    requires Distinct(m) && m.Inner? && m.split.dir == dir
    ensures Flatten(m, dir) == Flatten(m.a, dir) + Flatten(m.b, dir)
    ensures Spine(m, dir) == {m.split} + Spine(m.a, dir) + Spine(m.b, dir)
    ensures Distinct(m.a) && Distinct(m.b) && Splits(m.a) !! Splits(m.b)
    ensures Splits(m) == {m.split} + Splits(m.a) + Splits(m.b) && m.split !in Splits(m.a) + Splits(m.b)
  {
  }

  lemma HoldsParts(m: TreeNode, rs: Ratios)
    requires m.Inner? && Holds(m, rs)
    ensures Holds(m.a, rs) && Holds(m.b, rs) && m.split.ratio == RatioIn(rs, m.split)
  {
  }

  lemma AppliedLeaf(m: TreeNode, dir: Direction, sizes: seq<real>, rs: Ratios)
    requires |sizes| == |Flatten(m, dir)| && (m.Leaf? || m.split.dir != dir)
    ensures Applied(m, dir, sizes, rs) == rs && Flatten(m, dir) == [m] && Spine(m, dir) == {}
  {
  }

  // ---------------------------------------------------------------- the drag

  /** The bounds of a divider's drag. */
  method CorridorWalls(root: TreeNode, rootRect: Rect, target: Split, minPx: real, rs: Ratios)
    returns (lo: real, hi: real, ok: bool, ghost c: Corridor)
    requires Distinct(root)
    ensures ok <==> target in Splits(root)
    ensures ok ==> IsCorridor(c, root, rootRect, target, rs)
    ensures ok ==> lo == WallLo(c, target.dir, minPx) && hi == WallHi(c, target.dir, minPx)
  {
    hide WallLo, WallHi;
    var around;
    around, ok := OpenCorridor(root, rootRect, target, rs);
    c := around;
    if !ok {
      return 0.0, 0.0, false, c;
    }
    lo, hi := Walls(around, target.dir, minPx);
  }

  /** A divider has one corridor. */
  lemma OneCorridor(c: Corridor, d: Corridor, root: TreeNode, rootRect: Rect, target: Split, rs: Ratios)
    requires IsCorridor(c, root, rootRect, target, rs) && IsCorridor(d, root, rootRect, target, rs)
    ensures c == d
  {
  }

  /** Where the divider stands. */
  function BoundaryPos(c: Corridor, sizes: seq<real>): real
    requires c.bIdx + 1 <= |sizes|
  {
    c.start + Sum(sizes[..c.bIdx + 1])
  }

  /** One side gave what the divider moved by, and the segment across the divider took it. */
  ghost predicate Moved(c: Corridor, dir: Direction, minPx: real, delta: real, sizes: seq<real>)
  {
    && c.bIdx + 1 < |c.segs| == |c.sizes| == |sizes|
    && var b, mins := c.bIdx, Mins(c.segs, dir, minPx);
       if delta == 0.0 then sizes == c.sizes
       else if delta < 0.0 then
         && Taken(c.sizes[..b + 1], sizes[..b + 1], mins[..b + 1], -delta, true)
         && sizes[b + 1..] == c.sizes[b + 1..][0 := c.sizes[b + 1] - delta]
       else
         && Taken(c.sizes[b + 1..], sizes[b + 1..], mins[b + 1..], delta, false)
         && sizes[..b + 1] == c.sizes[..b + 1][b := c.sizes[b] + delta]
  }

  /** What one drag leaves: the sizes it came to and the ratios it wrote. */
  ghost predicate Dragged(c: Corridor, dir: Direction, x: real, minPx: real, rs: Ratios, sizes: seq<real>, after: Ratios)
  {
    && c.bIdx + 1 < |c.segs| == |c.sizes| && |sizes| == |Flatten(c.top, dir)|
    && var delta := ClampTo(x, WallLo(c, dir, minPx), WallHi(c, dir, minPx)) - BoundaryPos(c, c.sizes);
       && Moved(c, dir, minPx, delta, sizes)
       && after == if delta == 0.0 then rs else Applied(c.top, dir, sizes, rs)
  }

  /** Where the divider stands, summed. */
  method CurrentBoundary(c: Corridor) returns (cur: real)
    requires c.bIdx + 1 < |c.sizes|
    ensures cur == BoundaryPos(c, c.sizes)
  {
    hide Sum;
    NoSum();
    cur := c.start;
    var i := 0;
    assert c.sizes[..i] == [];
    while i < c.bIdx + 1
      invariant 0 <= i <= c.bIdx + 1 && cur == c.start + Sum(c.sizes[..i])
    {
      cur := cur + c.sizes[i];
      assert c.sizes[0..i] == c.sizes[..i] && c.sizes[0..i + 1] == c.sizes[..i + 1];
      SumNext(c.sizes, 0, i);
      i := i + 1;
    }
  }

  /** The side the divider presses gives way and the segment behind it grows. */
  method Press(c: Corridor, dir: Direction, minPx: real, delta: real) returns (sizes: seq<real>)
    requires c.bIdx + 1 < |c.segs| == |c.sizes| && delta != 0.0
    ensures Moved(c, dir, minPx, delta, sizes)
  {
    hide Taken, Sum;
    var b, n := c.bIdx, |c.sizes|;
    var a := new real[n](i requires 0 <= i < n => c.sizes[i]);
    assert a[..] == c.sizes;
    ghost var mins := Mins(c.segs, dir, minPx);
    assert mins[0..b + 1] == mins[..b + 1] && mins[b + 1..n] == mins[b + 1..];
    if delta < 0.0 {
      assert a[0..b + 1] == c.sizes[..b + 1];
      TakeSequential(c.segs, a, 0, b + 1, -delta, dir, minPx, true);
      assert a[b + 1] == a[b + 1..][0];
      a[b + 1] := a[b + 1] - delta;
      assert a[0..b + 1] == a[..][..b + 1];
    } else {
      assert a[b + 1..n] == c.sizes[b + 1..];
      TakeSequential(c.segs, a, b + 1, n, delta, dir, minPx, false);
      assert a[b] == a[..b + 1][b];
      a[b] := a[b] + delta;
      assert a[b + 1..n] == a[..][b + 1..];
    }
    sizes := a[..];
  }

  /** Moves target's divider toward x through its corridor, writing ratios in place. */
  method ResizeThrough(root: TreeNode, rootRect: Rect, target: Split, x: real, minPx: real)
    returns (ghost c: Corridor, ghost sizes: seq<real>, ghost after: Ratios)
    requires Distinct(root)
    modifies Splits(root)`ratio
    ensures target !in Splits(root) ==> Holds(root, old(RatiosOf(root)))
    ensures target in Splits(root) ==>
              && IsCorridor(c, root, rootRect, target, old(RatiosOf(root)))
              && Dragged(c, target.dir, x, minPx, old(RatiosOf(root)), sizes, after)
              && Holds(root, after)
  {
    hide Sum, Applied, WallLo, WallHi, BoundaryPos, Moved, IsCorridor, Dragged, Holds, Distinct, ClampTo,
      Mins, Flatten, Spine, SegmentSizes;
    SplitsAllocated(root);
    var rs := ReadRatios(root, map[]);
    RatiosHold(root, rs);
    c, sizes, after := Corridor(root, rootRect, [], 0.0, 0.0, [], 0), [], rs;
    var lo, hi, ok, walled := CorridorWalls(root, rootRect, target, minPx, rs);
    if !ok {
      return;
    }
    var cor, found := OpenCorridor(root, rootRect, target, rs);
    if !found {
      return;
    }
    CorridorFacts(cor, root, rootRect, target, rs);
    OneCorridor(cor, walled, root, rootRect, target, rs);
    c := cor;
    var pos := ClampTo(x, lo, hi);
    var cur := CurrentBoundary(cor);
    var delta := pos - cur;
    if delta == 0.0 {
      sizes := c.sizes;
      NotDragged(c, target.dir, x, minPx, rs);
      return;
    }
    var now := Press(cor, target.dir, minPx, delta);
    sizes := now;
    PressDragged(c, target.dir, x, minPx, rs, now);
    after := Applied(c.top, target.dir, now, rs);
    SegmentsDiffer(c.top, target.dir);
    assert cor.segs[0..|cor.segs|] == cor.segs && now[0..|now|] == now;
    PartHolds(root, c.top, rs);
    var whole := Apply(cor.top, target.dir, cor.segs, now, 0, rs);
    DragHolds(root, c.top, target.dir, now, rs);
  }

  lemma RatiosHold(n: TreeNode, rs: Ratios)
    requires rs == map[] + RatiosOf(n)
    ensures rs == RatiosOf(n) && Holds(n, rs)
    ensures forall s :: s in Splits(n) ==> s.ratio == RatioIn(rs, s)
  {
  }

  lemma NotDragged(c: Corridor, dir: Direction, x: real, minPx: real, rs: Ratios)
    requires c.bIdx + 1 < |c.segs| == |c.sizes| && c.segs == Flatten(c.top, dir)
    requires ClampTo(x, WallLo(c, dir, minPx), WallHi(c, dir, minPx)) == BoundaryPos(c, c.sizes)
    ensures Dragged(c, dir, x, minPx, rs, c.sizes, rs)
  {
    hide Sum, Mins, WallLo, WallHi, Taken;
  }

  lemma PressDragged(c: Corridor, dir: Direction, x: real, minPx: real, rs: Ratios, sizes: seq<real>)
    requires c.bIdx + 1 < |c.segs| == |c.sizes| && c.segs == Flatten(c.top, dir)
    requires var delta := ClampTo(x, WallLo(c, dir, minPx), WallHi(c, dir, minPx)) - BoundaryPos(c, c.sizes);
             delta != 0.0 && Moved(c, dir, minPx, delta, sizes)
    ensures |sizes| == |Flatten(c.top, dir)|
    ensures Dragged(c, dir, x, minPx, rs, sizes, Applied(c.top, dir, sizes, rs))
  {
    hide Sum, Mins, WallLo, WallHi, Taken, BoundaryPos, ClampTo, Applied;
  }

  lemma {:induction false} CorridorFacts(c: Corridor, root: TreeNode, rootRect: Rect, target: Split, rs: Ratios)
    requires Distinct(root) && IsCorridor(c, root, rootRect, target, rs)
    ensures c.segs == Flatten(c.top, target.dir) && |c.sizes| == |c.segs| && c.bIdx + 1 < |c.segs|
    ensures Distinct(c.top) && Splits(c.top) <= Splits(root) && Spine(c.top, target.dir) <= Splits(root)
  {
    TopIsWholeRun(root, target);
  }

  lemma SegmentsDiffer(n: TreeNode, dir: Direction)
    requires Distinct(n)
    ensures forall i, j :: 0 <= i < j < |Flatten(n, dir)| ==> Flatten(n, dir)[i] != Flatten(n, dir)[j]
  {
    forall i, j | 0 <= i < j < |Flatten(n, dir)|
      ensures Flatten(n, dir)[i] != Flatten(n, dir)[j]
    {
      SegmentsDistinct(n, dir, i, j);
    }
  }

  lemma PartHolds(root: TreeNode, top: TreeNode, rs: Ratios)
    requires Splits(top) <= Splits(root) && Holds(root, rs)
    ensures Holds(top, rs)
  {
  }

  /** Only the run's own splits were written. */
  lemma DragHolds(root: TreeNode, top: TreeNode, dir: Direction, sizes: seq<real>, rs: Ratios)
    requires |sizes| == |Flatten(top, dir)|
    requires Holds(top, Applied(top, dir, sizes, rs))
    requires forall s :: s in Splits(root) && s !in Spine(top, dir) ==> s.ratio == RatioIn(rs, s)
    ensures Holds(root, Applied(top, dir, sizes, rs))
  {
    forall s | s in Splits(root)
      ensures s.ratio == RatioIn(Applied(top, dir, sizes, rs), s)
    {
      if s !in Spine(top, dir) {
        AppliedElsewhere(top, dir, sizes, rs, s);
      }
    }
  }

  // ---------------------------------------------------------------- what a drag comes to

  /** What a run of segments can give: each down to its minimum, none below. */
  function Slack(was: seq<real>, mins: seq<real>): (slack: real)
    requires |was| == |mins|
    ensures slack >= 0.0
  {
    if was == [] then 0.0
    else (if was[0] > mins[0] then was[0] - mins[0] else 0.0) + Slack(was[1..], mins[1..])
  }

  lemma {:induction false} SlackBounds(was: seq<real>, now: seq<real>, mins: seq<real>)
    requires |was| == |now| == |mins|
    requires forall i :: 0 <= i < |was| ==> now[i] == was[i] || mins[i] <= now[i] < was[i]
    ensures Sum(was) - Sum(now) <= Slack(was, mins)
    ensures (forall i :: 0 <= i < |was| ==> now[i] <= mins[i]) ==> Sum(was) - Sum(now) == Slack(was, mins)
  {
    if was != [] {
      SlackBounds(was[1..], now[1..], mins[1..]);
    }
  }

  lemma {:induction false} SlackAtLeast(was: seq<real>, mins: seq<real>)
    requires |was| == |mins|
    ensures Slack(was, mins) >= Sum(was) - Sum(mins)
  {
    if was != [] {
      SlackAtLeast(was[1..], mins[1..]);
    }
  }

  /** Exactly as much is taken as is owed, or everything there is to give. */
  lemma TakenExactly(was: seq<real>, now: seq<real>, mins: seq<real>, owed: real, fromEnd: bool)
    requires |was| == |now| == |mins| && Taken(was, now, mins, owed, fromEnd)
    ensures Sum(was) - Sum(now) == if owed <= Slack(was, mins) then owed else Slack(was, mins)
  {
    SlackBounds(was, now, mins);
  }

  /** The slack of the side a drag by delta presses on. */
  function PressedSlack(c: Corridor, dir: Direction, minPx: real, delta: real): real
    requires c.bIdx + 1 < |c.segs| == |c.sizes|
  {
    var mins := Mins(c.segs, dir, minPx);
    if delta < 0.0 then Slack(c.sizes[..c.bIdx + 1], mins[..c.bIdx + 1])
    else Slack(c.sizes[c.bIdx + 1..], mins[c.bIdx + 1..])
  }

  /** The divider moves as far as it was to or as far as the pressed side gives, and the
      corridor keeps its extent exactly when it is the former. */
  lemma MovedBy(c: Corridor, dir: Direction, minPx: real, delta: real, sizes: seq<real>)
    requires Moved(c, dir, minPx, delta, sizes)
    ensures BoundaryPos(c, sizes) == BoundaryPos(c, c.sizes) + delta && Sum(sizes) == Sum(c.sizes)
            <==> (if delta < 0.0 then -delta else delta) <= PressedSlack(c, dir, minPx, delta)
  {
    hide Slack, Taken;
    var b, mins := c.bIdx, Mins(c.segs, dir, minPx);
    SumSplit(c.sizes, b + 1);
    SumSplit(sizes, b + 1);
    if delta < 0.0 {
      TakenExactly(c.sizes[..b + 1], sizes[..b + 1], mins[..b + 1], -delta, true);
      SumUpdate(c.sizes[b + 1..], 0, c.sizes[b + 1] - delta);
    } else if delta > 0.0 {
      TakenExactly(c.sizes[b + 1..], sizes[b + 1..], mins[b + 1..], delta, false);
      SumUpdate(c.sizes[..b + 1], b, c.sizes[b] + delta);
    }
  }

  /** Sizes read off the ratios use up the run's extent. */
  lemma {:induction false} SizesSum(n: TreeNode, dir: Direction, total: real, rs: Ratios)
    ensures Sum(SegmentSizes(n, dir, total, rs)) == total
  {
    if n.Leaf? || n.split.dir != dir {
      SumOne(total);
    } else {
      var q := RatioIn(rs, n.split);
      SizesSum(n.a, dir, Share(total, q), rs);
      SizesSum(n.b, dir, Share(total, 1.0 - q), rs);
      SumConcat(SegmentSizes(n.a, dir, Share(total, q), rs), SegmentSizes(n.b, dir, Share(total, 1.0 - q), rs));
      SharesSum(total, q);
    }
  }

  lemma SharesSum(w: real, q: real)
    ensures Share(w, q) + Share(w, 1.0 - q) == w
  {
  }

  lemma {:induction false} SizesNonNegative(n: TreeNode, dir: Direction, total: real, rs: Ratios)
    requires total >= 0.0 && UnitRatios(Spine(n, dir), rs)
    ensures forall i :: 0 <= i < |Flatten(n, dir)| ==> SegmentSizes(n, dir, total, rs)[i] >= 0.0
  {
    hide Share;
    if n.Inner? && n.split.dir == dir {
      var q := RatioIn(rs, n.split);
      assert n.split in Spine(n, dir);
      ShareBounds(total, q);
      ShareBounds(total, 1.0 - q);
      SizesNonNegative(n.a, dir, Share(total, q), rs);
      SizesNonNegative(n.b, dir, Share(total, 1.0 - q), rs);
    }
  }

  lemma {:induction false} MinSizeNonNegative(n: TreeNode, dir: Direction, minPx: real)
    requires minPx >= 0.0
    ensures MinSize(n, dir, minPx) >= 0.0
  {
    if n.Inner? {
      MinSizeNonNegative(n.a, dir, minPx);
      MinSizeNonNegative(n.b, dir, minPx);
    }
  }

  /** Room to drag in: the minimums of all the corridor's segments fit in it together. */
  ghost predicate Room(c: Corridor, dir: Direction, minPx: real, rs: Ratios)
  {
    && c.bIdx + 1 < |c.segs|
    && minPx >= 0.0 && c.total >= 0.0 && UnitRatios(Spine(c.top, dir), rs)
    && WallLo(c, dir, minPx) <= WallHi(c, dir, minPx)
  }

  /** With room, the pressed side gives all the clamped drag asks. */
  lemma RoomIsSlack(c: Corridor, dir: Direction, x: real, minPx: real)
    requires c.bIdx + 1 < |c.segs| == |c.sizes| && Sum(c.sizes) == c.total
    requires WallLo(c, dir, minPx) <= WallHi(c, dir, minPx)
    ensures var delta := ClampTo(x, WallLo(c, dir, minPx), WallHi(c, dir, minPx)) - BoundaryPos(c, c.sizes);
            (if delta < 0.0 then -delta else delta) <= PressedSlack(c, dir, minPx, delta)
  {
    hide Slack;
    var b, mins := c.bIdx, Mins(c.segs, dir, minPx);
    SumSplit(c.sizes, b + 1);
    SlackAtLeast(c.sizes[..b + 1], mins[..b + 1]);
    SlackAtLeast(c.sizes[b + 1..], mins[b + 1..]);
  }

  /** No segment is left below its minimum that was not there, nor one below nothing. */
  lemma MovedFloors(c: Corridor, dir: Direction, minPx: real, delta: real, sizes: seq<real>, i: nat)
    requires Moved(c, dir, minPx, delta, sizes) && i < |sizes|
    ensures sizes[i] >= c.sizes[i] || sizes[i] >= MinSize(c.segs[i], dir, minPx)
  {
    hide Sum, Near;
    var b, mins := c.bIdx, Mins(c.segs, dir, minPx);
    if i <= b {
      assert sizes[i] == sizes[..b + 1][i];
    } else {
      assert sizes[i] == sizes[b + 1..][i - b - 1];
    }
  }

  /** A drag with room: the divider ends exactly at the cursor held between the walls, the
      corridor's segments then are exactly the new sizes and keep its extent, and none is
      pushed below its minimum. */
  lemma {:induction false} DragLands(c: Corridor, root: TreeNode, rootRect: Rect, target: Split, x: real, minPx: real, rs: Ratios,
    sizes: seq<real>, after: Ratios)
    requires Distinct(root) && IsCorridor(c, root, rootRect, target, rs)
    requires Dragged(c, target.dir, x, minPx, rs, sizes, after) && Room(c, target.dir, minPx, rs)
    ensures SegmentSizes(c.top, target.dir, c.total, after) == sizes && Sum(sizes) == c.total
    ensures BoundaryPos(c, sizes) == ClampTo(x, WallLo(c, target.dir, minPx), WallHi(c, target.dir, minPx))
    ensures forall i :: 0 <= i < |sizes| ==>
              sizes[i] >= c.sizes[i] || sizes[i] >= MinSize(c.segs[i], target.dir, minPx)
    ensures UnitRatios(Spine(c.top, target.dir), after)
  {
    hide Sum, ClampTo, WallLo, WallHi, BoundaryPos, Slack, Mins, Moved, PressedSlack, Applied, TopOf, LocateSplit,
      BoundaryAt, Distinct;
    var dir := target.dir;
    TopIsWholeRun(root, target);
    SizesSum(c.top, dir, c.total, rs);
    SizesNonNegative(c.top, dir, c.total, rs);
    RoomIsSlack(c, dir, x, minPx);
    var delta := ClampTo(x, WallLo(c, dir, minPx), WallHi(c, dir, minPx)) - BoundaryPos(c, c.sizes);
    MovedBy(c, dir, minPx, delta, sizes);
    forall i | 0 <= i < |sizes|
      ensures sizes[i] >= c.sizes[i] || sizes[i] >= MinSize(c.segs[i], dir, minPx)
      ensures sizes[i] >= 0.0
    {
      MovedFloors(c, dir, minPx, delta, sizes, i);
      MinSizeNonNegative(c.segs[i], dir, minPx);
    }
    if delta == 0.0 {
      MovedNowhere(c, dir, minPx, sizes);
    } else {
      AppliedLaysOut(c.top, dir, sizes, rs);
    }
  }

  lemma MovedNowhere(c: Corridor, dir: Direction, minPx: real, sizes: seq<real>)
    requires Moved(c, dir, minPx, 0.0, sizes)
    ensures sizes == c.sizes
  {
  }

  /** The cascade: a segment farther from the divider is pressed only once every nearer one
      on that side is down to its minimum, and on the other side only the adjacent grows. */
  lemma DragCascades(c: Corridor, dir: Direction, minPx: real, delta: real, sizes: seq<real>, near: nat, far: nat)
    requires Moved(c, dir, minPx, delta, sizes) && near < |sizes| && far < |sizes|
    ensures far < near <= c.bIdx && sizes[far] < c.sizes[far] ==>
              sizes[near] <= MinSize(c.segs[near], dir, minPx)
    ensures c.bIdx < near < far && sizes[far] < c.sizes[far] ==>
              sizes[near] <= MinSize(c.segs[near], dir, minPx)
    ensures sizes[far] < c.sizes[far] ==> delta != 0.0 && (far <= c.bIdx <==> delta < 0.0)
    ensures sizes[far] > c.sizes[far] ==> delta != 0.0 && far == if delta < 0.0 then c.bIdx + 1 else c.bIdx
  {
    hide Sum, MinSize;
    var b, mins := c.bIdx, Mins(c.segs, dir, minPx);
    if delta < 0.0 {
      var was, now := c.sizes[..b + 1], sizes[..b + 1];
      if far <= b { assert now[far] == sizes[far]; }
      if near <= b { assert now[near] == sizes[near]; }
      if far > b { assert sizes[far] == sizes[b + 1..][far - b - 1]; }
      if far < near <= b {
        assert Near(|was|, b - far, true) == far && Near(|was|, b - near, true) == near;
      }
    } else if delta > 0.0 {
      var was, now := c.sizes[b + 1..], sizes[b + 1..];
      if far > b { assert now[far - b - 1] == sizes[far]; }
      if near > b { assert now[near - b - 1] == sizes[near]; }
      if far <= b { assert sizes[far] == sizes[..b + 1][far]; }
      if b < near < far {
        assert Near(|was|, far - b - 1, false) == far - b - 1 && Near(|was|, near - b - 1, false) == near - b - 1;
      }
    }
  }

  // ---------------------------------------------------------------- what a drag looks like

  /** A stretch of a rectangle along an axis. */
  function Slice(r: Rect, dir: Direction, off: real, len: real): Rect
  {
    if dir == Horizontal then Rect(r.x, off, r.w, len) else Rect(off, r.y, len, r.h)
  }

  lemma SliceHalves(r: Rect, dir: Direction, q: real)
    requires 0.0 <= q <= 1.0
    ensures var (start, len) := AxisSpan(r, dir);
            SplitRect(r, dir, q) ==
              (Slice(r, dir, start, Share(len, q)), Slice(r, dir, start + Share(len, q), Share(len, 1.0 - q)))
  {
    SharesSum(r.h, q);
    SharesSum(r.w, q);
  }

  lemma SliceOfSlice(r: Rect, dir: Direction, off: real, len: real, off': real, len': real)
    ensures Slice(Slice(r, dir, off, len), dir, off', len') == Slice(r, dir, off', len')
    ensures AxisSpan(Slice(r, dir, off, len), dir) == (off, len)
    ensures Slice(r, dir, AxisSpan(r, dir).0, AxisSpan(r, dir).1) == r
  {
  }

  /** A pane of the i-th segment is drawn where that segment alone would draw it, in its own
      stretch of the run's rectangle. */
  ghost predicate LinedUp(n: TreeNode, r: Rect, dir: Direction, rs: Ratios, i: nat, id: string)
    requires i < |Flatten(n, dir)|
  {
    && id in Ids(n) && id in Ids(Flatten(n, dir)[i])
    && var sizes := SegmentSizes(n, dir, AxisSpan(r, dir).1, rs);
       Rects(n, r, rs)[id] ==
         Rects(Flatten(n, dir)[i], Slice(r, dir, AxisSpan(r, dir).0 + Sum(sizes[..i]), sizes[i]), rs)[id]
  }

  /** The layout lines a run's segments up by their sizes. */
  lemma {:induction false} SegmentsLinedUp(n: TreeNode, r: Rect, dir: Direction, rs: Ratios, i: nat, id: string)
    requires Distinct(n) && UnitRatios(Spine(n, dir), rs)
    requires i < |Flatten(n, dir)| && id in Ids(Flatten(n, dir)[i])
    ensures LinedUp(n, r, dir, rs, i, id)
  {
    hide LinedUp, Share, Slice, Sum, AxisSpan, SplitRect, Rects, MinSize, Ids;
    if n.Leaf? || n.split.dir != dir {
      AloneLinedUp(n, r, dir, rs, id);
    } else {
      RunParts(n, dir);
      var halves := SplitRect(r, dir, RatioIn(rs, n.split));
      var k := |Flatten(n.a, dir)|;
      if i < k {
        SegmentsLinedUp(n.a, halves.0, dir, rs, i, id);
        LinedUpFirst(n, r, dir, rs, i, id);
      } else {
        SegmentsLinedUp(n.b, halves.1, dir, rs, i - k, id);
        LinedUpSecond(n, r, dir, rs, i, id);
      }
    }
  }

  lemma AloneLinedUp(n: TreeNode, r: Rect, dir: Direction, rs: Ratios, id: string)
    requires (n.Leaf? || n.split.dir != dir) && id in Ids(n)
    ensures |Flatten(n, dir)| == 1 && LinedUp(n, r, dir, rs, 0, id)
  {
    hide Rects, Ids, Sum, Slice, AxisSpan;
    var (start, len) := AxisSpan(r, dir);
    SliceOfSlice(r, dir, start, len, start, len);
    assert SegmentSizes(n, dir, len, rs)[..0] == [];
    NoSum();
  }

  lemma LinedUpFirst(n: TreeNode, r: Rect, dir: Direction, rs: Ratios, i: nat, id: string)
    requires Distinct(n) && n.Inner? && n.split.dir == dir && 0.0 <= RatioIn(rs, n.split) <= 1.0
    requires i < |Flatten(n.a, dir)|
    requires LinedUp(n.a, SplitRect(r, dir, RatioIn(rs, n.split)).0, dir, rs, i, id)
    ensures LinedUp(n, r, dir, rs, i, id)
  {
    hide Share, Slice, Sum, AxisSpan, SplitRect, Rects, MinSize, Distinct;
    var (start, len) := AxisSpan(r, dir);
    var q := RatioIn(rs, n.split);
    var first := Share(len, q);
    var sa := SegmentSizes(n.a, dir, first, rs);
    SliceHalves(r, dir, q);
    HalfRects(n, r, rs, id);
    SliceOfSlice(r, dir, start, first, start + Sum(sa[..i]), sa[i]);
    assert SegmentSizes(n, dir, len, rs)[..i] == sa[..i];
  }

  lemma LinedUpSecond(n: TreeNode, r: Rect, dir: Direction, rs: Ratios, i: nat, id: string)
    requires Distinct(n) && n.Inner? && n.split.dir == dir && 0.0 <= RatioIn(rs, n.split) <= 1.0
    requires |Flatten(n.a, dir)| <= i < |Flatten(n, dir)|
    requires LinedUp(n.b, SplitRect(r, dir, RatioIn(rs, n.split)).1, dir, rs, i - |Flatten(n.a, dir)|, id)
    ensures LinedUp(n, r, dir, rs, i, id)
  {
    hide Share, Slice, Sum, AxisSpan, SplitRect, Rects, MinSize, Distinct;
    var (start, len) := AxisSpan(r, dir);
    var q, k := RatioIn(rs, n.split), |Flatten(n.a, dir)|;
    var first, second := Share(len, q), Share(len, 1.0 - q);
    var sb := SegmentSizes(n.b, dir, second, rs);
    SliceHalves(r, dir, q);
    HalfRects(n, r, rs, id);
    SliceOfSlice(r, dir, start + first, second, start + first + Sum(sb[..i - k]), sb[i - k]);
    SumPast(n, dir, len, rs, i);
  }

  /** The extent before a segment of the second half. */
  lemma SumPast(n: TreeNode, dir: Direction, total: real, rs: Ratios, i: nat)
    requires n.Inner? && n.split.dir == dir && |Flatten(n.a, dir)| <= i < |Flatten(n, dir)|
    ensures var q, k := RatioIn(rs, n.split), |Flatten(n.a, dir)|;
            var sb := SegmentSizes(n.b, dir, Share(total, 1.0 - q), rs);
            Sum(SegmentSizes(n, dir, total, rs)[..i]) == Share(total, q) + Sum(sb[..i - k])
  {
    hide Share, Sum;
    var q, k := RatioIn(rs, n.split), |Flatten(n.a, dir)|;
    var sa := SegmentSizes(n.a, dir, Share(total, q), rs);
    var sb := SegmentSizes(n.b, dir, Share(total, 1.0 - q), rs);
    SizesSum(n.a, dir, Share(total, q), rs);
    assert SegmentSizes(n, dir, total, rs)[..i] == sa + sb[..i - k];
    SumConcat(sa, sb[..i - k]);
  }

  /** A pane is drawn in the half it is in. */
  lemma HalfRects(n: TreeNode, r: Rect, rs: Ratios, id: string)
    requires Distinct(n) && n.Inner?
    ensures var halves := SplitRect(r, n.split.dir, RatioIn(rs, n.split));
            && (id in Ids(n.a) ==> Rects(n, r, rs)[id] == Rects(n.a, halves.0, rs)[id])
            && (id in Ids(n.b) ==> Rects(n, r, rs)[id] == Rects(n.b, halves.1, rs)[id])
  {
    hide SplitRect;
  }

  /** sub hangs somewhere under n. */
  predicate Under(n: TreeNode, sub: TreeNode)
  {
    n == sub || (n.Inner? && (Under(n.a, sub) || Under(n.b, sub)))
  }

  lemma {:induction false} UnderIn(n: TreeNode, sub: TreeNode)
    requires Under(n, sub)
    ensures Ids(sub) <= Ids(n) && Splits(sub) <= Splits(n)
  {
    if n != sub {
      UnderIn(if Under(n.a, sub) then n.a else n.b, sub);
    }
  }

  lemma {:induction false} TopIsUnder(n: TreeNode, target: Split)
    requires TopOf(n, target).Some?
    ensures Under(n, TopOf(n, target).value.0)
  {
    if n.Inner? && n.split != target {
      TopIsUnder(if TopOf(n.a, target).Some? then n.a else n.b, target);
    }
  }

  /** The whole layout draws a subtree's panes as the subtree alone, in the rectangle
      LocateSplit finds. */
  lemma {:induction false} DrawnWhereLocated(n: TreeNode, r: Rect, sub: TreeNode, rs: Ratios, id: string)
    requires Distinct(n) && Under(n, sub) && sub.Inner? && id in Ids(sub)
    ensures LocateSplit(n, r, sub.split, rs).Some? && id in Ids(n)
    ensures Rects(n, r, rs)[id] == Rects(sub, LocateSplit(n, r, sub.split, rs).value, rs)[id]
  {
    hide SplitRect;
    UnderIn(n, sub);
    if n != sub {
      var (ra, rb) := SplitRect(r, n.split.dir, RatioIn(rs, n.split));
      LocateFinds(n.a, ra, sub.split, rs);
      if Under(n.a, sub) {
        UnderIn(n.a, sub);
        DrawnWhereLocated(n.a, ra, sub, rs, id);
      } else {
        UnderIn(n.b, sub);
        DrawnWhereLocated(n.b, rb, sub, rs, id);
      }
    }
  }

  /** Ratios inside a subtree move neither the subtree nor anything outside it. */
  lemma {:induction false} OthersStay(n: TreeNode, r: Rect, sub: TreeNode, rs: Ratios, rs': Ratios)
    requires Distinct(n) && Under(n, sub) && sub.Inner?
    requires forall s :: s in Splits(n) && s !in Splits(sub) ==> RatioIn(rs, s) == RatioIn(rs', s)
    ensures LocateSplit(n, r, sub.split, rs) == LocateSplit(n, r, sub.split, rs')
    ensures forall id :: id in Ids(n) && id !in Ids(sub) ==> Rects(n, r, rs)[id] == Rects(n, r, rs')[id]
  {
    hide SplitRect;
    UnderIn(n, sub);
    if n != sub {
      var (ra, rb) := SplitRect(r, n.split.dir, RatioIn(rs, n.split));
      var inA := Under(n.a, sub);
      UnderIn(if inA then n.a else n.b, sub);
      assert n.split !in Splits(sub);
      LocateFinds(n.a, ra, sub.split, rs);
      LocateFinds(n.a, ra, sub.split, rs');
      if inA {
        OthersStay(n.a, ra, sub, rs, rs');
        RectsSame(n.b, rb, rs, rs');
      } else {
        OthersStay(n.b, rb, sub, rs, rs');
        RectsSame(n.a, ra, rs, rs');
      }
    }
  }

  lemma {:induction false} RectsSame(n: TreeNode, r: Rect, rs: Ratios, rs': Ratios)
    requires forall s :: s in Splits(n) ==> RatioIn(rs, s) == RatioIn(rs', s)
    ensures Rects(n, r, rs) == Rects(n, r, rs')
  {
    hide SplitRect;
    if n.Inner? {
      var (ra, rb) := SplitRect(r, n.split.dir, RatioIn(rs, n.split));
      RectsSame(n.a, ra, rs, rs');
      RectsSame(n.b, rb, rs, rs');
    }
  }

  /** Only ratios of the run change. */
  lemma DragWrites(c: Corridor, dir: Direction, x: real, minPx: real, rs: Ratios, sizes: seq<real>, after: Ratios, s: Split)
    requires Dragged(c, dir, x, minPx, rs, sizes, after) && s !in Spine(c.top, dir)
    ensures RatioIn(rs, s) == RatioIn(after, s)
  {
    hide Moved, ClampTo, WallLo, WallHi, BoundaryPos;
    AppliedElsewhere(c.top, dir, sizes, rs, s);
  }

  /** On the screen, a drag with room redraws each pane of the corridor inside its segment's
      new stretch, in line from the corridor's start, and moves no pane outside it. */
  lemma {:induction false} DragRedraws(c: Corridor, root: TreeNode, rootRect: Rect, target: Split, x: real, minPx: real, rs: Ratios,
    sizes: seq<real>, after: Ratios)
    requires Distinct(root) && IsCorridor(c, root, rootRect, target, rs)
    requires Dragged(c, target.dir, x, minPx, rs, sizes, after) && Room(c, target.dir, minPx, rs)
    ensures forall i, id :: 0 <= i < |sizes| && id in Ids(c.segs[i]) ==>
              && id in Ids(root)
              && Rects(root, rootRect, after)[id] ==
                   Rects(c.segs[i], Slice(c.rect, target.dir, c.start + Sum(sizes[..i]), sizes[i]), after)[id]
    ensures forall id :: id in Ids(root) && id !in Ids(c.top) ==>
              Rects(root, rootRect, after)[id] == Rects(root, rootRect, rs)[id]
  {
    hide Sum, Dragged, Applied, Room, Rects, Slice, MinSize, Distinct, Flatten, SegmentSizes, UnitRatios, Spine, Under,
      TopOf, BoundaryAt, LocateSplit, Mins;
    DragLands(c, root, rootRect, target, x, minPx, rs, sizes, after);
    DragFrame(c, root, rootRect, target, x, minPx, rs, sizes, after);
    forall i, id | 0 <= i < |sizes| && id in Ids(c.segs[i])
      ensures id in Ids(root)
      ensures Rects(root, rootRect, after)[id] ==
                Rects(c.segs[i], Slice(c.rect, target.dir, c.start + Sum(sizes[..i]), sizes[i]), after)[id]
    {
      SegmentsLinedUp(c.top, c.rect, target.dir, after, i, id);
      DrawnWhereLocated(root, rootRect, c.top, after, id);
    }
  }

  /** The corridor itself, and all outside it, stay where they were. */
  lemma DragFrame(c: Corridor, root: TreeNode, rootRect: Rect, target: Split, x: real, minPx: real, rs: Ratios,
    sizes: seq<real>, after: Ratios)
    requires Distinct(root) && IsCorridor(c, root, rootRect, target, rs)
    requires Dragged(c, target.dir, x, minPx, rs, sizes, after)
    ensures Under(root, c.top) && Distinct(c.top)
    ensures LocateSplit(root, rootRect, c.top.split, after) == Some(c.rect)
    ensures forall id :: id in Ids(root) && id !in Ids(c.top) ==>
              Rects(root, rootRect, after)[id] == Rects(root, rootRect, rs)[id]
  {
    hide Sum, Dragged, Rects, Under, Distinct, SegmentSizes, Flatten, BoundaryAt;
    TopIsWholeRun(root, target);
    TopIsUnder(root, target);
    forall s | s in Splits(root) && s !in Splits(c.top)
      ensures RatioIn(rs, s) == RatioIn(after, s)
    {
      DragWrites(c, target.dir, x, minPx, rs, sizes, after, s);
    }
    OthersStay(root, rootRect, c.top, rs, after);
  }
}
