/** client/pane/layout.go over the tree of client/pane/pane.go. A split is an object whose
    ratio is written in place; the tree's shape is a value holding those objects. Pixels
    and ratios are reals. */
module PaneLayout {
  import opened Options

  datatype Direction = Horizontal | Vertical

  class Split {
    const dir: Direction
    var ratio: real

    constructor (dir: Direction, ratio: real)
      ensures this.dir == dir && this.ratio == ratio
    {
      this.dir, this.ratio := dir, ratio;
    }
  }

  datatype TreeNode = Leaf(pane: string) | Inner(split: Split, a: TreeNode, b: TreeNode)

  datatype Rect = Rect(x: real, y: real, w: real, h: real)

  /** Half-open on the right and bottom edges. */
  predicate Contains(r: Rect, x: real, y: real)
  {
    x >= r.x && y >= r.y && x < r.x + r.w && y < r.y + r.h
  }

  function Splits(n: TreeNode): set<Split>
  {
    match n
    case Leaf(_) => {}
    case Inner(s, a, b) => {s} + Splits(a) + Splits(b)
  }

  function Ids(n: TreeNode): set<string>
  {
    match n
    case Leaf(id) => {id}
    case Inner(_, a, b) => Ids(a) + Ids(b)
  }

  /** Every pane and every split object occurs once. */
  ghost predicate Distinct(n: TreeNode)
  {
    match n
    case Leaf(_) => true
    case Inner(s, a, b) =>
      && s !in Splits(a) + Splits(b) && Splits(a) !! Splits(b) && Ids(a) !! Ids(b)
      && Distinct(a) && Distinct(b)
  }

  // ---------------------------------------------------------------- ratios at one moment

  /** client/pane/resize.go: every split's ratio under one node at one moment. */
  type Ratios = map<Split, real>

  function RatioIn(rs: Ratios, s: Split): real
  {
    if s in rs then rs[s] else 0.0
  }

  ghost function RatiosOf(n: TreeNode): Ratios
    reads Splits(n)
  {
    map s | s in Splits(n) :: s.ratio
  }

  /** The splits hold these ratios now. */
  ghost predicate Holds(n: TreeNode, rs: Ratios)
    reads Splits(n)
  {
    forall s :: s in Splits(n) ==> s.ratio == RatioIn(rs, s)
  }

  /** A tree in hand is made of existing splits. */
  lemma {:induction false} SplitsAllocated(n: TreeNode)
    ensures forall s :: s in Splits(n) ==> allocated(s)
  {
    if n.Inner? {
      SplitsAllocated(n.a);
      SplitsAllocated(n.b);
    }
  }

  /** Reading the ratios a press found. */
  method ReadRatios(n: TreeNode, r: Ratios) returns (rs: Ratios)
    ensures rs == r + RatiosOf(n)
    decreases n
  {
    if n.Leaf? {
      assert RatiosOf(n) == map[];
      return r;
    }
    SplitsAllocated(n);
    var own := r[n.split := n.split.ratio];
    var left := ReadRatios(n.a, own);
    rs := ReadRatios(n.b, left);
  }

  /** Putting every ratio back, in whatever order the map is walked. */
  method Restore(r: Ratios)
    modifies set s | s in r :: s`ratio
    ensures forall s :: s in r ==> s.ratio == r[s]
  {
    var todo := r.Keys;
    while |todo| > 0
      invariant todo <= r.Keys
      invariant forall s :: s in r && s !in todo ==> s.ratio == r[s]
      decreases |todo|
    {
      var s :| s in todo;
      s.ratio := r[s];
      todo := todo - {s};
    }
  }

  // ---------------------------------------------------------------- layout

  function Clamp01(x: real): (q: real)
    ensures 0.0 <= q <= 1.0 && (0.0 <= x <= 1.0 ==> q == x)
  {
    if x < 0.0 then 0.0 else if x > 1.0 then 1.0 else x
  }

  /** A share of a length. */
  function Share(w: real, q: real): real
  {
    w * q
  }

  /** It stays within the length. */
  lemma ShareBounds(w: real, q: real)
    requires 0.0 <= q <= 1.0
    ensures if w >= 0.0 then 0.0 <= Share(w, q) <= w else w <= Share(w, q) <= 0.0
  {
    assert Share(w, q) == w * q;
    if w >= 0.0 {
      PositiveShare(w, q);
    } else {
      NegativeShare(w, q);
    }
  }

  lemma PositiveShare(w: real, q: real)
    requires 0.0 <= q <= 1.0 && w >= 0.0
    ensures 0.0 <= w * q <= w
  {
    assert w * q >= 0.0;
    assert w * (1.0 - q) >= 0.0;
    assert w * (1.0 - q) == w - w * q;
  }

  lemma NegativeShare(w: real, q: real)
    requires 0.0 <= q <= 1.0 && w <= 0.0
    ensures w <= w * q <= 0.0
  {
    PositiveShare(-w, q);
    assert -w * q == -(w * q);
  }

  /** The two child rectangles; the first is the top or left one. */
  function SplitRect(r: Rect, dir: Direction, ratio: real): (Rect, Rect)
  {
    var q := Clamp01(ratio);
    if dir == Horizontal then
      (Rect(r.x, r.y, r.w, Share(r.h, q)), Rect(r.x, r.y + Share(r.h, q), r.w, r.h - Share(r.h, q)))
    else
      (Rect(r.x, r.y, Share(r.w, q), r.h), Rect(r.x + Share(r.w, q), r.y, r.w - Share(r.w, q), r.h))
  }

  /** Each pane's rectangle, at the given ratios. */
  function Rects(n: TreeNode, r: Rect, rs: Ratios): (out: map<string, Rect>)
    ensures out.Keys == Ids(n)
  {
    match n
    case Leaf(id) => map[id := r]
    case Inner(s, a, b) =>
      var halves := SplitRect(r, s.dir, RatioIn(rs, s));
      Rects(a, halves.0, rs) + Rects(b, halves.1, rs)
  }

  lemma MapAssoc<K, V>(a: map<K, V>, b: map<K, V>, c: map<K, V>)
    ensures (a + b) + c == a + (b + c)
  {
    var l, r := (a + b) + c, a + (b + c);
    assert l.Keys == r.Keys;
    forall k | k in l
      ensures k in r && l[k] == r[k]
    {
      if k in c {
      } else if k in b {
      }
    }
    assert l == r;
  }

  /** The walk that fills the map in. */
  method LayoutInto(n: TreeNode, r: Rect, out: map<string, Rect>, ghost rs: Ratios) returns (res: map<string, Rect>)
    requires Holds(n, rs)
    ensures res == out + Rects(n, r, rs)
    decreases n
  {
    hide SplitRect;
    if n.Leaf? {
      res := out[n.pane := r];
      assert res == out + map[n.pane := r];
    } else {
      var halves := SplitRect(r, n.split.dir, n.split.ratio);
      SplitsAllocated(n);
      var left := LayoutInto(n.a, halves.0, out, rs);
      res := LayoutInto(n.b, halves.1, left, rs);
      MapAssoc(out, Rects(n.a, halves.0, rs), Rects(n.b, halves.1, rs));
    }
  }

  /** A zoomed pane owns the whole rectangle; a zoom on no pane counts for nothing. */
  method Layout(root: TreeNode, zoomed: string, r: Rect) returns (out: map<string, Rect>)
    ensures out == if zoomed != "" && zoomed in Ids(root) then map[zoomed := r] else Rects(root, r, RatiosOf(root))
  {
    if zoomed != "" && zoomed in Ids(root) {
      return map[zoomed := r];
    }
    SplitsAllocated(root);
    ghost var rs := RatiosOf(root);
    out := LayoutInto(root, r, map[], rs);
  }

  /** A point of a rectangle is in exactly one of its halves. */
  lemma HalvesPart(r: Rect, dir: Direction, ratio: real, x: real, y: real)
    ensures var (ra, rb) := SplitRect(r, dir, ratio);
            && (Contains(r, x, y) <==> Contains(ra, x, y) || Contains(rb, x, y))
            && !(Contains(ra, x, y) && Contains(rb, x, y))
  {
    hide Share, Clamp01;
    ShareBounds(r.w, Clamp01(ratio));
    ShareBounds(r.h, Clamp01(ratio));
  }

  /** The panes tile the window: each point of it is in exactly one pane, and no pane
      reaches a point outside it. */
  lemma {:induction false} PanesTile(n: TreeNode, r: Rect, rs: Ratios, x: real, y: real)
    requires Distinct(n)
    ensures Contains(r, x, y) ==> exists id :: id in Rects(n, r, rs) && Contains(Rects(n, r, rs)[id], x, y)
    ensures forall id :: id in Rects(n, r, rs) && Contains(Rects(n, r, rs)[id], x, y) ==> Contains(r, x, y)
    ensures forall i, j ::
              (i in Rects(n, r, rs) && j in Rects(n, r, rs) &&
               Contains(Rects(n, r, rs)[i], x, y) && Contains(Rects(n, r, rs)[j], x, y)) ==> i == j
  {
    hide SplitRect, Contains;
    match n
    case Leaf(id) =>
      assert id in Rects(n, r, rs);
    case Inner(s, a, b) =>
      var (ra, rb) := SplitRect(r, s.dir, RatioIn(rs, s));
      HalvesPart(r, s.dir, RatioIn(rs, s), x, y);
      PanesTile(a, ra, rs, x, y);
      PanesTile(b, rb, rs, x, y);
      var all, first, second := Rects(n, r, rs), Rects(a, ra, rs), Rects(b, rb, rs);
      assert forall id :: id in first ==> id in all && all[id] == first[id];
      assert forall id :: id in second ==> id in all && all[id] == second[id];
      if Contains(r, x, y) {
        if Contains(ra, x, y) {
          var id :| id in first && Contains(first[id], x, y);
          assert id in all && Contains(all[id], x, y);
        } else {
          var id :| id in second && Contains(second[id], x, y);
          assert id in all && Contains(all[id], x, y);
        }
      }
  }

  /** A point is in the first half exactly when it is nearer the top, or the left, than the
      ratio's share of the rectangle, the ratio held between nothing and the whole. */
  lemma FirstHalfLeads(r: Rect, dir: Direction, ratio: real, x: real, y: real)
    ensures var q := if ratio < 0.0 then 0.0 else if ratio > 1.0 then 1.0 else ratio;
            Contains(SplitRect(r, dir, ratio).0, x, y) <==>
              Contains(r, x, y) && if dir == Horizontal then y < r.y + r.h * q else x < r.x + r.w * q
  {
    hide Share;
    var q := if ratio < 0.0 then 0.0 else if ratio > 1.0 then 1.0 else ratio;
    assert Share(r.h, q) == r.h * q && Share(r.w, q) == r.w * q by { IsShare(r.h, q); IsShare(r.w, q); }
    ShareBounds(r.w, q);
    ShareBounds(r.h, q);
  }

  lemma IsShare(w: real, q: real)
    ensures Share(w, q) == w * q
  {
  }

  /** Every pane of a split's first child lies above every pane of the second, or to its left
      when they are side by side. */
  lemma {:induction false} FirstChildLeads(n: TreeNode, r: Rect, rs: Ratios, i: string, j: string, x: real, y: real, u: real, v: real)
    requires Distinct(n) && n.Inner? && i in Ids(n.a) && j in Ids(n.b)
    requires Contains(Rects(n, r, rs)[i], x, y) && Contains(Rects(n, r, rs)[j], u, v)
    ensures if n.split.dir == Horizontal then y < v else x < u
  {
    hide SplitRect, Contains;
    var q := RatioIn(rs, n.split);
    var (ra, rb) := SplitRect(r, n.split.dir, q);
    assert Rects(n, r, rs)[i] == Rects(n.a, ra, rs)[i] && Rects(n, r, rs)[j] == Rects(n.b, rb, rs)[j];
    PanesTile(n.a, ra, rs, x, y);
    PanesTile(n.b, rb, rs, u, v);
    FirstHalfLeads(r, n.split.dir, q, x, y);
    FirstHalfLeads(r, n.split.dir, q, u, v);
    HalvesPart(r, n.split.dir, q, u, v);
  }
}
