/** client/pane/pane.go: the tree's structural edits, its focus and its zoom, and RemoveSegment
    of client/pane/resize.go. Which grid a pane shows is PaneCodec's; here a pane is its id. */
module PaneTree {
  import opened Options
  import opened PaneLayout
  import PaneCodec
  import PaneResize

  datatype Side = Top | Bottom | Left | Right

  function DirectionOf(s: Side): Direction
  {
    if s == Top || s == Bottom then Horizontal else Vertical
  }

  // ---------------------------------------------------------------- structural edits

  /** The leaf of a pane gives way to a subtree. */
  function Replace(n: TreeNode, id: string, sub: TreeNode): TreeNode
  {
    match n
    case Leaf(p) => if p == id then sub else n
    case Inner(s, a, b) => if id in Ids(a) then Inner(s, Replace(a, id, sub), b) else Inner(s, a, Replace(b, id, sub))
  }

  lemma {:induction false} ReplaceKeeps(n: TreeNode, id: string, sub: TreeNode)
    requires Distinct(n) && Distinct(sub) && id in Ids(n)
    requires Ids(sub) !! (Ids(n) - {id}) && Splits(sub) !! Splits(n)
    ensures Distinct(Replace(n, id, sub))
    ensures Ids(Replace(n, id, sub)) == Ids(n) - {id} + Ids(sub)
    ensures Splits(Replace(n, id, sub)) == Splits(n) + Splits(sub)
  {
    if n.Inner? {
      ReplaceKeeps(if id in Ids(n.a) then n.a else n.b, id, sub);
    }
  }

  lemma {:induction false} ReplaceIds(n: TreeNode, id: string, sub: TreeNode)
    ensures Ids(Replace(n, id, sub)) <= Ids(n) + Ids(sub)
  {
    if n.Inner? {
      ReplaceIds(n.a, id, sub);
      ReplaceIds(n.b, id, sub);
    }
  }

  /** Every other pane is drawn where it was, and the subtree in the place of the leaf. */
  lemma {:induction false} ReplaceDraws(n: TreeNode, id: string, sub: TreeNode, r: Rect, rs: Ratios)
    requires Distinct(n) && id in Ids(n) && Ids(sub) !! (Ids(n) - {id})
    ensures var now, was := Rects(Replace(n, id, sub), r, rs), Rects(n, r, rs);
            && (forall o :: o in Ids(n) && o != id && o !in Ids(sub) ==> o in now && now[o] == was[o])
            && (forall o :: o in Ids(sub) ==> o in now && now[o] == Rects(sub, was[id], rs)[o])
  {
    hide SplitRect;
    if n.Inner? {
      var halves := SplitRect(r, n.split.dir, RatioIn(rs, n.split));
      ReplaceIds(n.b, id, sub);
      if id in Ids(n.a) {
        ReplaceDraws(n.a, id, sub, halves.0, rs);
      } else {
        ReplaceDraws(n.b, id, sub, halves.1, rs);
      }
    }
  }

  /** A split's children change places. */
  function Flip(n: TreeNode, s: Split): TreeNode
  {
    if n.Leaf? then n
    else if n.split == s then Inner(s, n.b, n.a)
    else if s in Splits(n.a) then Inner(n.split, Flip(n.a, s), n.b) else Inner(n.split, n.a, Flip(n.b, s))
  }

  lemma {:induction false} FlipOfReplace(n: TreeNode, id: string, s: Split, x: TreeNode, y: TreeNode)
    requires Distinct(n) && id in Ids(n) && s !in Splits(n) && s !in Splits(x) + Splits(y)
    ensures Flip(Replace(n, id, Inner(s, x, y)), s) == Replace(n, id, Inner(s, y, x))
  {
    if n.Inner? {
      var sub := Inner(s, x, y);
      if id in Ids(n.a) {
        FlipOfReplace(n.a, id, s, x, y);
        ReplacedHas(n.a, id, sub, s);
      } else {
        FlipOfReplace(n.b, id, s, x, y);
      }
    }
  }

  lemma {:induction false} ReplacedHas(n: TreeNode, id: string, sub: TreeNode, s: Split)
    requires id in Ids(n) && s in Splits(sub)
    ensures s in Splits(Replace(n, id, sub))
  {
    if n.Inner? {
      ReplacedHas(if id in Ids(n.a) then n.a else n.b, id, sub, s);
    }
  }

  /** Two panes change places. */
  function Exchange(n: TreeNode, a: string, b: string): TreeNode
  {
    match n
    case Leaf(p) => Leaf(Exchanged(p, a, b))
    case Inner(s, l, r) => Inner(s, Exchange(l, a, b), Exchange(r, a, b))
  }

  function Exchanged(p: string, a: string, b: string): string
  {
    if p == a then b else if p == b then a else p
  }

  /** Each takes the other's rectangle and no other pane moves. */
  lemma {:induction false} ExchangeDraws(n: TreeNode, a: string, b: string, r: Rect, rs: Ratios)
    requires Distinct(n)
    ensures Distinct(Exchange(n, a, b)) && Splits(Exchange(n, a, b)) == Splits(n)
    ensures forall p :: p in Ids(n) <==> Exchanged(p, a, b) in Ids(Exchange(n, a, b))
    ensures forall p :: p in Ids(n) ==> Rects(Exchange(n, a, b), r, rs)[Exchanged(p, a, b)] == Rects(n, r, rs)[p]
  {
    hide SplitRect;
    if n.Inner? {
      var halves := SplitRect(r, n.split.dir, RatioIn(rs, n.split));
      ExchangeDraws(n.a, a, b, halves.0, rs);
      ExchangeDraws(n.b, a, b, halves.1, rs);
      ExchangeApart(n.a, n.b, a, b);
    }
  }

  lemma {:induction false} ExchangeApart(m: TreeNode, n: TreeNode, a: string, b: string)
    requires Ids(m) !! Ids(n)
    requires forall p :: p in Ids(m) <==> Exchanged(p, a, b) in Ids(Exchange(m, a, b))
    requires forall p :: p in Ids(n) <==> Exchanged(p, a, b) in Ids(Exchange(n, a, b))
    ensures Ids(Exchange(m, a, b)) !! Ids(Exchange(n, a, b))
  {
    forall q | q in Ids(Exchange(m, a, b))
      ensures q !in Ids(Exchange(n, a, b))
    {
      ExchangedTwice(q, a, b);
    }
  }

  lemma ExchangedTwice(p: string, a: string, b: string)
    ensures Exchanged(Exchanged(p, a, b), a, b) == p
  {
  }

  /** A subtree goes and its sibling is hoisted. */
  function Without(n: TreeNode, seg: TreeNode): TreeNode
  {
    if n.Leaf? then n
    else if n.a == seg then n.b
    else if n.b == seg then n.a
    else if PaneResize.Under(n.a, seg) then Inner(n.split, Without(n.a, seg), n.b)
    else Inner(n.split, n.a, Without(n.b, seg))
  }

  lemma {:induction false} WithoutKeeps(n: TreeNode, seg: TreeNode)
    requires Distinct(n) && PaneResize.Under(n, seg) && n != seg
    ensures Distinct(Without(n, seg)) && Ids(Without(n, seg)) == Ids(n) - Ids(seg)
    ensures Splits(Without(n, seg)) <= Splits(n) - Splits(seg)
  {
    if n.a != seg && n.b != seg {
      var child := if PaneResize.Under(n.a, seg) then n.a else n.b;
      PaneResize.UnderIn(child, seg);
      WithoutKeeps(child, seg);
    }
  }

  /** On screen the segment's sibling takes the whole of the rectangle the two shared, and every
      other pane stays where it was. */
  lemma {:induction false} WithoutDraws(n: TreeNode, seg: TreeNode, r: Rect, rs: Ratios) returns (s: Split, sib: TreeNode)
    requires Distinct(n) && PaneResize.Under(n, seg) && n != seg
    ensures PaneResize.Under(n, Inner(s, seg, sib)) || PaneResize.Under(n, Inner(s, sib, seg))
    ensures s in Splits(n) && Ids(sib) <= Ids(n) && PaneResize.LocateSplit(n, r, s, rs).Some?
    ensures var now, was, shared := Rects(Without(n, seg), r, rs), Rects(n, r, rs), PaneResize.LocateSplit(n, r, s, rs).value;
            && (forall id :: id in Ids(sib) ==> id in now && now[id] == Rects(sib, shared, rs)[id])
            && (forall id :: id in Ids(n) && id !in Ids(sib) && id !in Ids(seg) ==> id in now && now[id] == was[id])
  {
    hide SplitRect;
    if n.a == seg {
      s, sib := n.split, n.b;
    } else if n.b == seg {
      s, sib := n.split, n.a;
    } else {
      var halves := SplitRect(r, n.split.dir, RatioIn(rs, n.split));
      if PaneResize.Under(n.a, seg) {
        PaneResize.UnderIn(n.a, seg);
        s, sib := WithoutDraws(n.a, seg, halves.0, rs);
        WithoutKeeps(n.a, seg);
      } else {
        PaneResize.UnderIn(n.b, seg);
        s, sib := WithoutDraws(n.b, seg, halves.1, rs);
        WithoutKeeps(n.b, seg);
        Unlocated(n.a, halves.0, s, rs);
      }
    }
  }

  lemma {:induction false} Unlocated(n: TreeNode, r: Rect, s: Split, rs: Ratios)
    requires s !in Splits(n)
    ensures PaneResize.LocateSplit(n, r, s, rs).None?
  {
    hide SplitRect;
    if n.Inner? {
      var halves := SplitRect(r, n.split.dir, RatioIn(rs, n.split));
      Unlocated(n.a, halves.0, s, rs);
      Unlocated(n.b, halves.1, s, rs);
    }
  }

  function Size(n: TreeNode): (k: nat)
    ensures k >= 1
  {
    if n.Leaf? then 1 else Size(n.a) + Size(n.b)
  }

  lemma {:induction false} UnderIsSmaller(n: TreeNode, seg: TreeNode)
    requires PaneResize.Under(n, seg)
    ensures Size(seg) <= Size(n)
  {
    if n != seg {
      UnderIsSmaller(if PaneResize.Under(n.a, seg) then n.a else n.b, seg);
    }
  }

  /** What is under a child is not the whole. */
  lemma UnderAChild(n: TreeNode, seg: TreeNode)
    requires n.Inner? && (PaneResize.Under(n.a, seg) || PaneResize.Under(n.b, seg))
    ensures n != seg
  {
    UnderIsSmaller(if PaneResize.Under(n.a, seg) then n.a else n.b, seg);
  }

  /** Removing walks to the segment, the first child first. */
  method Removed(n: TreeNode, seg: TreeNode) returns (m: TreeNode, ok: bool)
    ensures ok <==> n != seg && PaneResize.Under(n, seg)
    ensures m == if ok then Without(n, seg) else n
    decreases n
  {
    if n.Leaf? {
      return n, false;
    }
    if PaneResize.Under(n.a, seg) || PaneResize.Under(n.b, seg) {
      UnderAChild(n, seg);
    }
    if n.a == seg {
      return n.b, true;
    }
    if n.b == seg {
      return n.a, true;
    }
    var x, inA := Removed(n.a, seg);
    if inA {
      return Inner(n.split, x, n.b), true;
    }
    var y, inB := Removed(n.b, seg);
    if inB {
      return Inner(n.split, n.a, y), true;
    }
    return n, false;
  }

  /** The first leaf with an id. */
  function AnyLeaf(n: TreeNode): string
  {
    match n
    case Leaf(p) => p
    case Inner(_, a, b) => if AnyLeaf(a) != "" then AnyLeaf(a) else AnyLeaf(b)
  }

  /** The panes in order, top to bottom and left to right within their splits. */
  function InOrder(n: TreeNode): (ids: seq<string>)
    ensures ids != [] && forall id :: id in ids <==> id in Ids(n)
  {
    match n
    case Leaf(p) => [p]
    case Inner(_, a, b) => InOrder(a) + InOrder(b)
  }

  /** The first of ids that is not empty is p. */
  ghost predicate Leads(ids: seq<string>, p: string) {
    exists k :: 0 <= k < |ids| && ids[k] == p && forall i :: 0 <= i < k ==> ids[i] == ""
  }

  /** It is the first pane in order that has an id, if any has. */
  lemma {:induction false} AnyLeafIsFirst(n: TreeNode)
    ensures Leads(InOrder(n), AnyLeaf(n))
    ensures AnyLeaf(n) == "" ==> forall id :: id in InOrder(n) ==> id == ""
  {
    if n.Leaf? {
      assert InOrder(n)[0] == AnyLeaf(n);
    } else {
      AnyLeafIsFirst(n.a);
      AnyLeafIsFirst(n.b);
      var a, b, all := InOrder(n.a), InOrder(n.b), InOrder(n);
      var p := AnyLeaf(n);
      if AnyLeaf(n.a) != "" {
        var k :| 0 <= k < |a| && a[k] == p && forall i :: 0 <= i < k ==> a[i] == "";
        assert all[k] == p && forall i :: 0 <= i < k ==> all[i] == a[i];
      } else {
        var k :| 0 <= k < |b| && b[k] == p && forall i :: 0 <= i < k ==> b[i] == "";
        forall i | 0 <= i < |a|
          ensures a[i] == ""
        {
          assert a[i] in InOrder(n.a);
        }
        assert all[|a| + k] == p && forall i :: 0 <= i < |a| + k ==> all[i] == if i < |a| then a[i] else b[i - |a|];
      }
    }
  }

  lemma {:induction false} AnyLeafIn(n: TreeNode)
    ensures AnyLeaf(n) in Ids(n)
  {
    if n.Inner? {
      AnyLeafIn(n.a);
      AnyLeafIn(n.b);
    }
  }

  // ---------------------------------------------------------------- the tree

  predicate NoRepeat(ids: seq<string>)
  {
    forall i, j :: 0 <= i < j < |ids| ==> ids[i] != ids[j]
  }

  /** Panes that held focus and are still here, but for the one it goes to. */
  function Filtered(ids: seq<string>, but: string, here: set<string>): (r: seq<string>)
    ensures forall p :: p in r <==> p in ids && p != but && p in here
  {
    if ids == [] then []
    else
      var rest, last := Filtered(ids[..|ids| - 1], but, here), ids[|ids| - 1];
      if last != but && last in here then rest + [last] else rest
  }

  lemma FilteredNone(but: string, here: set<string>)
    ensures Filtered([], but, here) == []
  {
  }

  lemma FilteredNext(ids: seq<string>, k: nat, but: string, here: set<string>)
    requires k < |ids|
    ensures Filtered(ids[..k + 1], but, here) ==
              Filtered(ids[..k], but, here) + if ids[k] != but && ids[k] in here then [ids[k]] else []
  {
    assert ids[..k + 1][..k] == ids[..k];
  }

  lemma {:induction false} FilteredNoRepeat(ids: seq<string>, but: string, here: set<string>)
    requires NoRepeat(ids)
    ensures NoRepeat(Filtered(ids, but, here))
  {
    if ids != [] {
      var k := |ids| - 1;
      FilteredNoRepeat(ids[..k], but, here);
      assert ids[k] !in ids[..k];
      assert ids[k] !in Filtered(ids[..k], but, here);
    }
  }

  /** Panes kept stand in the order they stood. */
  lemma {:induction false} FilteredInOrder(ids: seq<string>, but: string, here: set<string>, i: nat, j: nat)
    requires i < j < |Filtered(ids, but, here)|
    ensures exists k, l :: 0 <= k < l < |ids| && ids[k] == Filtered(ids, but, here)[i] && ids[l] == Filtered(ids, but, here)[j]
  {
    var n := |ids| - 1;
    var rest := Filtered(ids[..n], but, here);
    if j < |rest| {
      FilteredInOrder(ids[..n], but, here, i, j);
      var k, l :| 0 <= k < l < n && ids[..n][k] == rest[i] && ids[..n][l] == rest[j];
      assert ids[k] == rest[i] && ids[l] == rest[j];
    } else {
      assert rest[i] in ids[..n];
      var k :| 0 <= k < n && ids[..n][k] == rest[i];
      assert ids[k] == rest[i] && ids[n] == Filtered(ids, but, here)[j];
    }
  }

  class Tree {
    var root: TreeNode
    var focus: string
    /** The panes that held focus before, most recent first. */
    var prior: seq<string>
    var zoomed: string
    var nextId: nat
    const prefix: string

    /** Every pane and split occurs once, the focus is on one of them and is not among those it
        left, a zoom is on one, and no id still to be minted is taken. */
    ghost predicate Valid()
      reads this
    {
      && Distinct(root) && "" !in Ids(root)
      && focus in Ids(root) && (zoomed == "" || zoomed in Ids(root))
      && NoRepeat([focus] + prior)
      && (forall n: nat :: n > nextId ==> PaneCodec.MintId(prefix, n) !in Ids(root))
    }

    constructor ()
      ensures Valid() && root == Leaf("p1") && focus == "p1" && prior == [] && zoomed == "" && prefix == ""
    {
      root, focus, prior, zoomed, nextId, prefix := Leaf("p1"), "p1", [], "", 1, "";
      new;
      forall n: nat | n > 1 ensures PaneCodec.MintId("", n) != "p1" {
        OtherNumber(n, 1);
      }
    }

    /** Moves the focus, remembering where it was. */
    method SetFocus(id: string) returns (ok: bool)
      requires Valid()
      modifies this`focus, this`prior
      ensures Valid() && ok == (id in Ids(root))
      ensures ok ==> focus == id
      ensures !ok || id == old(focus) ==> focus == old(focus) && prior == old(prior)
      ensures ok && id != old(focus) ==> prior == [old(focus)] + Filtered(old(prior), id, Ids(root))
    {
      if id !in Ids(root) {
        return false;
      }
      Focus(id);
      return true;
    }

    /** The one writer of the focus that keeps prior true. */
    method Focus(id: string)
      requires NoRepeat([focus] + prior)
      modifies this`focus, this`prior
      ensures focus == id && NoRepeat([focus] + prior)
      ensures id == old(focus) ==> prior == old(prior)
      ensures id != old(focus) ==>
                prior == (if old(focus) in Ids(root) then [old(focus)] else []) + Filtered(old(prior), id, Ids(root))
    {
      hide Filtered, NoRepeat, Ids;
      if id == focus {
        return;
      }
      FilteredNone(id, Ids(root));
      var before: seq<string> := if focus in Ids(root) then [focus] else [];
      var k := 0;
      assert prior[..k] == [];
      while k < |prior|
        invariant 0 <= k <= |prior| && focus == old(focus) && prior == old(prior)
        invariant before == (if focus in Ids(root) then [focus] else []) + Filtered(prior[..k], id, Ids(root))
      {
        FilteredNext(prior, k, id, Ids(root));
        if prior[k] != id && prior[k] in Ids(root) {
          before := before + [prior[k]];
        }
        k := k + 1;
      }
      assert prior[..k] == prior;
      FocusNoRepeat(focus, prior, id, Ids(root));
      focus, prior := id, before;
    }

    /** Unknown ids are ignored. */
    method ToggleZoom(id: string)
      requires Valid()
      modifies this`zoomed
      ensures Valid()
      ensures zoomed == if old(zoomed) == id then "" else if id in Ids(root) then id else old(zoomed)
    {
      if zoomed == id {
        zoomed := "";
        return;
      }
      if id in Ids(root) {
        zoomed := id;
      }
    }

    /** Splits the focused pane so that a new one, under an id never used, takes a side of it
        at a share of its extent, and focuses it. */
    method SplitOnSideAt(side: Side, ratio: real) returns (id: string, s: Split)
      requires Valid()
      modifies this
      ensures Valid() && fresh(s) && s.dir == DirectionOf(side)
      ensures id !in Ids(old(root)) && focus == id && zoomed == "" && nextId == old(nextId) + 1
      ensures root == Replace(old(root), old(focus), Pair(s, side, old(focus), id))
      ensures s.ratio == if side == Top || side == Left then Clamp01(ratio) else 1.0 - Clamp01(ratio)
    {
      hide Replace, Flip, NoRepeat, Clamp01, PaneCodec.MintId;
      zoomed := "";
      nextId := nextId + 1;
      id := PaneCodec.MintId(prefix, nextId);
      SplitsAllocated(root);
      ghost var was := root;
      s := new Split(DirectionOf(side), 0.5);
      assert s !in Splits(was);
      var pair := Inner(s, Leaf(focus), Leaf(id));
      root := Replace(root, focus, pair);
      NewIdIsNew(prefix, nextId);
      ReplaceKeeps(was, focus, pair);
      if side == Top || side == Left {
        FlipOfReplace(was, focus, s, Leaf(focus), Leaf(id));
        ReplaceKeeps(was, focus, Inner(s, Leaf(id), Leaf(focus)));
        root := Flip(root, s);
        s.ratio := Clamp01(ratio);
      } else {
        s.ratio := 1.0 - Clamp01(ratio);
      }
      forall n: nat | n > nextId ensures PaneCodec.MintId(prefix, n) !in Ids(root) {
        MintsDiffer(prefix, n, nextId);
      }
      Focus(id);
    }

    /** Exchanges two panes; an unknown one is refused, though the zoom is already gone. */
    method Swap(a: string, b: string) returns (ok: bool)
      requires Valid()
      modifies this`root, this`zoomed
      ensures Valid() && ok == (a == b || (a in Ids(root) && b in Ids(root)))
      ensures zoomed == if a == b then old(zoomed) else ""
      ensures root == if ok && a != b then Exchange(old(root), a, b) else old(root)
    {
      hide Exchange, Distinct, Ids;
      if a == b {
        return true;
      }
      zoomed := "";
      if a !in Ids(root) || b !in Ids(root) {
        return false;
      }
      SameIds(root, a, b);
      root := Exchange(root, a, b);
      return true;
    }

    /** A segment goes, never the whole tree; a focus that went with it lands on a leaf. */
    method RemoveSegment(seg: TreeNode) returns (ok: bool)
      requires Valid()
      modifies this`root, this`zoomed, this`focus, this`prior
      ensures Valid() && ok == (seg != old(root) && PaneResize.Under(old(root), seg))
      ensures !ok ==> root == old(root) && focus == old(focus) && zoomed == old(zoomed) && prior == old(prior)
      ensures ok ==> root == Without(old(root), seg) && Ids(root) == Ids(old(root)) - Ids(seg) && zoomed == ""
      ensures ok ==> focus == if old(focus) in Ids(seg) then AnyLeaf(root) else old(focus)
    {
      if root == seg {
        return false;
      }
      var m;
      m, ok := Removed(root, seg);
      if !ok {
        return;
      }
      WithoutKeeps(root, seg);
      root := m;
      zoomed := "";
      AnyLeafIn(root);
      if focus !in Ids(root) {
        Focus(AnyLeaf(root));
      }
    }
  }

  lemma FocusNoRepeat(focus: string, prior: seq<string>, id: string, here: set<string>)
    requires NoRepeat([focus] + prior) && id != focus
    ensures NoRepeat([id] + ((if focus in here then [focus] else []) + Filtered(prior, id, here)))
  {
    var all := [focus] + prior;
    assert forall i :: 0 <= i < |prior| ==> prior[i] == all[i + 1];
    assert NoRepeat(prior);
    FilteredNoRepeat(prior, id, here);
    forall i | 0 <= i < |prior| ensures prior[i] != focus {
      assert all[i + 1] == prior[i] && all[0] == focus;
    }
    assert focus !in Filtered(prior, id, here) && id !in Filtered(prior, id, here);
  }

  /** Numbers written apart are apart. */
  lemma OtherNumber(m: nat, n: nat)
    requires m != n
    ensures PaneCodec.MintId("", m) != PaneCodec.MintId("", n)
  {
    MintsDiffer("", m, n);
  }

  lemma MintsDiffer(prefix: string, m: nat, n: nat)
    requires m != n
    ensures PaneCodec.MintId(prefix, m) != PaneCodec.MintId(prefix, n)
  {
    PaneCodec.MintIsNumber(prefix, m);
    PaneCodec.MintIsNumber(prefix, n);
  }

  lemma NewIdIsNew(prefix: string, n: nat)
    ensures PaneCodec.MintId(prefix, n) != ""
  {
  }

  lemma ExchangeKeeps(n: TreeNode, a: string, b: string)
    requires Distinct(n)
    ensures Distinct(Exchange(n, a, b))
    ensures forall p :: p in Ids(n) <==> Exchanged(p, a, b) in Ids(Exchange(n, a, b))
  {
    hide Rects, Exchange, Distinct, Ids;
    ExchangeDraws(n, a, b, Rect(0.0, 0.0, 0.0, 0.0), map[]);
  }

  lemma {:induction false} SameIds(n: TreeNode, a: string, b: string)
    requires a in Ids(n) && b in Ids(n) && Distinct(n)
    ensures Ids(Exchange(n, a, b)) == Ids(n) && Distinct(Exchange(n, a, b))
  {
    hide Exchange, Ids, Distinct;
    ExchangeKeeps(n, a, b);
    forall p ensures p in Ids(Exchange(n, a, b)) <==> p in Ids(n) {
      ExchangedTwice(p, a, b);
    }
  }

  /** The share of a rectangle from one of its sides. */
  function SideOf(r: Rect, side: Side, q: real): Rect
  {
    match side
    case Top => Rect(r.x, r.y, r.w, Share(r.h, q))
    case Left => Rect(r.x, r.y, Share(r.w, q), r.h)
    case Bottom => Rect(r.x, r.y + Share(r.h, 1.0 - q), r.w, Share(r.h, q))
    case Right => Rect(r.x + Share(r.w, 1.0 - q), r.y, Share(r.w, q), r.h)
  }

  /** What is left of it. */
  function RestOf(r: Rect, side: Side, q: real): Rect
  {
    match side
    case Top => Rect(r.x, r.y + Share(r.h, q), r.w, Share(r.h, 1.0 - q))
    case Left => Rect(r.x + Share(r.w, q), r.y, Share(r.w, 1.0 - q), r.h)
    case Bottom => Rect(r.x, r.y, r.w, Share(r.h, 1.0 - q))
    case Right => Rect(r.x, r.y, Share(r.w, 1.0 - q), r.h)
  }

  lemma SplitSides(r: Rect, side: Side, q: real)
    requires 0.0 <= q <= 1.0
    ensures side == Top || side == Left ==> SplitRect(r, DirectionOf(side), q) == (SideOf(r, side, q), RestOf(r, side, q))
    ensures side == Bottom || side == Right ==> SplitRect(r, DirectionOf(side), 1.0 - q) == (RestOf(r, side, q), SideOf(r, side, q))
  {
    hide Share;
    PaneResize.SharesSum(r.h, q);
    PaneResize.SharesSum(r.w, q);
  }

  /** The subtree a split puts in the focused pane's place. */
  function Pair(s: Split, side: Side, id: string, more: string): TreeNode
  {
    if side == Top || side == Left then Inner(s, Leaf(more), Leaf(id)) else Inner(s, Leaf(id), Leaf(more))
  }

  /** A split leaves every other pane where it was; of the pane it split, the new one takes the
      asked share from its side and the old one keeps the rest. */
  lemma SplitDraws(n: TreeNode, id: string, more: string, s: Split, side: Side, ratio: real, r: Rect, rs: Ratios)
    requires Distinct(n) && id in Ids(n) && more !in Ids(n) && s.dir == DirectionOf(side)
    requires RatioIn(rs, s) == if side == Top || side == Left then Clamp01(ratio) else 1.0 - Clamp01(ratio)
    ensures var now, was, q := Rects(Replace(n, id, Pair(s, side, id, more)), r, rs), Rects(n, r, rs), Clamp01(ratio);
            && (forall o :: o in Ids(n) && o != id ==> o in now && now[o] == was[o])
            && more in now && now[more] == SideOf(was[id], side, q)
            && id in now && now[id] == RestOf(was[id], side, q)
  {
    hide Rects, Replace, SideOf, RestOf, SplitRect, Clamp01, Distinct, RatioIn;
    var pair := Pair(s, side, id, more);
    assert Ids(pair) == {id, more};
    ReplaceDraws(n, id, pair, r, rs);
    PairDraws(pair, Rects(n, r, rs)[id], rs);
    SplitSides(Rects(n, r, rs)[id], side, Clamp01(ratio));
  }

  lemma PairDraws(pair: TreeNode, r: Rect, rs: Ratios)
    requires pair.Inner? && pair.a.Leaf? && pair.b.Leaf? && pair.a.pane != pair.b.pane
    ensures var halves := SplitRect(r, pair.split.dir, RatioIn(rs, pair.split));
            && pair.a.pane in Rects(pair, r, rs) && pair.b.pane in Rects(pair, r, rs)
            && Rects(pair, r, rs)[pair.a.pane] == halves.0 && Rects(pair, r, rs)[pair.b.pane] == halves.1
  {
  }
}
