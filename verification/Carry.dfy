/** client/dragdrop/carry.go: the tiles one drag carries, and the order their placements go
    to the node in. Cells are unbounded integers. */
module Carry {

  datatype Member = Member(id: string, x: int, y: int, w: int, h: int)
  type Members = seq<Member>

  /** client/dragdrop/dragdrop.go: the overlap check the node applies. */
  predicate RectsOverlap(x: int, y: int, w: int, h: int, ox: int, oy: int, ow: int, oh: int)
  {
    x < ox + ow && ox < x + w && y < oy + oh && oy < y + h
  }

  /** The cells a rectangle covers. */
  predicate Covers(x: int, y: int, w: int, h: int, cx: int, cy: int)
  {
    x <= cx < x + w && y <= cy < y + h
  }

  /** Two tiles overlap exactly when some cell is in both. */
  lemma OverlapIsSharedCell(x: int, y: int, w: int, h: int, ox: int, oy: int, ow: int, oh: int)
    requires w > 0 && h > 0 && ow > 0 && oh > 0
    ensures RectsOverlap(x, y, w, h, ox, oy, ow, oh) <==>
            exists cx, cy :: Covers(x, y, w, h, cx, cy) && Covers(ox, oy, ow, oh, cx, cy)
  {
    if RectsOverlap(x, y, w, h, ox, oy, ow, oh) {
      var cx, cy := if x < ox then ox else x, if y < oy then oy else y;
      assert Covers(x, y, w, h, cx, cy) && Covers(ox, oy, ow, oh, cx, cy);
    }
  }

  predicate Overlap(a: Member, b: Member)
  {
    RectsOverlap(a.x, a.y, a.w, a.h, b.x, b.y, b.w, b.h)
  }

  /** A member moved by an offset. */
  function Shift(m: Member, dx: int, dy: int): Member
  {
    m.(x := m.x + dx, y := m.y + dy)
  }

  predicate Has(c: Members, id: string)
  {
    exists i :: 0 <= i < |c| && c[i].id == id
  }

  /** Every member's footprint when the grabbed one, the first, lands at (x, y). */
  function At(c: Members, x: int, y: int): (to: Members)
    ensures |to| == |c|
    ensures c != [] ==> forall i :: 0 <= i < |c| ==> to[i] == Shift(c[i], x - c[0].x, y - c[0].y)
  {
    seq(|c|, i requires 0 <= i < |c| =>
      Member(c[i].id, x + (c[i].x - c[0].x), y + (c[i].y - c[0].y), c[i].w, c[i].h))
  }

  /** Member i's landing meets another member still where the press found it. */
  ghost predicate IsBlocked(c: Members, to: Members, moved: seq<bool>, i: int)
    requires |to| == |c| == |moved| && 0 <= i < |c|
  {
    exists j :: 0 <= j < |c| && j != i && !moved[j] && Overlap(to[i], c[j])
  }

  /** Real tiles, no two on one cell: what a grid holds. */
  ghost predicate Disjoint(c: Members)
  {
    && (forall i :: 0 <= i < |c| ==> c[i].w > 0 && c[i].h > 0)
    && (forall i, j :: 0 <= i < j < |c| ==> !Overlap(c[i], c[j]))
  }

  // ---------------------------------------------------------------- someone can always move

  ghost predicate Indices(c: Members, s: set<int>)
  {
    forall i :: i in s ==> 0 <= i < |c|
  }

  /** In a drag toward growing x and y, j can only be in i's way if it reaches past i's low corner. */
  ghost predicate Ahead(c: Members, i: int, j: int)
    requires 0 <= i < |c| && 0 <= j < |c|
  {
    c[j].x + c[j].w > c[i].x && c[j].y + c[j].h > c[i].y
  }

  ghost predicate Rightmost(c: Members, s: set<int>, m: int)
    requires Indices(c, s)
  {
    m in s && forall i :: i in s ==> c[i].x <= c[m].x
  }

  lemma Pick<T>(s: set<T>) returns (a: T)
    requires |s| > 0
    ensures a in s
  {
    a :| a in s;
  }

  lemma {:induction false} SomeRightmost(c: Members, s: set<int>) returns (m: int)
    requires |s| > 0 && Indices(c, s)
    ensures Rightmost(c, s, m)
    decreases |s|
  {
    var a := Pick(s);
    if s - {a} == {} {
      assert s == {a};
      m := a;
    } else {
      assert |s - {a}| == |s| - 1;
      var b := SomeRightmost(c, s - {a});
      m := if c[a].x > c[b].x then a else b;
    }
  }

  /** Through the member furthest right, being ahead is transitive. */
  lemma AheadThroughRightmost(c: Members, s: set<int>, m: int, i: int, j: int)
    requires Disjoint(c) && Indices(c, s) && Rightmost(c, s, m)
    requires i in s && j in s && j != m && Ahead(c, i, m) && Ahead(c, m, j)
    ensures Ahead(c, i, j)
  {
    assert !Overlap(c[m], c[j]) by {
      if m < j { assert !Overlap(c[m], c[j]); } else { assert !Overlap(c[j], c[m]); }
    }
  }

  lemma NotBothAhead(c: Members, i: int, j: int)
    requires Disjoint(c) && 0 <= i < |c| && 0 <= j < |c| && i != j
    ensures !(Ahead(c, i, j) && Ahead(c, j, i))
  {
    if i < j { assert !Overlap(c[i], c[j]); } else { assert !Overlap(c[j], c[i]); }
  }

  /** Among disjoint tiles there is always one with nothing ahead of it. */
  lemma {:induction false} NothingAhead(c: Members, s: set<int>) returns (sink: int)
    requires Disjoint(c) && |s| > 0 && Indices(c, s)
    ensures sink in s && forall j :: j in s && j != sink ==> !Ahead(c, sink, j)
    decreases |s|
  {
    var m := SomeRightmost(c, s);
    if s - {m} == {} {
      assert s == {m};
      return m;
    }
    assert |s - {m}| == |s| - 1;
    var i := NothingAhead(c, s - {m});
    if !Ahead(c, i, m) {
      return i;
    }
    forall j | j in s && j != m
      ensures !Ahead(c, m, j)
    {
      if Ahead(c, m, j) {
        if j == i {
          NotBothAhead(c, i, m);
        } else {
          AheadThroughRightmost(c, s, m, i, j);
        }
      }
    }
    return m;
  }

  /** Member i, moved, runs into no other member of s where it still lies. */
  ghost predicate Clear(c: Members, s: set<int>, dx: int, dy: int, i: int)
    requires 0 <= i < |c| && Indices(c, s)
  {
    forall j :: j in s && j != i ==> !Overlap(Shift(c[i], dx, dy), c[j])
  }

  function MirrorX(c: Members): (d: Members)
    ensures |d| == |c| && forall i :: 0 <= i < |c| ==> d[i] == c[i].(x := -c[i].x - c[i].w)
  {
    seq(|c|, i requires 0 <= i < |c| => c[i].(x := -c[i].x - c[i].w))
  }

  function MirrorY(c: Members): (d: Members)
    ensures |d| == |c| && forall i :: 0 <= i < |c| ==> d[i] == c[i].(y := -c[i].y - c[i].h)
  {
    seq(|c|, i requires 0 <= i < |c| => c[i].(y := -c[i].y - c[i].h))
  }

  /** Whatever the offset, some member of a disjoint set can move first; the other three
      directions are mirror images of down and right. */
  lemma SomeClear(c: Members, s: set<int>, dx: int, dy: int) returns (i: int)
    requires Disjoint(c) && |s| > 0 && Indices(c, s)
    ensures i in s && Clear(c, s, dx, dy, i)
    decreases dx < 0, dy < 0
  {
    if dx < 0 {
      i := SomeClear(MirrorX(c), s, -dx, dy);
      forall j | j in s && j != i ensures !Overlap(Shift(c[i], dx, dy), c[j]) {
        assert !Overlap(Shift(MirrorX(c)[i], -dx, dy), MirrorX(c)[j]);
      }
    } else if dy < 0 {
      i := SomeClear(MirrorY(c), s, dx, -dy);
      forall j | j in s && j != i ensures !Overlap(Shift(c[i], dx, dy), c[j]) {
        assert !Overlap(Shift(MirrorY(c)[i], dx, -dy), MirrorY(c)[j]);
      }
    } else {
      i := NothingAhead(c, s);
    }
  }

  // ---------------------------------------------------------------- the order

  ghost predicate Permutation(order: seq<int>, n: nat)
  {
    && |order| == n
    && (forall k :: 0 <= k < n ==> 0 <= order[k] < n)
    && (forall k, l :: 0 <= k < l < n ==> order[k] != order[l])
  }

  /** Placed in this order, no landing meets a member that has not moved yet. */
  ghost predicate SafeUpTo(c: Members, to: Members, order: seq<int>, cut: int)
    requires |to| == |c| && cut <= |order| && forall k :: 0 <= k < |order| ==> 0 <= order[k] < |c|
  {
    forall k, l :: 0 <= k < cut && k < l < |order| ==> !Overlap(to[order[k]], c[order[l]])
  }

  ghost predicate IsSafeOrder(c: Members, to: Members, order: seq<int>)
    requires |to| == |c|
  {
    Permutation(order, |c|) && SafeUpTo(c, to, order, |c|)
  }

  /** The scan for a member in i's way. */
  method Blocked(c: Members, to: Members, i: nat, moved: array<bool>) returns (yes: bool)
    requires |to| == |c| && i < |c| && moved.Length == |c|
    ensures yes <==> IsBlocked(c, to, moved[..], i)
  {
    var l := to[i];
    var j := 0;
    while j < |c|
      invariant 0 <= j <= |c|
      invariant forall k :: 0 <= k < j && k != i && !moved[k] ==> !Overlap(l, c[k])
    {
      if j != i && !moved[j] && RectsOverlap(l.x, l.y, l.w, l.h, c[j].x, c[j].y, c[j].w, c[j].h) {
        return true;
      }
      j := j + 1;
    }
    return false;
  }

  /** The first unmoved member whose landing is clear of the others, -1 with none. */
  method NextClear(c: Members, to: Members, moved: array<bool>) returns (next: int)
    requires |to| == |c| == moved.Length
    ensures next == -1 || 0 <= next < |c|
    ensures next >= 0 ==> !moved[next] && !IsBlocked(c, to, moved[..], next)
    ensures forall i {:trigger IsBlocked(c, to, moved[..], i)} ::
              0 <= i < (if next < 0 then |c| else next) && !moved[i] ==> IsBlocked(c, to, moved[..], i)
  {
    var i := 0;
    while i < |c|
      invariant 0 <= i <= |c|
      invariant forall k {:trigger IsBlocked(c, to, moved[..], k)} ::
                  0 <= k < i && !moved[k] ==> IsBlocked(c, to, moved[..], k)
    {
      if !moved[i] {
        var b := Blocked(c, to, i, moved);
        if !b {
          return i;
        }
      }
      i := i + 1;
    }
    return -1;
  }

  /** What is true of the placements chosen so far. */
  ghost predicate Chosen(c: Members, to: Members, moved: seq<bool>, order: seq<int>)
    requires |to| == |c| == |moved|
  {
    && (forall k :: 0 <= k < |order| ==> 0 <= order[k] < |c| && moved[order[k]])
    && (forall k, l :: 0 <= k < l < |order| ==> order[k] != order[l])
    && (forall i :: 0 <= i < |c| && moved[i] ==> i in order)
    && (forall k, l :: 0 <= k < l < |order| ==> !Overlap(to[order[k]], c[order[l]]))
    && (forall k, i :: 0 <= k < |order| && 0 <= i < |c| && !moved[i] ==> !Overlap(to[order[k]], c[i]))
  }

  ghost function Below(n: nat): (all: set<int>)
    ensures |all| == n && forall i :: i in all <==> 0 <= i < n
  {
    if n == 0 then {} else Below(n - 1) + {n - 1}
  }

  ghost function Elements(order: seq<int>): set<int>
  {
    set i | i in order
  }

  lemma {:induction false} CountDistinct(order: seq<int>)
    requires forall k, l :: 0 <= k < l < |order| ==> order[k] != order[l]
    ensures |Elements(order)| == |order|
  {
    if order != [] {
      var n := |order| - 1;
      CountDistinct(order[..n]);
      assert order == order[..n] + [order[n]];
      assert Elements(order) == Elements(order[..n]) + {order[n]};
    }
  }

  lemma {:induction false} Subsets(a: set<int>, b: set<int>)
    requires a <= b
    ensures |a| <= |b| && (|a| == |b| ==> a == b)
  {
    assert |b - a| == |b| - |a|;
    if |b - a| == 0 {
      assert b - a == {};
    }
  }

  /** Distinct indices below n are at most n, and n exactly when none is missing. */
  lemma AtMost(order: seq<int>, n: nat)
    requires forall k :: 0 <= k < |order| ==> 0 <= order[k] < n
    requires forall k, l :: 0 <= k < l < |order| ==> order[k] != order[l]
    ensures |order| <= n
    ensures |order| == n <==> forall i :: 0 <= i < n ==> i in order
  {
    CountDistinct(order);
    Subsets(Elements(order), Below(n));
    if forall i :: 0 <= i < n ==> i in order {
      assert Below(n) == Elements(order);
    }
    if |order| == n {
      forall i | 0 <= i < n ensures i in order { assert i in Below(n); }
    }
  }

  /** Nobody left can move: each unmoved member's landing meets another unmoved one. */
  ghost predicate Stuck(c: Members, to: Members, moved: seq<bool>)
    requires |to| == |c| == |moved|
  {
    forall i {:trigger IsBlocked(c, to, moved, i)} ::
      0 <= i < |c| && !moved[i] ==> IsBlocked(c, to, moved, i)
  }

  /** Where an index stands in an order of all of them. */
  lemma Turn(order: seq<int>, n: nat, i: nat) returns (k: nat)
    requires Permutation(order, n) && i < n
    ensures k < n && order[k] == i
  {
    AtMost(order, n);
    assert i in order;
    k :| 0 <= k < |order| && order[k] == i;
  }

  /** The first of the unmoved to appear in an order. */
  lemma FirstUnmoved(moved: seq<bool>, i: nat, order: seq<int>) returns (k: nat)
    requires Permutation(order, |moved|) && i < |moved| && !moved[i]
    ensures k < |order| && !moved[order[k]] && forall l :: 0 <= l < k ==> moved[order[l]]
  {
    var at := Turn(order, |moved|, i);
    k := 0;
    while moved[order[k]]
      invariant 0 <= k <= at && forall l :: 0 <= l < k ==> moved[order[l]]
      decreases at - k
    {
      k := k + 1;
    }
  }

  /** A set that is stuck is in no safe order: whoever of it goes first meets another of it. */
  lemma StuckHasNoSafeOrder(c: Members, to: Members, moved: seq<bool>, i: nat, order: seq<int>)
    requires |to| == |c| == |moved| && Stuck(c, to, moved) && i < |c| && !moved[i]
    ensures !IsSafeOrder(c, to, order)
  {
    if IsSafeOrder(c, to, order) {
      var k := FirstUnmoved(moved, i, order);
      assert IsBlocked(c, to, moved, order[k]);
      var j :| 0 <= j < |c| && j != order[k] && !moved[j] && Overlap(to[order[k]], c[j]);
      var l := Turn(order, |c|, j);
    }
  }

  /** A disjoint set is never stuck. */
  lemma DisjointIsNotStuck(c: Members, x: int, y: int, moved: seq<bool>, i: nat)
    requires |moved| == |c| && i < |c| && !moved[i] && Disjoint(c)
    ensures !Stuck(c, At(c, x, y), moved)
  {
    var s := set k | 0 <= k < |c| && !moved[k];
    assert i in s && |s| > 0;
    var free := SomeClear(c, s, x - c[0].x, y - c[0].y);
    assert !IsBlocked(c, At(c, x, y), moved, free);
  }

  /** The order in which the drag's placements are written. Every member is placed once. The
      first cut of them, each the lowest index free to go, meet nothing unmoved; the rest,
      each in another's way, go last in carry order. There is a rest only when the carry has
      no safe order at all, so a disjoint carry leaves none. */
  method MoveOrder(c: Members, x: int, y: int) returns (order: seq<int>, ghost cut: nat)
    ensures Permutation(order, |c|) && cut <= |c|
    ensures SafeUpTo(c, At(c, x, y), order, cut)
    ensures forall k, l :: cut <= k < l < |c| ==> order[k] < order[l]
    ensures cut == |c| <==> exists p :: IsSafeOrder(c, At(c, x, y), p)
    ensures Disjoint(c) ==> cut == |c|
  {
    var to := At(c, x, y);
    var moved := new bool[|c|](_ => false);
    order := [];
    while |order| < |c|
      invariant |order| <= |c|
      invariant Chosen(c, to, moved[..], order)
    {
      var next := NextClear(c, to, moved);
      if next < 0 {
        break;
      }
      ChosenNext(c, to, moved[..], order, next);
      ghost var before := moved[..];
      moved[next] := true;
      assert moved[..] == before[next := true];
      order := order + [next];
    }
    cut := |order|;
    ghost var left, chosen := moved[..], order;
    assert cut < |c| ==> Stuck(c, to, left);
    order := Leftover(c, moved, order);
    ChosenIsSafe(c, to, left, order, cut);
    if cut < |c| {
      StuckIsFinal(c, x, y, left, chosen);
    }
  }

  lemma ChosenNext(c: Members, to: Members, moved: seq<bool>, order: seq<int>, next: nat)
    requires |to| == |c| == |moved| && Chosen(c, to, moved, order)
    requires next < |c| && !moved[next] && !IsBlocked(c, to, moved, next)
    ensures Chosen(c, to, moved[next := true], order + [next]) && |order| < |c|
  {
    AtMost(order + [next], |c|);
  }

  lemma StuckIsFinal(c: Members, x: int, y: int, moved: seq<bool>, chosen: seq<int>)
    requires |moved| == |c| && Stuck(c, At(c, x, y), moved) && Chosen(c, At(c, x, y), moved, chosen) && |chosen| < |c|
    ensures forall p :: !IsSafeOrder(c, At(c, x, y), p)
    ensures !Disjoint(c)
  {
    AtMost(chosen, |c|);
    var i :| 0 <= i < |c| && i !in chosen;
    forall p ensures !IsSafeOrder(c, At(c, x, y), p) { StuckHasNoSafeOrder(c, At(c, x, y), moved, i, p); }
    if Disjoint(c) {
      DisjointIsNotStuck(c, x, y, moved, i);
    }
  }

  /** Everything unmoved, in carry order, behind the placements chosen. */
  method Leftover(c: Members, moved: array<bool>, chosen: seq<int>) returns (order: seq<int>)
    requires moved.Length == |c|
    requires forall k :: 0 <= k < |chosen| ==> 0 <= chosen[k] < |c| && moved[chosen[k]]
    requires forall k, l :: 0 <= k < l < |chosen| ==> chosen[k] != chosen[l]
    requires forall i :: 0 <= i < |c| && moved[i] ==> i in chosen
    ensures Permutation(order, |c|) && |chosen| <= |c| && order[..|chosen|] == chosen
    ensures forall k :: |chosen| <= k < |c| ==> !moved[order[k]]
    ensures forall k, l :: |chosen| <= k < l < |c| ==> order[k] < order[l]
  {
    var rest := [];
    var i := 0;
    while i < |c|
      invariant 0 <= i <= |c|
      invariant forall k :: 0 <= k < |rest| ==> 0 <= rest[k] < i && !moved[rest[k]]
      invariant forall k, l :: 0 <= k < l < |rest| ==> rest[k] < rest[l]
      invariant forall k :: 0 <= k < i && !moved[k] ==> k in rest
    {
      if !moved[i] {
        rest := rest + [i];
      }
      i := i + 1;
    }
    order := chosen + rest;
    forall k | 0 <= k < |c| ensures k in order {
      assert k in chosen || k in rest;
    }
    AtMost(order, |c|);
  }

  lemma ChosenIsSafe(c: Members, to: Members, moved: seq<bool>, order: seq<int>, cut: nat)
    requires |to| == |c| == |moved| && Permutation(order, |c|) && cut <= |c|
    requires Chosen(c, to, moved, order[..cut])
    requires forall k :: cut <= k < |c| ==> !moved[order[k]]
    ensures SafeUpTo(c, to, order, cut)
    ensures cut == |c| ==> IsSafeOrder(c, to, order)
  {
    forall k, l | 0 <= k < cut && k < l < |order|
      ensures !Overlap(to[order[k]], c[order[l]])
    {
      assert order[..cut][k] == order[k];
      if l < cut {
        assert order[..cut][l] == order[l];
      }
    }
  }

  // ---------------------------------------------------------------- the drop

  /** The whole set is refused when any landing meets a tile the drop does not vacate. */
  method Occupied(c: Members, x: int, y: int, occupants: Members, vacates: bool) returns (yes: bool)
    ensures yes <==>
            (exists i, o :: 0 <= i < |c| && 0 <= o < |occupants| &&
               !(vacates && Has(c, occupants[o].id)) && Overlap(At(c, x, y)[i], occupants[o]))
  {
    var to := At(c, x, y);
    var i := 0;
    while i < |to|
      invariant 0 <= i <= |to|
      invariant forall k, o :: 0 <= k < i && 0 <= o < |occupants| && !(vacates && Has(c, occupants[o].id)) ==>
                  !Overlap(to[k], occupants[o])
    {
      var l := to[i];
      var j := 0;
      while j < |occupants|
        invariant 0 <= j <= |occupants|
        invariant forall o :: 0 <= o < j && !(vacates && Has(c, occupants[o].id)) ==> !Overlap(l, occupants[o])
      {
        var o := occupants[j];
        j := j + 1;
        if vacates && Has(c, o.id) {
          continue;
        }
        if RectsOverlap(l.x, l.y, l.w, l.h, o.x, o.y, o.w, o.h) {
          return true;
        }
      }
      i := i + 1;
    }
    return false;
  }

  /** The grid after the first k placements: the moved members where they landed. */
  function Placed(c: Members, to: Members, order: seq<int>, k: nat, grid: Members): (after: Members)
    requires |to| == |c| && k <= |order| && forall j :: 0 <= j < k ==> 0 <= order[j] < |c|
    ensures |after| == |grid|
  {
    if k == 0 then grid
    else
      var before := Placed(c, to, order, k - 1, grid);
      var m := to[order[k - 1]];
      seq(|before|, i requires 0 <= i < |before| => if before[i].id == m.id then m else before[i])
  }

  /** The node takes a placement when it meets no other tile of the grid as it stands. */
  ghost predicate Accepted(grid: Members, m: Member)
  {
    forall i :: 0 <= i < |grid| && grid[i].id != m.id ==> !Overlap(m, grid[i])
  }

  /** Where a tile stands after k placements: where it landed once its turn has come, and
      where it was otherwise. */
  lemma {:induction false} WhereItStands(c: Members, to: Members, order: seq<int>, k: nat, grid: Members, i: nat)
    requires |to| == |c| && Permutation(order, |c|) && k <= |c| && i < |grid|
    requires forall a, b :: 0 <= a < b < |c| ==> c[a].id != c[b].id
    requires forall a :: 0 <= a < |c| ==> to[a].id == c[a].id
    ensures var now := Placed(c, to, order, k, grid)[i];
            && now.id == grid[i].id
            && (forall j :: 0 <= j < k && c[order[j]].id == grid[i].id ==> now == to[order[j]])
            && ((forall j :: 0 <= j < k ==> c[order[j]].id != grid[i].id) ==> now == grid[i])
  {
    if k > 0 {
      WhereItStands(c, to, order, k - 1, grid, i);
      forall j | 0 <= j < k - 1 && c[order[j]].id == grid[i].id
        ensures c[order[k - 1]].id != grid[i].id
      {
        if order[j] < order[k - 1] { assert c[order[j]].id != c[order[k - 1]].id; }
        else { assert c[order[k - 1]].id != c[order[j]].id; }
      }
    }
  }

  /** The drop, write by write: when no landing meets a tile outside the set, the node takes
      every placement in a safe order, and the grid ends with the set landed and every other
      tile where it was. */
  lemma {:induction false} DropLands(c: Members, x: int, y: int, order: seq<int>, grid: Members, k: nat)
    requires Disjoint(c) && IsSafeOrder(c, At(c, x, y), order) && k <= |c|
    requires forall a, b :: 0 <= a < b < |c| ==> c[a].id != c[b].id
    requires forall i, a :: 0 <= i < |grid| && 0 <= a < |c| && grid[i].id == c[a].id ==> grid[i] == c[a]
    requires forall i, o :: 0 <= i < |c| && 0 <= o < |grid| && !Has(c, grid[o].id) ==> !Overlap(At(c, x, y)[i], grid[o])
    ensures k < |c| ==> Accepted(Placed(c, At(c, x, y), order, k, grid), At(c, x, y)[order[k]])
    ensures k == |c| ==> forall i :: 0 <= i < |grid| ==>
              var now := Placed(c, At(c, x, y), order, k, grid)[i];
              && (!Has(c, grid[i].id) ==> now == grid[i])
              && (forall a :: 0 <= a < |c| && c[a].id == grid[i].id ==> now == At(c, x, y)[a])
  {
    var to := At(c, x, y);
    if k < |c| {
      var m := to[order[k]];
      forall i | 0 <= i < |grid| && Placed(c, to, order, k, grid)[i].id != m.id
        ensures !Overlap(m, Placed(c, to, order, k, grid)[i])
      {
        WhereItStands(c, to, order, k, grid, i);
        if a :| 0 <= a < |c| && c[a].id == grid[i].id {
          var l := Turn(order, |c|, a);
          if l < k {
            LandedApart(c, x, y, order[k], a);
          } else {
            forall j | 0 <= j < k ensures c[order[j]].id != grid[i].id { SameTurn(c, order, j, l); }
            assert grid[i] == c[order[l]] && l != k;
          }
        } else {
          assert !Has(c, grid[i].id);
        }
      }
    } else {
      forall i | 0 <= i < |grid|
        ensures var now := Placed(c, to, order, k, grid)[i];
                && (!Has(c, grid[i].id) ==> now == grid[i])
                && (forall a :: 0 <= a < |c| && c[a].id == grid[i].id ==> now == to[a])
      {
        WhereItStands(c, to, order, k, grid, i);
        forall a | 0 <= a < |c| && c[a].id == grid[i].id
          ensures Placed(c, to, order, k, grid)[i] == to[a]
        {
          var l := Turn(order, |c|, a);
        }
      }
    }
  }

  /** Two members land as far apart as they lay. */
  lemma LandedApart(c: Members, x: int, y: int, i: int, j: int)
    requires Disjoint(c) && 0 <= i < |c| && 0 <= j < |c| && i != j
    ensures !Overlap(At(c, x, y)[i], At(c, x, y)[j])
  {
    if i < j { assert !Overlap(c[i], c[j]); } else { assert !Overlap(c[j], c[i]); }
  }

  lemma SameTurn(c: Members, order: seq<int>, j: int, l: int)
    requires Permutation(order, |c|) && 0 <= j < |c| && 0 <= l < |c| && j != l
    requires forall a, b :: 0 <= a < b < |c| ==> c[a].id != c[b].id
    ensures c[order[j]].id != c[order[l]].id
  {
    assert order[j] != order[l];
    if order[j] < order[l] { assert c[order[j]].id != c[order[l]].id; } else { assert c[order[l]].id != c[order[j]].id; }
  }
}
