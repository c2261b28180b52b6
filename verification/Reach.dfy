/** api/rpc/reach.go: chained ids, the connection graph, routes and respelling.
    Where the shape of one id segment matters (api/rpc/segment.go), it is asked of a
    classifier given as a parameter, so every result holds for any total classifier. */
module Reach {
  import opened Options
  import opened Text

  const SLASH := '/'

  datatype Shape = Namespace | Row | Key
  type Classifier = string -> Shape

  /** One declared connection: its name on the declaring node and the node it lands on. */
  datatype Edge = Edge(conn: string, lands: string, title: string)
  datatype Node = Node(title: string, edges: seq<Edge>)
  type Graph = map<string, Node>

  // ---------------------------------------------------------------- ids as chains

  /** An id read from one node: the connections it hops, the text those hops take, the rest. */
  datatype Chain = Chain(conns: seq<string>, prefix: string, tail: string)

  /** A hop at pos is a node segment with a namespace segment after it and something after
      that; the first hop must leave from nodeID itself. */
  predicate HopAt(shape: Classifier, segs: seq<string>, nodeID: string, pos: nat)
  {
    pos + 2 < |segs| && shape(segs[pos + 1]) == Namespace &&
    !(pos == 0 && (nodeID == "" || segs[0] != nodeID))
  }

  function HopEnd(shape: Classifier, segs: seq<string>, nodeID: string, pos: nat): (end: nat)
    ensures pos <= end && (pos < |segs| ==> end < |segs|)
    decreases |segs| - pos
  {
    if HopAt(shape, segs, nodeID, pos) then HopEnd(shape, segs, nodeID, pos + 2) else pos
  }

  /** The segments at odd places: the connection of each hop. */
  function Odds(segs: seq<string>): seq<string>
  {
    if |segs| < 2 then [] else [segs[1]] + Odds(segs[2..])
  }

  /** Each segment followed by a slash. */
  function Spell(segs: seq<string>): string
  {
    if segs == [] then "" else segs[0] + [SLASH] + Spell(segs[1..])
  }

  function ChainOf(shape: Classifier, id: string, nodeID: string): Chain
  {
    var segs := Split(id, SLASH);
    var end := HopEnd(shape, segs, nodeID, 0);
    Chain(Odds(segs[..end]), Spell(segs[..end]), Join(segs[end..], SLASH))
  }

  lemma {:induction false} OddsAppend(segs: seq<string>, a: string, b: string)
    requires |segs| % 2 == 0
    ensures Odds(segs + [a, b]) == Odds(segs) + [b]
  {
    if segs == [] {
      assert segs + [a, b] == [a, b];
    } else {
      assert (segs + [a, b])[2..] == segs[2..] + [a, b];
      OddsAppend(segs[2..], a, b);
    }
  }

  lemma {:induction false} OddsConcat(a: seq<string>, b: seq<string>)
    requires |a| % 2 == 0
    ensures Odds(a + b) == Odds(a) + Odds(b)
  {
    if a == [] {
      assert a + b == b;
    } else {
      assert (a + b)[2..] == a[2..] + b;
      OddsConcat(a[2..], b);
    }
  }

  lemma {:induction false} SpellIsJoin(segs: seq<string>)
    requires segs != []
    ensures Spell(segs) == Join(segs, SLASH) + [SLASH]
  {
    if |segs| > 1 {
      SpellIsJoin(segs[1..]);
    }
  }

  lemma {:induction false} SpellConcat(a: seq<string>, b: seq<string>)
    ensures Spell(a + b) == Spell(a) + Spell(b)
  {
    if a == [] {
      assert a + b == b;
    } else {
      assert (a + b)[1..] == a[1..] + b;
      SpellConcat(a[1..], b);
    }
  }

  lemma {:induction false} JoinConcat(a: seq<string>, b: seq<string>)
    requires b != []
    ensures Join(a + b, SLASH) == Spell(a) + Join(b, SLASH)
  {
    if a == [] {
      assert a + b == b;
    } else {
      assert (a + b)[1..] == a[1..] + b;
      JoinConcat(a[1..], b);
    }
  }

  /** The loop over the segments, as the client runs it. */
  method ReadChain(shape: Classifier, id: string, nodeID: string)
    returns (conns: seq<string>, prefix: string, tail: string)
    ensures Chain(conns, prefix, tail) == ChainOf(shape, id, nodeID)
  {
    var segs := Split(id, SLASH);
    conns := [];
    var pos := 0;
    while pos + 2 < |segs| && shape(segs[pos + 1]) == Namespace
      invariant pos < |segs| && pos % 2 == 0
      invariant conns == Odds(segs[..pos])
      invariant HopEnd(shape, segs, nodeID, pos) == HopEnd(shape, segs, nodeID, 0)
    {
      if pos == 0 && (nodeID == "" || segs[0] != nodeID) {
        break;
      }
      assert segs[..pos + 2] == segs[..pos] + [segs[pos], segs[pos + 1]];
      OddsAppend(segs[..pos], segs[pos], segs[pos + 1]);
      conns := conns + [segs[pos + 1]];
      pos := pos + 2;
    }
    prefix := Join(segs[..pos], SLASH);
    if pos > 0 {
      SpellIsJoin(segs[..pos]);
      prefix := prefix + [SLASH];
    }
    tail := Join(segs[pos..], SLASH);
  }

  /** Nothing of an id is lost: its hops and its tail spell it. */
  lemma ChainSpellsId(shape: Classifier, id: string, nodeID: string)
    ensures var c := ChainOf(shape, id, nodeID); c.prefix + c.tail == id
  {
    var segs := Split(id, SLASH);
    var end := HopEnd(shape, segs, nodeID, 0);
    JoinConcat(segs[..end], segs[end..]);
    assert segs[..end] + segs[end..] == segs;
    JoinOfSplit(id, SLASH);
  }

  // ---------------------------------------------------------------- walking

  /** Where the first edge of that name lands, "" with none. */
  function Landing(edges: seq<Edge>, conn: string): string
  {
    if edges == [] then "" else if edges[0].conn == conn then edges[0].lands else Landing(edges[1..], conn)
  }

  function WalkFrom(g: Graph, at: string, conns: seq<string>): Option<string>
    decreases |conns|
  {
    if conns == [] then Some(at)
    else if at !in g || Landing(g[at].edges, conns[0]) == "" then None
    else WalkFrom(g, Landing(g[at].edges, conns[0]), conns[1..])
  }

  method Walk(g: Graph, from: string, conns: seq<string>) returns (at: string, ok: bool)
    ensures ok <==> WalkFrom(g, from, conns).Some?
    ensures ok ==> WalkFrom(g, from, conns) == Some(at)
    ensures !ok ==> at == ""
  {
    at := from;
    var i := 0;
    while i < |conns|
      invariant 0 <= i <= |conns|
      invariant WalkFrom(g, at, conns[i..]) == WalkFrom(g, from, conns)
    {
      if at !in g {
        return "", false;
      }
      var next := "";
      var edges := g[at].edges;
      var j := 0;
      while j < |edges|
        invariant 0 <= j <= |edges| && next == ""
        invariant Landing(edges[j..], conns[i]) == Landing(edges, conns[i])
      {
        if edges[j].conn == conns[i] {
          next := edges[j].lands;
          break;
        }
        j := j + 1;
      }
      if next == "" {
        return "", false;
      }
      at := next;
      i := i + 1;
    }
    return at, true;
  }

  /** A node is only ever stood on when it is where the walk began or a named landing. */
  lemma {:induction false} WalkEnd(g: Graph, from: string, conns: seq<string>)
    requires WalkFrom(g, from, conns).Some?
    ensures conns == [] ==> WalkFrom(g, from, conns).value == from
    ensures conns != [] ==> WalkFrom(g, from, conns).value != "" && LandedOn(g, WalkFrom(g, from, conns).value)
    decreases |conns|
  {
    if conns != [] {
      var next := Landing(g[from].edges, conns[0]);
      LandingIsDeclared(g[from].edges, conns[0]);
      WalkEnd(g, next, conns[1..]);
      if conns[1..] == [] {
        var j :| 0 <= j < |g[from].edges| && g[from].edges[j].lands == next;
        assert g[from].edges[j] in g[from].edges;
      }
    }
  }

  ghost predicate LandedOn(g: Graph, node: string)
  {
    exists n, e :: n in g && e in g[n].edges && e.lands == node
  }

  lemma {:induction false} LandingIsDeclared(edges: seq<Edge>, conn: string)
    requires Landing(edges, conn) != ""
    ensures exists j :: 0 <= j < |edges| && edges[j].conn == conn && edges[j].lands == Landing(edges, conn)
  {
    if edges[0].conn != conn {
      LandingIsDeclared(edges[1..], conn);
      var j :| 0 <= j < |edges| - 1 && edges[1..][j].conn == conn && edges[1..][j].lands == Landing(edges, conn);
      assert edges[j + 1].conn == conn;
    }
  }

  lemma {:induction false} WalkConcat(g: Graph, from: string, a: seq<string>, b: seq<string>)
    requires WalkFrom(g, from, a).Some?
    ensures WalkFrom(g, from, a + b) == WalkFrom(g, WalkFrom(g, from, a).value, b)
    decreases |a|
  {
    if a == [] {
      assert a + b == b;
    } else {
      assert (a + b)[1..] == a[1..] + b;
      WalkConcat(g, Landing(g[from].edges, a[0]), a[1..], b);
    }
  }

  // ---------------------------------------------------------------- routes

  /** path leads from one node to another, each edge declared by the node it leaves. */
  ghost predicate IsChain(g: Graph, from: string, path: seq<Edge>, to: string)
    decreases |path|
  {
    if path == [] then from == to
    else from in g && path[0] in g[from].edges && IsChain(g, path[0].lands, path[1..], to)
  }

  /** The hop bound as the code compares it: a negative bound never stops the search. */
  predicate Within(hops: nat, maxHops: int)
  {
    maxHops < 0 || hops <= maxHops
  }

  lemma {:induction false} ChainExtend(g: Graph, from: string, path: seq<Edge>, at: string, e: Edge)
    requires IsChain(g, from, path, at)
    requires at in g && e in g[at].edges
    ensures IsChain(g, from, path + [e], e.lands)
    decreases |path|
  {
    if path != [] {
      assert (path + [e])[1..] == path[1..] + [e];
      ChainExtend(g, path[0].lands, path[1..], at, e);
    } else {
      assert path + [e] == [e];
    }
  }

  datatype Step = Step(node: string, path: seq<Edge>)

  /** What a node taken off the queue leaves behind: it is not the target, and, short of
      the bound, everything it declares has been met one hop further at most. */
  ghost predicate Settled(g: Graph, to: string, maxHops: int, dist: map<string, nat>, v: string)
  {
    v in dist && v != to &&
    (v in g && dist[v] != maxHops ==>
      forall e :: e in g[v].edges ==> e.lands in dist && dist[e.lands] <= dist[v] + 1)
  }

  /** While every node met within bound is settled, no chain that short leaves the settled nodes. */
  lemma {:induction false} ChainStaysSettled(g: Graph, to: string, maxHops: int, dist: map<string, nat>,
    bound: nat, u: string, p: seq<Edge>, v: string)
    requires forall x :: x in dist && dist[x] <= bound ==> Settled(g, to, maxHops, dist, x)
    requires u in dist && dist[u] + |p| <= bound && Within(dist[u] + |p|, maxHops)
    requires IsChain(g, u, p, v)
    ensures Settled(g, to, maxHops, dist, v)
    decreases |p|
  {
    if p != [] {
      assert Settled(g, to, maxHops, dist, u);
      assert dist[p[0].lands] <= dist[u] + 1;
      ChainStaysSettled(g, to, maxHops, dist, bound, p[0].lands, p[1..], v);
    }
  }

  ghost predicate InQueue(queue: seq<Step>, v: string)
  {
    exists i :: 0 <= i < |queue| && queue[i].node == v
  }

  /** The breadth-first queue: every step a real chain of its node's distance, in distance order. */
  ghost predicate Queued(g: Graph, from: string, maxHops: int, dist: map<string, nat>, queue: seq<Step>, d: nat)
  {
    && (forall i :: 0 <= i < |queue| ==>
         && queue[i].node in dist && |queue[i].path| == dist[queue[i].node]
         && d <= |queue[i].path| <= d + 1
         && Within(|queue[i].path|, maxHops)
         && IsChain(g, from, queue[i].path, queue[i].node))
    && (forall i, j :: 0 <= i < j < |queue| ==> |queue[i].path| <= |queue[j].path|)
  }

  /** The search between two steps, or, with a node in hand, in the middle of one:
      what was met is queued, settled or in hand, and no further than one hop past d. */
  ghost predicate Searching(g: Graph, from: string, to: string, maxHops: int,
    dist: map<string, nat>, queue: seq<Step>, d: nat, inHand: Option<string>)
  {
    && from in dist && dist[from] == 0
    && (forall v :: v in dist ==> dist[v] <= d + 1)
    && Queued(g, from, maxHops, dist, queue, d)
    && (forall v :: v in dist ==> Some(v) == inHand || InQueue(queue, v) || Settled(g, to, maxHops, dist, v))
  }

  /** The first chain to come off the queue at the target is a shortest one. */
  lemma FoundIsShortest(g: Graph, from: string, to: string, maxHops: int,
    dist: map<string, nat>, queue: seq<Step>, d: nat)
    requires Searching(g, from, to, maxHops, dist, queue, d, None)
    requires queue != [] && queue[0].node == to
    ensures forall p :: IsChain(g, from, p, to) ==> |queue[0].path| <= |p|
  {
    var found := |queue[0].path|;
    forall p | IsChain(g, from, p, to) && |p| < found
      ensures false
    {
      forall x | x in dist && dist[x] <= found - 1
        ensures Settled(g, to, maxHops, dist, x)
      {
        assert !InQueue(queue, x);
      }
      ChainStaysSettled(g, to, maxHops, dist, found - 1, from, p, to);
    }
  }

  lemma NoneLeftMeansNoChain(g: Graph, from: string, to: string, maxHops: int, dist: map<string, nat>, d: nat)
    requires Searching(g, from, to, maxHops, dist, [], d, None)
    ensures forall p :: IsChain(g, from, p, to) ==> !Within(|p|, maxHops)
  {
    forall p | IsChain(g, from, p, to) && Within(|p|, maxHops)
      ensures false
    {
      ChainStaysSettled(g, to, maxHops, dist, |p|, from, p, to);
    }
  }

  lemma Popped(g: Graph, from: string, to: string, maxHops: int,
    dist: map<string, nat>, queue: seq<Step>, d: nat)
    requires Searching(g, from, to, maxHops, dist, queue, d, None)
    requires queue != []
    ensures Searching(g, from, to, maxHops, dist, queue[1..], |queue[0].path|, Some(queue[0].node))
  {
    forall v | v in dist && v != queue[0].node && InQueue(queue, v)
      ensures InQueue(queue[1..], v)
    {
      var i :| 0 <= i < |queue| && queue[i].node == v;
      assert queue[1..][i - 1].node == v;
    }
  }

  lemma Pushed(g: Graph, from: string, to: string, maxHops: int,
    dist: map<string, nat>, queue: seq<Step>, s: Step, e: Edge)
    requires Searching(g, from, to, maxHops, dist, queue, |s.path|, Some(s.node))
    requires s.node in g && e in g[s.node].edges && e.lands !in dist
    requires IsChain(g, from, s.path, s.node) && Within(|s.path|, maxHops) && |s.path| != maxHops
    ensures Searching(g, from, to, maxHops, dist[e.lands := |s.path| + 1],
                      queue + [Step(e.lands, s.path + [e])], |s.path|, Some(s.node))
  {
    var dist', queue' := dist[e.lands := |s.path| + 1], queue + [Step(e.lands, s.path + [e])];
    ChainExtend(g, from, s.path, s.node, e);
    forall v | v in dist' && v != s.node
      ensures InQueue(queue', v) || Settled(g, to, maxHops, dist', v)
    {
      if v == e.lands {
        assert queue'[|queue|].node == v;
      } else if InQueue(queue, v) {
        var i :| 0 <= i < |queue| && queue[i].node == v;
        assert queue'[i].node == v;
      } else {
        assert Settled(g, to, maxHops, dist, v);
      }
    }
  }

  /** The node in hand has been settled, so it is in hand no more. */
  lemma PutDown(g: Graph, from: string, to: string, maxHops: int,
    dist: map<string, nat>, queue: seq<Step>, d: nat, v: string)
    requires Searching(g, from, to, maxHops, dist, queue, d, Some(v))
    requires Settled(g, to, maxHops, dist, v)
    ensures Searching(g, from, to, maxHops, dist, queue, d, None)
  {
    hide Settled, Queued;
  }

  /** Everything a node in hand declares has been met, so it is settled. */
  lemma SettledInHand(g: Graph, from: string, to: string, maxHops: int,
    dist: map<string, nat>, queue: seq<Step>, s: Step)
    requires Searching(g, from, to, maxHops, dist, queue, |s.path|, Some(s.node))
    requires s.node in dist && dist[s.node] == |s.path| && s.node != to
    requires s.node in g && |s.path| != maxHops ==> forall e :: e in g[s.node].edges ==> e.lands in dist
    ensures Searching(g, from, to, maxHops, dist, queue, |s.path|, None)
  {
    assert Settled(g, to, maxHops, dist, s.node);
    PutDown(g, from, to, maxHops, dist, queue, |s.path|, s.node);
  }

  /** What the head of the queue is. */
  lemma HeadOfQueue(g: Graph, from: string, to: string, maxHops: int,
    dist: map<string, nat>, queue: seq<Step>, d: nat)
    requires Searching(g, from, to, maxHops, dist, queue, d, None) && queue != []
    ensures queue[0].node in dist && dist[queue[0].node] == |queue[0].path|
    ensures Within(|queue[0].path|, maxHops) && IsChain(g, from, queue[0].path, queue[0].node)
  {
    hide Settled, IsChain;
  }

  ghost function Landings(g: Graph): set<string>
  {
    set n, e | n in g && e in g[n].edges :: e.lands
  }

  /** One node's declared edges, in order: each landing not met before joins the queue. */
  method Expand(g: Graph, ghost from: string, ghost to: string, ghost maxHops: int,
    s: Step, seen: set<string>, queue: seq<Step>, ghost dist: map<string, nat>)
    returns (seen': set<string>, queue': seq<Step>, ghost dist': map<string, nat>)
    requires s.node in g && s.node in dist && dist[s.node] == |s.path| && s.node != to
    requires IsChain(g, from, s.path, s.node) && Within(|s.path|, maxHops) && |s.path| != maxHops
    requires seen == dist.Keys && seen <= {from} + Landings(g)
    requires Searching(g, from, to, maxHops, dist, queue, |s.path|, Some(s.node))
    ensures seen <= seen' == dist'.Keys && seen' <= {from} + Landings(g)
    ensures Searching(g, from, to, maxHops, dist', queue', |s.path|, None)
    ensures seen' == seen ==> queue' == queue
  {
    hide Searching, Settled, IsChain, Within;
    seen', queue', dist' := seen, queue, dist;
    var edges := g[s.node].edges;
    var j := 0;
    while j < |edges|
      invariant 0 <= j <= |edges|
      invariant seen <= seen' == dist'.Keys && seen' <= {from} + Landings(g)
      invariant Searching(g, from, to, maxHops, dist', queue', |s.path|, Some(s.node))
      invariant dist'[s.node] == |s.path|
      invariant forall k :: 0 <= k < j ==> edges[k].lands in dist'
      invariant seen' == seen ==> queue' == queue
    {
      var e := edges[j];
      j := j + 1;
      if e.lands in seen' {
        continue;
      }
      assert e.lands in Landings(g);
      Pushed(g, from, to, maxHops, dist', queue', s, e);
      seen' := seen' + {e.lands};
      dist' := dist'[e.lands := |s.path| + 1];
      queue' := queue' + [Step(e.lands, s.path + [e])];
    }
    SettledInHand(g, from, to, maxHops, dist', queue', s);
  }

  lemma Start(g: Graph, from: string, to: string, maxHops: int)
    ensures Searching(g, from, to, maxHops, map[from := 0], [Step(from, [])], 0, None)
  {
    assert [Step(from, [])][0].node == from;
  }

  /** A shortest chain of at most maxHops connections, exactly when there is one; it ends
      on every finite graph, cycles included. */
  method Route(g: Graph, from: string, to: string, maxHops: int) returns (path: seq<Edge>, ok: bool)
    ensures ok <==> exists p :: IsChain(g, from, p, to) && Within(|p|, maxHops)
    ensures ok ==> IsChain(g, from, path, to) && Within(|path|, maxHops)
    ensures ok ==> forall p :: IsChain(g, from, p, to) ==> |path| <= |p|
    ensures !ok ==> path == []
  {
    hide Searching, Settled, IsChain;
    var seen := {from};
    var queue := [Step(from, [])];
    ghost var dist: map<string, nat> := map[from := 0];
    ghost var d: nat := 0;
    assert queue[0].node == from;
    Start(g, from, to, maxHops);
    while queue != []
      invariant seen == dist.Keys && seen <= {from} + Landings(g)
      invariant Searching(g, from, to, maxHops, dist, queue, d, None)
      decreases {from} + Landings(g) - seen, |queue|
    {
      var s := queue[0];
      HeadOfQueue(g, from, to, maxHops, dist, queue, d);
      if s.node == to {
        FoundIsShortest(g, from, to, maxHops, dist, queue, d);
        return s.path, true;
      }
      Popped(g, from, to, maxHops, dist, queue, d);
      d := |s.path|;
      queue := queue[1..];
      if |s.path| == maxHops {
        SettledInHand(g, from, to, maxHops, dist, queue, s);
        continue;
      }
      if s.node !in g {
        SettledInHand(g, from, to, maxHops, dist, queue, s);
        continue;
      }
      seen, queue, dist := Expand(g, from, to, maxHops, s, seen, queue, dist);
    }
    NoneLeftMeansNoChain(g, from, to, maxHops, dist, d);
    return [], false;
  }

  // ---------------------------------------------------------------- respelling

  /** The hops of a route spelled out: each node, then the connection taken there. */
  function HopSegs(at: string, route: seq<Edge>): (segs: seq<string>)
    ensures |segs| == 2 * |route|
    decreases |route|
  {
    if route == [] then [] else [at, route[0].conn] + HopSegs(route[0].lands, route[1..])
  }

  function Conns(route: seq<Edge>): seq<string>
  {
    if route == [] then [] else [route[0].conn] + Conns(route[1..])
  }

  /** Nothing at the front of an id reads as a hop once a hop has been taken. */
  predicate HopFree(shape: Classifier, id: string)
  {
    var segs := Split(id, SLASH);
    |segs| <= 2 || shape(segs[1]) != Namespace
  }

  /** An id a node's own frame may hold: it hops from that node, or not at all. */
  predicate InFrame(shape: Classifier, id: string, nodeID: string)
  {
    HopFree(shape, id) || (nodeID != "" && Split(id, SLASH)[0] == nodeID)
  }

  /** What every declared graph keeps: one name, one connection on a node, each name a
      namespace segment, each landing a segment. */
  ghost predicate Declared(shape: Classifier, g: Graph)
  {
    forall n, e :: n in g && e in g[n].edges ==>
      && shape(e.conn) == Namespace && SLASH !in e.conn
      && e.lands != "" && SLASH !in e.lands
      && forall f :: f in g[n].edges && f.conn == e.conn ==> f.lands == e.lands
  }

  /** The connections a route names walk to where the route ends. */
  lemma {:induction false} RouteWalks(shape: Classifier, g: Graph, from: string, route: seq<Edge>, to: string)
    requires Declared(shape, g) && IsChain(g, from, route, to)
    ensures WalkFrom(g, from, Conns(route)) == Some(to)
    decreases |route|
  {
    if route != [] {
      var e := route[0];
      NamedLanding(g[from].edges, e);
      RouteWalks(shape, g, e.lands, route[1..], to);
    }
  }

  lemma {:induction false} NamedLanding(edges: seq<Edge>, e: Edge)
    requires e in edges && forall f :: f in edges && f.conn == e.conn ==> f.lands == e.lands
    ensures Landing(edges, e.conn) == e.lands
  {
    if edges[0].conn != e.conn {
      NamedLanding(edges[1..], e);
    } else {
      assert edges[0] in edges;
    }
  }

  /** Reading past a spelled route: every hop of it is read as a hop. */
  lemma {:induction false} ReadsRoute(shape: Classifier, g: Graph, from: string, route: seq<Edge>, to: string,
    segs: seq<string>, rest: seq<string>, nodeID: string, pos: nat)
    requires Declared(shape, g) && IsChain(g, from, route, to)
    requires pos <= |segs| && segs[pos..] == HopSegs(from, route) + rest && rest != []
    requires pos > 0 || route == [] || (nodeID != "" && from == nodeID)
    ensures HopEnd(shape, segs, nodeID, pos) == HopEnd(shape, segs, nodeID, pos + 2 * |route|)
    decreases |route|
  {
    if route != [] {
      var e := route[0];
      assert e in g[from].edges;
      var hops := HopSegs(from, route) + rest;
      assert segs[pos] == segs[pos..][0] == hops[0] == from;
      assert segs[pos + 1] == segs[pos..][1] == hops[1] == e.conn;
      assert segs[pos + 2..] == segs[pos..][2..] == hops[2..] == HopSegs(e.lands, route[1..]) + rest;
      assert HopAt(shape, segs, nodeID, pos);
      ReadsRoute(shape, g, e.lands, route[1..], to, segs, rest, nodeID, pos + 2);
    }
  }

  lemma {:induction false} HopSegsPlain(shape: Classifier, g: Graph, from: string, route: seq<Edge>, to: string)
    requires Declared(shape, g) && IsChain(g, from, route, to) && SLASH !in from
    ensures forall s :: s in HopSegs(from, route) ==> SLASH !in s
    ensures Odds(HopSegs(from, route)) == Conns(route)
    decreases |route|
  {
    if route != [] {
      assert route[0] in g[from].edges;
      HopSegsPlain(shape, g, route[0].lands, route[1..], to);
      assert HopSegs(from, route)[2..] == HopSegs(route[0].lands, route[1..]);
    }
  }

  /** Cutting a spelled text gives back the segments it was spelled from. */
  lemma SplitOfSpell(segs: seq<string>, tail: string)
    requires forall s :: s in segs ==> SLASH !in s
    ensures Split(Spell(segs) + tail, SLASH) == segs + Split(tail, SLASH)
  {
    var parts := segs + Split(tail, SLASH);
    JoinConcat(segs, Split(tail, SLASH));
    JoinOfSplit(tail, SLASH);
    SplitOfJoin(parts, SLASH);
  }

  /** An id spelled as hops, then a route, then a tail: what a node reads in it. hops are
      segments the node reads whole; with none, the route leaves from the node itself. */
  lemma ReadsSpelled(shape: Classifier, g: Graph, nodeID: string, hops: seq<string>,
    holder: string, route: seq<Edge>, target: string, tail: string)
    requires Declared(shape, g) && IsChain(g, holder, route, target) && SLASH !in holder
    requires |hops| % 2 == 0 && forall s :: s in hops ==> SLASH !in s
    requires hops == [] ==> route == [] || (holder == nodeID && nodeID != "")
    requires HopEnd(shape, hops + HopSegs(holder, route) + Split(tail, SLASH), nodeID, 0)
          == HopEnd(shape, hops + HopSegs(holder, route) + Split(tail, SLASH), nodeID, |hops|)
    requires HopFree(shape, tail) || (hops == [] && route == [] && (nodeID == "" || Split(tail, SLASH)[0] != nodeID))
    ensures ChainOf(shape, Spell(hops + HopSegs(holder, route)) + tail, nodeID)
         == Chain(Odds(hops) + Conns(route), Spell(hops + HopSegs(holder, route)), tail)
  {
    hide IsChain, Declared, Odds, Conns, Spell, Join, Split, WalkFrom;
    var lead, rest := hops + HopSegs(holder, route), Split(tail, SLASH);
    var segs := lead + rest;
    HopSegsPlain(shape, g, holder, route, target);
    SplitOfSpell(lead, tail);
    assert segs[|hops|..] == HopSegs(holder, route) + rest;
    ReadsRoute(shape, g, holder, route, target, segs, rest, nodeID, |hops|);
    assert |lead| + 1 < |segs| ==> segs[|lead| + 1] == rest[1];
    assert segs[|lead|] == rest[0];
    assert !HopAt(shape, segs, nodeID, |lead|);
    assert segs[..|lead|] == lead && segs[|lead|..] == rest;
    OddsConcat(hops, HopSegs(holder, route));
    JoinOfSplit(tail, SLASH);
  }

  /** The reading of a respelled id in its holder's frame, exactly: it reaches the target
      with the same tail unless the tail itself would be read as one more hop. */
  lemma RespelledReadsBack(shape: Classifier, g: Graph, holder: string, route: seq<Edge>, target: string, tail: string)
    requires Declared(shape, g) && IsChain(g, holder, route, target)
    requires SLASH !in holder && (holder == "" ==> route == [])
    ensures var c := ChainOf(shape, Spell(HopSegs(holder, route)) + tail, holder);
            (c.tail == tail && WalkFrom(g, holder, c.conns) == Some(target)) <==>
            HopFree(shape, tail) || (route == [] && (holder == "" || Split(tail, SLASH)[0] != holder))
  {
    hide IsChain, Declared, Spell, Split;
    var lead, rest := HopSegs(holder, route), Split(tail, SLASH);
    var segs := lead + rest;
    var c := ChainOf(shape, Spell(lead) + tail, holder);
    assert [] + lead == lead;
    HopSegsPlain(shape, g, holder, route, target);
    SplitOfSpell(lead, tail);
    if HopFree(shape, tail) || (route == [] && (holder == "" || rest[0] != holder)) {
      ReadsSpelled(shape, g, holder, [], holder, route, target, tail);
      RouteWalks(shape, g, holder, route, target);
      assert [] + Conns(route) == Conns(route);
    } else {
      assert segs[0..] == HopSegs(holder, route) + rest;
      ReadsRoute(shape, g, holder, route, target, segs, rest, holder, 0);
      assert segs[|lead| + 1] == rest[1] && segs[|lead|] == rest[0];
      assert HopAt(shape, segs, holder, |lead|);
      var end := HopEnd(shape, segs, holder, 0);
      assert end >= |lead| + 2;
      SplitOfJoin(segs[end..], SLASH);
    }
  }

  /** What is left of an id in its own frame once its hops are read is hop-free, unless
      the id hops from a node that is not the frame's. */
  lemma TailIsHopFree(shape: Classifier, id: string, nodeID: string)
    ensures InFrame(shape, id, nodeID) ==> HopFree(shape, ChainOf(shape, id, nodeID).tail)
  {
    var segs := Split(id, SLASH);
    var end := HopEnd(shape, segs, nodeID, 0);
    HopEndStops(shape, segs, nodeID, 0);
    SplitOfJoin(segs[end..], SLASH);
    if |segs[end..]| > 2 {
      assert segs[end..][1] == segs[end + 1];
    }
    if end == 0 {
      assert segs[end..] == segs;
    }
  }

  lemma {:induction false} HopEndStops(shape: Classifier, segs: seq<string>, nodeID: string, pos: nat)
    ensures !HopAt(shape, segs, nodeID, HopEnd(shape, segs, nodeID, pos))
    ensures (HopEnd(shape, segs, nodeID, pos) - pos) % 2 == 0
    decreases |segs| - pos
  {
    if HopAt(shape, segs, nodeID, pos) {
      HopEndStops(shape, segs, nodeID, pos + 2);
    }
  }

  /** Nodes without a name hop nowhere, so they hold and target only themselves. */
  lemma NamelessHopsNowhere(shape: Classifier, id: string)
    ensures ChainOf(shape, id, "").conns == []
  {
    assert !HopAt(shape, Split(id, SLASH), "", 0);
  }

  datatype Respelled = Spelled(id: string) | Unreachable(holder: string, target: string)

  /** The hops of grid are read whole at the front of the answer too, whatever follows. */
  lemma {:induction false} SameHops(shape: Classifier, segs: seq<string>, other: seq<string>, nodeID: string, pos: nat)
    requires HopEnd(shape, segs, nodeID, pos) <= |segs| && pos % 2 == 0
    requires |other| > HopEnd(shape, segs, nodeID, pos)
    requires other[..HopEnd(shape, segs, nodeID, pos)] == segs[..HopEnd(shape, segs, nodeID, pos)]
    ensures HopEnd(shape, other, nodeID, pos) == HopEnd(shape, other, nodeID, HopEnd(shape, segs, nodeID, pos))
    decreases |segs| - pos
  {
    var end := HopEnd(shape, segs, nodeID, pos);
    if HopAt(shape, segs, nodeID, pos) {
      HopEndStops(shape, segs, nodeID, pos);
      assert end >= pos + 2;
      assert forall i :: 0 <= i < end ==> other[i] == other[..end][i] == segs[..end][i] == segs[i];
      assert HopAt(shape, other, nodeID, pos);
      SameHops(shape, segs, other, nodeID, pos + 2);
    }
  }

  /** A respelled id also reads right where it was asked for: in nodeID's frame it takes
      grid's connections and then the holder's route, to the same node with the same tail. */
  lemma RespelledReadsHere(shape: Classifier, g: Graph, nodeID: string, grid: string,
    holder: string, route: seq<Edge>, target: string, tail: string)
    requires Declared(shape, g) && SLASH !in nodeID && nodeID != ""
    requires WalkFrom(g, nodeID, ChainOf(shape, grid, nodeID).conns) == Some(holder)
    requires IsChain(g, holder, route, target) && HopFree(shape, tail)
    ensures var hops := ChainOf(shape, grid, nodeID);
            var c := ChainOf(shape, hops.prefix + Spell(HopSegs(holder, route)) + tail, nodeID);
            c.conns == hops.conns + Conns(route) && c.tail == tail && WalkFrom(g, nodeID, c.conns) == Some(target)
  {
    var segs := Split(grid, SLASH);
    var end := HopEnd(shape, segs, nodeID, 0);
    HopEndStops(shape, segs, nodeID, 0);
    var hops := segs[..end];
    HolderIsPlain(shape, g, nodeID, grid, holder);
    var other := hops + HopSegs(holder, route) + Split(tail, SLASH);
    assert other[..end] == hops;
    SameHops(shape, segs, other, nodeID, 0);
    if hops == [] {
      assert Odds(hops) == [];
    }
    ReadsSpelled(shape, g, nodeID, hops, holder, route, target, tail);
    SpellConcat(hops, HopSegs(holder, route));
    RouteWalks(shape, g, holder, route, target);
    WalkConcat(g, nodeID, Odds(hops), Conns(route));
  }

  /** The node a grid's hops end on is a segment, and named exactly when the asker is. */
  lemma HolderIsPlain(shape: Classifier, g: Graph, nodeID: string, grid: string, holder: string)
    requires Declared(shape, g) && SLASH !in nodeID
    requires WalkFrom(g, nodeID, ChainOf(shape, grid, nodeID).conns) == Some(holder)
    ensures SLASH !in holder && (holder == "" <==> nodeID == "")
  {
    var conns := ChainOf(shape, grid, nodeID).conns;
    WalkEnd(g, nodeID, conns);
    if nodeID == "" {
      NamelessHopsNowhere(shape, grid);
    }
    if conns != [] {
      var n, e :| n in g && e in g[n].edges && e.lands == holder;
    }
  }

  /** The route written behind a prefix, hop by hop. */
  method SpellRoute(prefix: string, holder: string, path: seq<Edge>) returns (out: string)
    ensures out == prefix + Spell(HopSegs(holder, path))
  {
    out := prefix;
    var at, i := holder, 0;
    while i < |path|
      invariant 0 <= i <= |path|
      invariant out + Spell(HopSegs(at, path[i..])) == prefix + Spell(HopSegs(holder, path))
    {
      var e := path[i];
      assert path[i..][0] == e && path[i..][1..] == path[i + 1..];
      SpellConcat([at, e.conn], HopSegs(e.lands, path[i + 1..]));
      assert [at, e.conn][1..] == [e.conn] && [e.conn][1..] == [];
      var hop := at + [SLASH] + e.conn + [SLASH];
      assert Spell([at, e.conn]) == hop;
      assert out + (hop + Spell(HopSegs(e.lands, path[i + 1..]))) == (out + hop) + Spell(HopSegs(e.lands, path[i + 1..]));
      out := out + hop;
      at := e.lands;
      i := i + 1;
    }
  }

  /** Respell's whole answer: it refuses exactly where one of the two walks or the route is
      missing, naming what it placed, and otherwise spells grid's hops, a shortest route of
      the holder's and ref's tail. */
  ghost predicate Answers(shape: Classifier, g: Graph, nodeID: string, grid: string, ref: string, maxHops: int,
    res: Respelled, route: seq<Edge>)
  {
    var hops, goal := ChainOf(shape, grid, nodeID), ChainOf(shape, ref, nodeID);
    var holder, target := WalkFrom(g, nodeID, hops.conns), WalkFrom(g, nodeID, goal.conns);
    if holder.None? then res == Unreachable("", "")
    else if target.None? then res == Unreachable(holder.value, "")
    else if forall p :: IsChain(g, holder.value, p, target.value) ==> !Within(|p|, maxHops)
      then res == Unreachable(holder.value, target.value)
    else
      && IsChain(g, holder.value, route, target.value) && Within(|route|, maxHops)
      && (forall p :: IsChain(g, holder.value, p, target.value) ==> |route| <= |p|)
      && res == Spelled(hops.prefix + Spell(HopSegs(holder.value, route)) + goal.tail)
  }

  method Respell(shape: Classifier, g: Graph, nodeID: string, grid: string, ref: string, maxHops: int)
    returns (res: Respelled)
    ensures exists route :: Answers(shape, g, nodeID, grid, ref, maxHops, res, route)
  {
    var hconns, hprefix, _ := ReadChain(shape, grid, nodeID);
    var rconns, _, tail := ReadChain(shape, ref, nodeID);
    var holder, ok := Walk(g, nodeID, hconns);
    if !ok {
      res := Unreachable("", "");
      assert Answers(shape, g, nodeID, grid, ref, maxHops, res, []);
      return;
    }
    var target, ok' := Walk(g, nodeID, rconns);
    if !ok' {
      res := Unreachable(holder, "");
      assert Answers(shape, g, nodeID, grid, ref, maxHops, res, []);
      return;
    }
    var path, found := Route(g, holder, target, maxHops);
    if !found {
      res := Unreachable(holder, target);
      assert Answers(shape, g, nodeID, grid, ref, maxHops, res, []);
      return;
    }
    var out := SpellRoute(hprefix, holder, path);
    res := Spelled(out + tail);
    assert Answers(shape, g, nodeID, grid, ref, maxHops, res, path);
  }

  /** Ids of the asker's own frame always read back. */
  lemma RespellHolds(shape: Classifier, g: Graph, nodeID: string, grid: string, ref: string,
    holder: string, route: seq<Edge>, target: string)
    requires Declared(shape, g) && SLASH !in nodeID && InFrame(shape, ref, nodeID)
    requires WalkFrom(g, nodeID, ChainOf(shape, grid, nodeID).conns) == Some(holder)
    requires WalkFrom(g, nodeID, ChainOf(shape, ref, nodeID).conns) == Some(target)
    requires IsChain(g, holder, route, target)
    requires forall p :: IsChain(g, holder, p, target) ==> |route| <= |p|
    ensures var tail := ChainOf(shape, ref, nodeID).tail;
            var c := ChainOf(shape, Spell(HopSegs(holder, route)) + tail, holder);
            c.tail == tail && WalkFrom(g, holder, c.conns) == Some(target)
  {
    HolderIsPlain(shape, g, nodeID, grid, holder);
    TailIsHopFree(shape, ref, nodeID);
    if holder == "" {
      NamelessHopsNowhere(shape, ref);
      assert IsChain(g, holder, [], target);
    }
    RespelledReadsBack(shape, g, holder, route, target, ChainOf(shape, ref, nodeID).tail);
  }

  /** Respell's promise: in any declared graph, an id of the asker's own frame that is
      respelled is grid's hops and an id which, read at the holder, reaches the node ref
      reaches, with ref's tail; read at the asker, it reaches that node too. */
  lemma RespellReaches(shape: Classifier, g: Graph, nodeID: string, grid: string, ref: string, maxHops: int,
    res: Respelled, route: seq<Edge>)
    requires Answers(shape, g, nodeID, grid, ref, maxHops, res, route) && res.Spelled?
    requires Declared(shape, g) && SLASH !in nodeID && InFrame(shape, ref, nodeID)
    ensures var hops, goal := ChainOf(shape, grid, nodeID), ChainOf(shape, ref, nodeID);
            var holder, target := WalkFrom(g, nodeID, hops.conns), WalkFrom(g, nodeID, goal.conns);
            var inner := res.id[|hops.prefix|..];
            && holder.Some? && target.Some?
            && res.id == hops.prefix + inner
            && ChainOf(shape, inner, holder.value).tail == goal.tail
            && WalkFrom(g, holder.value, ChainOf(shape, inner, holder.value).conns) == target
            && (nodeID != "" ==>
                 && ChainOf(shape, res.id, nodeID).tail == goal.tail
                 && WalkFrom(g, nodeID, ChainOf(shape, res.id, nodeID).conns) == target)
  {
    hide IsChain, WalkFrom, Spell, HopSegs, HopFree, InFrame, Declared, ChainOf, Within;
    var hops, goal := ChainOf(shape, grid, nodeID), ChainOf(shape, ref, nodeID);
    var holder, target := WalkFrom(g, nodeID, hops.conns).value, WalkFrom(g, nodeID, goal.conns).value;
    var inner := Spell(HopSegs(holder, route)) + goal.tail;
    assert res.id == hops.prefix + inner;
    assert res.id[|hops.prefix|..] == inner;
    RespellHolds(shape, g, nodeID, grid, ref, holder, route, target);
    TailIsHopFree(shape, ref, nodeID);
    if nodeID != "" {
      RespelledReadsHere(shape, g, nodeID, grid, holder, route, target, goal.tail);
    }
  }
}
