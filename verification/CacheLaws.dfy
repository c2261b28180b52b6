/** What every sequence of cache operations keeps. */
module CacheLaws {
  import opened Options
  import opened CacheState

  // ---------------------------------------------------------------- placement

  /** A row a held tile may be stored with. */
  ghost predicate AtHold(holds: map<string, Hold>, n: Tile)
  {
    n.id in holds ==> n.at == holds[n.id].p
  }

  lemma EvictKeeps(c: State, t: string, home: string)
    requires Placed(c.grids, c.holds)
    ensures Placed(Evict(c, t, home).grids, c.holds)
    ensures forall g :: g != home ==> !CachedIn(Evict(c, t, home).grids, g, t)
  {
    hide WithoutTile;
  }

  /** A row stored is cached in its grid and nowhere else, and no other row is touched. */
  lemma PutTilePlaces(c: State, g: string, n: Tile, told: bool)
    requires g in c.grids && c.grids[g].id == g && !Refused(c, g, n)
    ensures var r := PutTile(c, g, n, told).grids;
            && (forall h, x :: CachedIn(r, h, x) <==> if x == n.id then h == g else CachedIn(c.grids, h, x))
            && (forall h, x :: CachedIn(r, h, x) && x != n.id ==> r[h].tiles[x] == c.grids[h].tiles[x])
            && r.Keys == c.grids.Keys && (forall h :: h in r ==> r[h].id == c.grids[h].id && r[h].rest == c.grids[h].rest)
            && g in r && n.id in r[g].tiles && r[g].tiles[n.id] == n
    ensures PutTile(c, g, n, told).holds == c.holds
  {
    hide WithoutTile, Age;
    var e, r := Evict(c, n.id, g), PutTile(c, g, n, told);
    assert r.grids == e.grids[g := e.grids[g].(tiles := e.grids[g].tiles[n.id := n])];
    assert forall h, x :: CachedIn(r.grids, h, x) <==> CachedIn(e.grids, h, x) || (h == g && x == n.id);
  }

  /** The one new row in place, all others where they were. */
  lemma NewRowPlaced(was: map<string, Grid>, r: map<string, Grid>, holds: map<string, Hold>, n: Tile)
    requires OneHome(was) && Filed(was) && AtHold(holds, n)
    requires forall g, x :: CachedIn(was, g, x) && x in holds && x != n.id ==> was[g].tiles[x].at == holds[x].p
    requires forall h, x :: CachedIn(r, h, x) <==> if x == n.id then h == n.at.gridId else CachedIn(was, h, x)
    requires forall h, x :: CachedIn(r, h, x) && x != n.id ==> r[h].tiles[x] == was[h].tiles[x]
    requires r.Keys == was.Keys && forall h :: h in r ==> r[h].id == was[h].id
    requires CachedIn(r, n.at.gridId, n.id) && r[n.at.gridId].tiles[n.id] == n
    ensures Placed(r, holds)
  {
    assert OneHome(r) by { hide Filed; }
  }

  lemma PutTileKeeps(c: State, g: string, n: Tile, told: bool)
    requires Placed(c.grids, c.holds) && g in c.grids && n.at.gridId == g && AtHold(c.holds, n)
    ensures Placed(PutTile(c, g, n, told).grids, c.holds) && PutTile(c, g, n, told).holds == c.holds
  {
    if !Refused(c, g, n) {
      PutTilePlaces(c, g, n, told);
      hide PutTile, AtHold;
      NewRowPlaced(c.grids, PutTile(c, g, n, told).grids, c.holds, n);
    }
  }

  lemma StoreKeeps(c: State, n: Tile, told: bool)
    requires Placed(c.grids, c.holds) && AtHold(c.holds, n)
    ensures Placed(Store(c, n, told).grids, c.holds) && Store(c, n, told).holds == c.holds
  {
    hide Placed, PutTile, Age;
    if n.at.gridId in c.grids {
      PutTileKeeps(c, n.at.gridId, n, told);
    } else {
      EvictKeeps(c, n.id, n.at.gridId);
    }
  }

  lemma AdmitKeeps(c: State, n: Tile, stream: bool)
    requires Placed(c.grids, c.holds)
    ensures var (held, row) := Admit(c, n, stream);
            && Placed(held.grids, held.holds) && AtHold(held.holds, row)
            && held.grids == c.grids && row.id == n.id && row.version == n.version
            && (forall t :: t in held.holds ==> t in c.holds && held.holds[t] == c.holds[t])
  {
    hide OneHome, Filed;
  }

  /** What a grid read under way keeps: its rows are the grid's own and cached nowhere
      else, and both they and the rows set aside are where the holds want them. */
  ghost predicate ReadingOk(r: Reading, gid: string)
  {
    && Placed(r.c.grids, r.c.holds)
    && (forall t :: t in r.rows ==> r.rows[t].id == t && r.rows[t].at.gridId == gid && AtHold(r.c.holds, r.rows[t]))
    && (forall g, t :: t in r.rows && CachedIn(r.c.grids, g, t) ==> g == gid)
    && (forall i :: 0 <= i < |r.away| ==> AtHold(r.c.holds, r.away[i]))
  }

  lemma ReadRowKeeps(r: Reading, gid: string, n: Tile)
    requires ReadingOk(r, gid)
    ensures ReadingOk(ReadRow(r, gid, n), gid)
  {
    hide OneHome, Filed, HeldInPlace, Admit, WithoutTile, Age;
    AdmitKeeps(r.c, n, false);
    var (c, row) := Admit(r.c, n, false);
    EvictKeeps(c, row.id, gid);
  }

  lemma {:induction false} ReadRowsKeep(c: State, gid: string, tiles: seq<Tile>, k: nat)
    requires Placed(c.grids, c.holds) && k <= |tiles|
    ensures ReadingOk(ReadRows(c, gid, tiles, k), gid)
  {
    hide Placed, ReadRow;
    if k > 0 {
      ReadRowsKeep(c, gid, tiles, k - 1);
      ReadRowKeeps(ReadRows(c, gid, tiles, k - 1), gid, tiles[k - 1]);
    }
  }

  /** The grid read is made of the read's rows and those kept; the others are untouched. */
  lemma InstallPlaces(r: Reading, gid: string, rest: string)
    ensures var c := Install(r, gid, rest).grids;
            && gid in c && c[gid] == Grid(gid, rest, r.rows + KeptRows(r.c, gid, r.rows))
            && forall g :: g != gid ==> (g in c <==> g in r.c.grids) && (g in c ==> c[g] == r.c.grids[g])
    ensures var kept := KeptRows(r.c, gid, r.rows);
            forall t :: t in kept ==>
              && t !in r.rows && CachedIn(r.c.grids, gid, t) && kept[t] == r.c.grids[gid].tiles[t]
    ensures forall t :: t in Install(r, gid, rest).holds ==>
              t in r.c.holds && Install(r, gid, rest).holds[t] == r.c.holds[t]
  {
  }

  lemma InstallKeeps(r: Reading, gid: string, rest: string)
    requires ReadingOk(r, gid)
    ensures var c := Install(r, gid, rest);
            && Placed(c.grids, c.holds)
            && forall i :: 0 <= i < |r.away| ==> AtHold(c.holds, r.away[i])
  {
    InstallPlaces(r, gid, rest);
    var c := Install(r, gid, rest);
    hide KeptRows, KeptHolds, Install;
    forall g, t | CachedIn(c.grids, g, t)
      ensures c.grids[g].id == g && c.grids[g].tiles[t].id == t && c.grids[g].tiles[t].at.gridId == g
      ensures AtHold(c.holds, c.grids[g].tiles[t])
      ensures CachedIn(r.c.grids, g, t) || (g == gid && t in r.rows)
    {
      if g == gid && t in r.rows {
        assert c.grids[g].tiles[t] == r.rows[t];
      } else {
        assert CachedIn(r.c.grids, g, t) && c.grids[g].tiles[t] == r.c.grids[g].tiles[t];
      }
    }
    assert OneHome(c.grids) by {
      hide Filed, HeldInPlace;
    }
  }

  lemma {:induction false} StoreAllKeeps(c: State, rows: seq<Tile>, k: nat)
    requires Placed(c.grids, c.holds) && k <= |rows|
    requires forall i :: 0 <= i < |rows| ==> AtHold(c.holds, rows[i])
    ensures var r := StoreAll(c, rows, k); Placed(r.grids, r.holds) && r.holds == c.holds
  {
    hide Placed, Store, AtHold;
    if k > 0 {
      StoreAllKeeps(c, rows, k - 1);
      StoreKeeps(StoreAll(c, rows, k - 1), rows[k - 1], false);
    }
  }

  lemma PutGridKeeps(c: State, gid: string, rest: string, tiles: seq<Tile>)
    requires Placed(c.grids, c.holds)
    ensures var r := PutGrid(c, gid, rest, tiles); Placed(r.grids, r.holds)
  {
    hide Placed, ReadRows, Install, StoreAll, AtHold;
    var r := ReadRows(c, gid, tiles, |tiles|);
    ReadRowsKeep(c, gid, tiles, |tiles|);
    InstallKeeps(r, gid, rest);
    StoreAllKeeps(Install(r, gid, rest), r.away, |r.away|);
  }

  lemma RemovalKeeps(grids: map<string, Grid>, holds: map<string, Hold>, g: string, t: string)
    requires Placed(grids, holds)
    ensures g in grids ==> Placed(grids[g := grids[g].(tiles := grids[g].tiles - {t})], holds)
  {
    if g in grids {
      var r := grids[g := grids[g].(tiles := grids[g].tiles - {t})];
      assert forall h, x :: CachedIn(r, h, x) ==> CachedIn(grids, h, x) && r[h].tiles[x] == grids[h].tiles[x];
    }
  }

  lemma ApplyKeeps(c: State, ev: Event)
    requires Placed(c.grids, c.holds)
    ensures var r := Apply(c, ev); Placed(r.grids, r.holds)
  {
    hide Store, Admit, Age;
    match ev
    case TileChanged(n, told) =>
      AdmitKeeps(c, n, true);
      var (held, row) := Admit(c, n, true);
      StoreKeeps(held, row, told);
    case TileRemoved(g, t) =>
      RemovalKeeps(c.grids, c.holds, g, t);
    case _ =>
  }

  lemma AnswersKeep(c: State, g: string, n: Tile, w: Wrote)
    requires Placed(c.grids, c.holds)
    ensures var r := UpdateTile(c, g, n); Placed(r.grids, r.holds)
    ensures var r := PutWriteResponse(c, g, n, w); Placed(r.grids, r.holds)
  {
    hide Store, PutTile, Admit, Folded;
    AdmitKeeps(c, n, false);
    var (held, row) := Admit(c, n, false);
    StoreKeeps(held, row, false);
    if CachedIn(c.grids, g, n.id) {
      var m := Folded(c.grids[g].tiles[n.id], n, w);
      AdmitKeeps(c, m, false);
      var (held', row') := Admit(c, m, false);
      if row'.at.gridId != c.grids[g].id {
        StoreKeeps(held', row', false);
      } else {
        PutTileKeeps(held', g, row', false);
      }
    }
  }

  lemma MovesKeep(c: State, t: string, p: Placement, m: Moving, answered: string)
    requires Placed(c.grids, c.holds)
    ensures var r := Move(c, t, p); Placed(r.grids, r.holds)
    ensures var r := Failed(c, m); Placed(r.grids, r.holds)
    ensures var r := LandHold(c, m, answered); Placed(r.grids, r.holds)
  {
    hide Store;
    if RowOf(c.grids, t).Some? {
      MoveKeeps(c, t, p);
    }
    var freed := c.(holds := c.holds - {m.id});
    assert Placed(freed.grids, freed.holds);
    if Current(c, m) && RowOf(freed.grids, m.id).Some? {
      var cur := RowOf(freed.grids, m.id).value;
      assert cur.id == m.id;
      StoreKeeps(freed, cur.(at := m.origin), false);
    }
  }

  lemma RowFacts(c: State, t: string, p: Placement)
    requires Placed(c.grids, c.holds) && RowOf(c.grids, t).Some?
    ensures RowOf(c.grids, t).value.id == t && !Refused(c, p.gridId, RowOf(c.grids, t).value)
    ensures p.gridId in c.grids ==> c.grids[p.gridId].id == p.gridId
  {
  }

  /** A move's own row is stored: it is the cached one, so its version is no older. */
  lemma MoveKeeps(c: State, t: string, p: Placement)
    requires Placed(c.grids, c.holds) && RowOf(c.grids, t).Some?
    ensures var r := Move(c, t, p);
            && Placed(r.grids, r.holds) && t in r.holds && r.holds[t] == Hold(p, c.moves + 1, false)
            && (Cached(r.grids, t) <==> p.gridId in c.grids)
  {
    hide PutTile, WithoutTile, Age, Filed, OneHome;
    RowFacts(c, t, p);
    var n := RowOf(c.grids, t).value.(at := p);
    var h := c.(moves := c.moves + 1, holds := c.holds[t := Hold(p, c.moves + 1, false)]);
    var r := Move(c, t, p);
    assert !Refused(h, p.gridId, n);
    if p.gridId in c.grids {
      PutTilePlaces(h, p.gridId, n, false);
      NewRowPlaced(c.grids, r.grids, r.holds, n);
      assert CachedIn(r.grids, p.gridId, t);
    } else {
      EvictKeeps(c, t, p.gridId);
      GoneIsPlaced(Evict(c, t, p.gridId).grids, c.holds, r.holds, t);
    }
  }

  lemma GoneIsPlaced(grids: map<string, Grid>, was: map<string, Hold>, holds: map<string, Hold>, t: string)
    requires Placed(grids, was) && !Cached(grids, t)
    requires forall x :: x in holds && x != t ==> x in was && holds[x] == was[x]
    ensures Placed(grids, holds)
  {
  }

  /** Every operation keeps every tile in one home, under its own ids, at its hold. */
  lemma StepKeepsPlaces(c: State, op: Op)
    requires Placed(c.grids, c.holds)
    ensures Placed(Step(c, op).grids, Step(c, op).holds)
  {
    hide Placed, PutGrid, Apply, UpdateTile, PutWriteResponse, Move, LandHold, Failed;
    match op
    case OpPutGrid(gid, rest, tiles) => PutGridKeeps(c, gid, rest, tiles);
    case OpApply(ev) => ApplyKeeps(c, ev);
    case OpUpdateTile(g, row) => AnswersKeep(c, g, row, WroteBody);
    case OpWriteResponse(g, row, w) => AnswersKeep(c, g, row, w);
    case OpMove(t, p) => MovesKeep(c, t, p, Moving(t, 0, p), t);
    case OpLandHold(m, answered) => MovesKeep(c, m.id, m.origin, m, answered);
    case OpFailed(m) => MovesKeep(c, m.id, m.origin, m, m.id);
    case _ =>
  }

  /** Over every run, from the empty cache on. */
  lemma {:induction false} RunKeepsPlaces(ops: seq<Op>)
    ensures Placed(Run(EMPTY, ops).grids, Run(EMPTY, ops).holds)
  {
    hide Step;
    if ops != [] {
      RunKeepsPlaces(ops[..|ops| - 1]);
      StepKeepsPlaces(Run(EMPTY, ops[..|ops| - 1]), ops[|ops| - 1]);
    }
  }

  /** A row kept nowhere else is not planted by storing another. */
  lemma StoreAddsOnly(c: State, n: Tile, told: bool, t: string)
    requires Placed(c.grids, c.holds) && Cached(Store(c, n, told).grids, t)
    ensures t == n.id || Cached(c.grids, t)
  {
    hide Age, WithoutTile;
    var g :| CachedIn(Store(c, n, told).grids, g, t);
    if n.at.gridId in c.grids && !Refused(c, n.at.gridId, n) {
      PutTilePlaces(c, n.at.gridId, n, told);
    }
    if t != n.id { assert CachedIn(c.grids, g, t); }
  }

  /** Neither a row read outside the stream nor a write's answer ever caches a tile that
      was not. */
  lemma AnswersNeverPlant(c: State, g: string, n: Tile, w: Wrote, t: string)
    requires Placed(c.grids, c.holds)
    ensures Cached(UpdateTile(c, g, n).grids, t) ==> Cached(c.grids, t)
    ensures Cached(PutWriteResponse(c, g, n, w).grids, t) ==> Cached(c.grids, t)
  {
    hide Placed, Store, Admit, Folded, WithoutTile, Age, Cached, PutTile;
    if CachedIn(c.grids, g, n.id) {
      CachedSomewhere(c.grids, g, n.id);
      AdmitKeeps(c, n, false);
      var (held, row) := Admit(c, n, false);
      if Cached(UpdateTile(c, g, n).grids, t) {
        StoreAddsOnly(held, row, false, t);
      }
      var m := Folded(c.grids[g].tiles[n.id], n, w);
      FoldedId(c.grids[g].tiles[n.id], n, w);
      GridFiled(c, g, n.id);
      AdmitKeeps(c, m, false);
      var (held', row') := Admit(c, m, false);
      if Cached(PutWriteResponse(c, g, n, w).grids, t) {
        if row'.at.gridId == g {
          StoreIsPut(held', row');
        }
        if !(ClaimsVersion(w) && n.version < c.grids[g].tiles[n.id].version) {
          StoreAddsOnly(held', row', false, t);
        }
      }
    }
  }

  lemma CachedSomewhere(grids: map<string, Grid>, g: string, t: string)
    requires CachedIn(grids, g, t)
    ensures Cached(grids, t)
  {
  }

  lemma GridFiled(c: State, g: string, t: string)
    requires Placed(c.grids, c.holds) && CachedIn(c.grids, g, t)
    ensures c.grids[g].id == g && c.grids[g].tiles[t].id == t
  {
  }

  lemma FoldedId(cur: Tile, resp: Tile, w: Wrote)
    ensures Folded(cur, resp, w).id == cur.id
  {
  }

  lemma StoreIsPut(c: State, n: Tile)
    requires n.at.gridId in c.grids
    ensures Store(c, n, false) == PutTile(c, n.at.gridId, n, false)
  {
  }

  lemma StoreVersions(c: State, n: Tile, told: bool, g: string, t: string)
    requires Placed(c.grids, c.holds)
    requires CachedIn(c.grids, g, t) && CachedIn(Store(c, n, told).grids, g, t)
    ensures Store(c, n, told).grids[g].tiles[t].version >= c.grids[g].tiles[t].version
  {
    hide Age, WithoutTile;
    if n.at.gridId in c.grids && !Refused(c, n.at.gridId, n) {
      PutTilePlaces(c, n.at.gridId, n, told);
    }
  }

  lemma ResponseVersions(c: State, g: string, resp: Tile, w: Wrote, h: string, t: string)
    requires Placed(c.grids, c.holds)
    requires CachedIn(c.grids, h, t) && CachedIn(PutWriteResponse(c, g, resp, w).grids, h, t)
    ensures PutWriteResponse(c, g, resp, w).grids[h].tiles[t].version >= c.grids[h].tiles[t].version
  {
    hide Store, Admit, Age, Folded, PutTile, OneHome, HeldInPlace;
    if CachedIn(c.grids, g, resp.id) {
      GridFiled(c, g, resp.id);
      var m := Folded(c.grids[g].tiles[resp.id], resp, w);
      AdmitKeeps(c, m, false);
      var (held, row) := Admit(c, m, false);
      if row.at.gridId == g { StoreIsPut(held, row); }
      if CachedIn(Store(held, row, false).grids, h, t) { StoreVersions(held, row, false, h, t); }
    }
  }

  /** Nothing but a grid read takes a cached row back a version: no event, answer, move or
      failure, in whatever order they come. */
  lemma VersionsNeverFall(c: State, op: Op, g: string, t: string)
    requires Placed(c.grids, c.holds) && !op.OpPutGrid?
    requires CachedIn(c.grids, g, t) && CachedIn(Step(c, op).grids, g, t)
    ensures Step(c, op).grids[g].tiles[t].version >= c.grids[g].tiles[t].version
  {
    hide Store, Admit, PutWriteResponse, Age, RowOf, Differs, Placed;
    match op
    case OpApply(TileChanged(n, told)) =>
      AdmitKeeps(c, n, true);
      StoreVersions(Admit(c, n, true).0, Admit(c, n, true).1, told, g, t);
    case OpUpdateTile(h, n) =>
      AdmitKeeps(c, n, false);
      if CachedIn(c.grids, h, n.id) { StoreVersions(Admit(c, n, false).0, Admit(c, n, false).1, false, g, t); }
    case OpWriteResponse(h, n, w) => ResponseVersions(c, h, n, w, g, t);
    case OpMove(x, p) => MoveVersions(c, x, p, g, t);
    case OpFailed(m) =>
      var freed := c.(holds := c.holds - {m.id});
      FreedPlaced(c, m.id);
      if Current(c, m) && RowOf(freed.grids, m.id).Some? {
        StoreVersions(freed, RowOf(freed.grids, m.id).value.(at := m.origin), false, g, t);
      }
    case _ => SameRows(c, op, g, t);
  }

  lemma FreedPlaced(c: State, t: string)
    requires Placed(c.grids, c.holds)
    ensures Placed(c.grids, c.holds - {t})
  {
  }

  lemma MoveVersions(c: State, x: string, p: Placement, g: string, t: string)
    requires Placed(c.grids, c.holds)
    requires CachedIn(c.grids, g, t) && CachedIn(Move(c, x, p).grids, g, t)
    ensures Move(c, x, p).grids[g].tiles[t].version >= c.grids[g].tiles[t].version
  {
    hide PutTile, Age, WithoutTile, HeldInPlace, Filed;
    if RowOf(c.grids, x).Some? {
      if p.gridId in c.grids {
        MovedRow(c, x, p);
        hide Move;
      }
    }
  }

  lemma SameRows(c: State, op: Op, g: string, t: string)
    requires CachedIn(c.grids, g, t)
    requires !op.OpPutGrid? && !op.OpUpdateTile? && !op.OpWriteResponse? && !op.OpMove? && !op.OpFailed?
    requires op.OpApply? ==> !op.ev.TileChanged?
    ensures CachedIn(Step(c, op).grids, g, t) ==> Step(c, op).grids[g].tiles[t] == c.grids[g].tiles[t]
  {
    hide RowOf, Differs;
  }

  // ---------------------------------------------------------------- holds

  /** What can end a tile's hold: its own echo, a read once its write has landed, its
      answer under another id, its failure, or a newer move. */
  ghost predicate MayEnd(c: State, op: Op, t: string)
    requires t in c.holds
  {
    var h := c.holds[t];
    match op
    case OpApply(TileChanged(n, _)) => n.id == t && n.at == h.p
    case OpPutGrid(gid, _, tiles) => h.landed && (gid == h.p.gridId || exists i :: 0 <= i < |tiles| && tiles[i].id == t)
    case OpUpdateTile(_, row) => h.landed && row.id == t
    case OpWriteResponse(_, row, _) => h.landed && row.id == t
    case OpMove(x, _) => x == t && Cached(c.grids, t)
    case OpLandHold(m, answered) => m.id == t && m.number == h.number && answered != t
    case OpFailed(m) => m.id == t && m.number == h.number
    case _ => false
  }

  lemma AdmitHolds(c: State, n: Tile, stream: bool, t: string)
    ensures var held := Admit(c, n, stream).0;
            && Admit(c, n, stream).1.id == n.id
            && (t in held.holds ==> t in c.holds && held.holds[t] == c.holds[t])
            && (t in c.holds && t !in held.holds ==>
                  n.id == t && if stream then n.at == c.holds[t].p else c.holds[t].landed)
  {
  }

  lemma StoreHolds(c: State, n: Tile, told: bool)
    ensures Store(c, n, told).holds == c.holds
  {
    hide WithoutTile, Age;
  }

  lemma {:induction false} ReadRowsHolds(c: State, gid: string, tiles: seq<Tile>, k: nat, t: string)
    requires k <= |tiles| && t in c.holds
    ensures var r := ReadRows(c, gid, tiles, k).c;
            && (t in r.holds ==> r.holds[t] == c.holds[t])
            && (t !in r.holds ==> c.holds[t].landed && exists i :: 0 <= i < k && tiles[i].id == t)
  {
    hide Admit, WithoutTile, Age;
    if k > 0 {
      ReadRowsHolds(c, gid, tiles, k - 1, t);
      AdmitHolds(ReadRows(c, gid, tiles, k - 1).c, tiles[k - 1], false, t);
    }
  }

  lemma {:induction false} StoreAllHolds(c: State, rows: seq<Tile>, k: nat)
    requires k <= |rows|
    ensures StoreAll(c, rows, k).holds == c.holds
  {
    hide Store;
    if k > 0 {
      StoreAllHolds(c, rows, k - 1);
      StoreHolds(StoreAll(c, rows, k - 1), rows[k - 1], false);
    }
  }

  lemma PutGridHolds(c: State, gid: string, rest: string, tiles: seq<Tile>, t: string)
    requires t in c.holds
    ensures var r := PutGrid(c, gid, rest, tiles);
            && (t in r.holds ==> r.holds[t] == c.holds[t])
            && (t !in r.holds ==> MayEnd(c, OpPutGrid(gid, rest, tiles), t))
  {
    hide ReadRows, StoreAll, KeptRows;
    var r := ReadRows(c, gid, tiles, |tiles|);
    ReadRowsHolds(c, gid, tiles, |tiles|, t);
    StoreAllHolds(Install(r, gid, rest), r.away, |r.away|);
  }

  /** A hold ends for those reasons only; until one comes it stands as the move left it, but
      for being marked landed by its own answer. */
  lemma HoldStands(c: State, op: Op, t: string)
    requires Placed(c.grids, c.holds) && t in c.holds && !MayEnd(c, op, t)
    ensures t in Step(c, op).holds
    ensures var h := Step(c, op).holds[t];
            h == c.holds[t] || (h == c.holds[t].(landed := true) && op.OpLandHold? && Current(c, op.moving))
  {
    hide Store, Admit, PutGrid, Folded, PutTile, Age, OneHome, HeldInPlace;
    match op
    case OpPutGrid(gid, rest, tiles) => PutGridHolds(c, gid, rest, tiles, t);
    case OpApply(TileChanged(n, told)) =>
      AdmitHolds(c, n, true, t);
      StoreHolds(Admit(c, n, true).0, Admit(c, n, true).1, told);
    case OpUpdateTile(g, n) =>
      AdmitHolds(c, n, false, t);
      StoreHolds(Admit(c, n, false).0, Admit(c, n, false).1, false);
    case OpWriteResponse(g, n, w) => WriteHolds(c, g, n, w, t);
    case OpMove(x, p) =>
      if RowOf(c.grids, x).Some? {
        StoreHolds(c.(moves := c.moves + 1, holds := c.holds[x := Hold(p, c.moves + 1, false)]),
          RowOf(c.grids, x).value.(at := p), false);
      }
    case OpFailed(m) =>
      var freed := c.(holds := c.holds - {m.id});
      if RowOf(freed.grids, m.id).Some? {
        StoreHolds(freed, RowOf(freed.grids, m.id).value.(at := m.origin), false);
      }
    case _ =>
  }

  lemma WriteHolds(c: State, g: string, n: Tile, w: Wrote, t: string)
    requires t in c.holds && !(c.holds[t].landed && n.id == t)
    requires CachedIn(c.grids, g, n.id) ==> c.grids[g].tiles[n.id].id == n.id
    ensures var r := PutWriteResponse(c, g, n, w); t in r.holds && r.holds[t] == c.holds[t]
  {
    hide Admit, Age, WithoutTile;
    if CachedIn(c.grids, g, n.id) {
      var m := Folded(c.grids[g].tiles[n.id], n, w);
      AdmitHolds(c, m, false, t);
    }
  }

  /** A move taken back at once leaves every grid as it was, exactly when its target grid was
      cached; otherwise the row is gone until its grid is read again. */
  lemma MoveTakenBack(c: State, t: string, p: Placement)
    requires Placed(c.grids, c.holds) && RowOf(c.grids, t).Some?
    ensures var r := Failed(Move(c, t, p), Claimed(c, t).value);
            && r.holds == c.holds - {t}
            && (r.grids == c.grids <==> p.gridId in c.grids)
            && (p.gridId !in c.grids ==> !Cached(r.grids, t))
  {
    hide Placed, PutTile, WithoutTile, Age, Refused;
    var cur := RowOf(c.grids, t).value;
    var m := Claimed(c, t).value;
    var moved := Move(c, t, p);
    MoveKeeps(c, t, p);
    var freed := moved.(holds := moved.holds - {t});
    assert moved.holds == c.holds[t := Hold(p, c.moves + 1, false)] by {
      StoreHolds(c.(moves := c.moves + 1, holds := c.holds[t := Hold(p, c.moves + 1, false)]), cur.(at := p), false);
    }
    assert freed.holds == c.holds - {t};
    if p.gridId in c.grids {
      BackInPlace(c, freed, t, p);
    } else {
      CachedSame(c, t);
    }
    if RowOf(moved.grids, t).Some? {
      StoreHolds(freed, RowOf(moved.grids, t).value.(at := cur.at), false);
    }
  }

  lemma CachedSame(c: State, t: string)
    requires RowOf(c.grids, t).Some?
    ensures Cached(c.grids, t)
  {
  }

  /** Where a move leaves the row. */
  lemma MovedRow(c: State, t: string, p: Placement)
    requires Placed(c.grids, c.holds) && RowOf(c.grids, t).Some? && p.gridId in c.grids
    ensures var r := Move(c, t, p).grids;
            && RowOf(r, t) == Some(RowOf(c.grids, t).value.(at := p))
            && (forall h, x :: CachedIn(r, h, x) <==> if x == t then h == p.gridId else CachedIn(c.grids, h, x))
            && (forall h, x :: CachedIn(r, h, x) && x != t ==> r[h].tiles[x] == c.grids[h].tiles[x])
            && r.Keys == c.grids.Keys
            && (forall h :: h in r ==> r[h].id == c.grids[h].id && r[h].rest == c.grids[h].rest)
  {
    hide PutTile, WithoutTile, Age, HeldInPlace;
    RowFacts(c, t, p);
    var n := RowOf(c.grids, t).value.(at := p);
    var h := c.(moves := c.moves + 1, holds := c.holds[t := Hold(p, c.moves + 1, false)]);
    assert !Refused(h, p.gridId, n);
    PutTilePlaces(h, p.gridId, n, false);
  }

  /** Two sets of grids with the same rows are the same. */
  lemma SameGrids(r: map<string, Grid>, was: map<string, Grid>)
    requires r.Keys == was.Keys
    requires forall h :: h in r ==> r[h].id == was[h].id && r[h].rest == was[h].rest
    requires forall h, x :: CachedIn(r, h, x) <==> CachedIn(was, h, x)
    requires forall h, x :: CachedIn(r, h, x) && CachedIn(was, h, x) ==> r[h].tiles[x] == was[h].tiles[x]
    ensures r == was
  {
    forall h | h in was
      ensures r[h] == was[h]
    {
      forall x
        ensures x in r[h].tiles <==> x in was[h].tiles
        ensures x in r[h].tiles ==> r[h].tiles[x] == was[h].tiles[x]
      {
        assert CachedIn(r, h, x) <==> CachedIn(was, h, x);
      }
      assert r[h].tiles == was[h].tiles;
    }
  }

  /** The cached row is where its placement says, and nowhere else. */
  lemma RowHome(grids: map<string, Grid>, t: string)
    requires OneHome(grids) && Filed(grids) && RowOf(grids, t).Some?
    ensures var cur := RowOf(grids, t).value;
            && cur.id == t && CachedIn(grids, cur.at.gridId, t) && grids[cur.at.gridId].tiles[t] == cur
            && grids[cur.at.gridId].id == cur.at.gridId
            && forall h :: CachedIn(grids, h, t) ==> h == cur.at.gridId
  {
  }

  lemma BackInPlace(c: State, freed: State, t: string, p: Placement)
    requires Placed(c.grids, c.holds) && RowOf(c.grids, t).Some? && p.gridId in c.grids
    requires freed.grids == Move(c, t, p).grids
    ensures RowOf(freed.grids, t).Some?
    ensures Store(freed, RowOf(freed.grids, t).value.(at := RowOf(c.grids, t).value.at), false).grids == c.grids
  {
    hide PutTile, WithoutTile, Age, HeldInPlace, Move, OneHome, Filed, RowOf;
    var cur := RowOf(c.grids, t).value;
    MovedRow(c, t, p);
    var g := cur.at.gridId;
    RowHome(c.grids, t);
    assert !Refused(freed, g, cur);
    PutTilePlaces(freed, g, cur, false);
    SameGrids(PutTile(freed, g, cur, false).grids, c.grids);
  }

  // ---------------------------------------------------------------- bodies

  /** From c to r no body was changed, and none dropped that has an unsaved edit or, outside
      loose, a write in flight. */
  ghost predicate Aged(c: State, r: State, loose: set<string>)
  {
    && r.gens == c.gens
    && (forall t :: t in c.writing && t !in loose ==> t in r.writing && (t in c.content ==> t in r.content))
    && (forall t :: t in r.content ==> t in c.content && r.content[t] == c.content[t])
    && (forall t :: t in c.content && c.content[t].dirty ==> t in r.content)
  }

  lemma AgeAges(c: State, n: Tile, told: bool)
    ensures Aged(c, Age(c, n, told), {})
  {
  }

  lemma StoreAges(c: State, n: Tile, told: bool)
    ensures Aged(c, Store(c, n, told), {})
    ensures n.at.gridId in c.grids ==> Aged(c, PutTile(c, n.at.gridId, n, told), {})
  {
    hide WithoutTile, Age;
    AgeAges(c, n, told);
  }

  lemma {:induction false} ReadRowsAge(c: State, gid: string, tiles: seq<Tile>, k: nat)
    requires k <= |tiles|
    ensures Aged(c, ReadRows(c, gid, tiles, k).c, {})
  {
    hide ReadRow, Aged;
    Unaged(c);
    if k > 0 {
      ReadRowsAge(c, gid, tiles, k - 1);
      var r := ReadRows(c, gid, tiles, k - 1);
      ReadRowAges(r, gid, tiles[k - 1]);
      AgedOn(c, r.c, ReadRow(r, gid, tiles[k - 1]).c);
    }
  }

  lemma ReadRowAges(r: Reading, gid: string, n: Tile)
    ensures Aged(r.c, ReadRow(r, gid, n).c, {})
  {
    hide WithoutTile, Age;
    var (held, row) := Admit(r.c, n, false);
    AgeAges(held, row, false);
  }

  lemma AgedOn(c: State, d: State, r: State)
    requires Aged(c, d, {}) && Aged(d, r, {})
    ensures Aged(c, r, {})
  {
  }

  lemma {:induction false} StoreAllAge(c: State, rows: seq<Tile>, k: nat)
    requires k <= |rows|
    ensures Aged(c, StoreAll(c, rows, k), {})
  {
    hide Store;
    if k > 0 {
      StoreAllAge(c, rows, k - 1);
      StoreAges(StoreAll(c, rows, k - 1), rows[k - 1], false);
    }
  }

  lemma PutGridAges(c: State, gid: string, rest: string, tiles: seq<Tile>)
    ensures Aged(c, PutGrid(c, gid, rest, tiles), {})
  {
    hide ReadRows, StoreAll, KeptRows, KeptHolds;
    var r := ReadRows(c, gid, tiles, |tiles|);
    ReadRowsAge(c, gid, tiles, |tiles|);
    StoreAllAge(Install(r, gid, rest), r.away, |r.away|);
  }

  /** The echo of a save's own row is not news of other bytes, unless it says they changed and
      names no stamp that could say they did not. */
  lemma OwnSaveIsNotNews(c: State, row: Tile, data: Bytes, told: bool)
    requires row.id !in c.writing
    ensures var s := PutSaved(c, row, data);
            row.id in Age(s, row, told).content <==> s.content[row.id].dirty || !told || row.stamp != ""
  {
  }

  predicate Writes(op: Op)
  {
    op.OpFetched? || op.OpEdited? || op.OpSaved? || op.OpDrop?
  }

  lemma PutTileAges(c: State, g: string, n: Tile, told: bool)
    requires g in c.grids
    ensures Aged(c, PutTile(c, g, n, told), {})
  {
    hide WithoutTile, Age;
    AgeAges(c, n, told);
  }

  /** The tile an op removes, or whose last write it ends. */
  function Loose(c: State, op: Op): set<string>
  {
    match op
    case OpApply(ev) => if ev.TileRemoved? then {ev.tileId} else {}
    case OpEndWrite(t) => if t in c.writing && c.writing[t].n > 1 then {} else {t}
    case _ => {}
  }

  /** Rows, events, moves and the ends of writes only age bodies. */
  lemma OthersAge(c: State, op: Op)
    requires !Writes(op)
    ensures Aged(c, Step(c, op), Loose(c, op))
  {
    hide Store, Admit, PutGrid, Folded, PutTile, Age, Aged;
    Unaged(c);
    match op
    case OpPutGrid(gid, rest, tiles) => PutGridAges(c, gid, rest, tiles);
    case OpApply(ev) => EventAges(c, ev);
    case OpUpdateTile(g, n) =>
      AgeAges(c, n, false);
      AdmitAged(c, n, false, false);
    case OpWriteResponse(g, n, w) => ResponseAges(c, g, n, w);
    case OpMove(t, p) =>
      if RowOf(c.grids, t).Some? {
        var h := c.(moves := c.moves + 1, holds := c.holds[t := Hold(p, c.moves + 1, false)]);
        StoreAges(h, RowOf(c.grids, t).value.(at := p), false);
        SameBodies(c, h, Step(c, op));
      }
    case OpLandHold(m, answered) => SameBodies(c, Step(c, op), Step(c, op));
    case OpFailed(m) =>
      var freed := c.(holds := c.holds - {m.id});
      SameBodies(c, freed, freed);
      if RowOf(freed.grids, m.id).Some? {
        StoreAges(freed, RowOf(freed.grids, m.id).value.(at := m.origin), false);
        SameBodies(c, freed, Store(freed, RowOf(freed.grids, m.id).value.(at := m.origin), false));
      }
    case OpBeginWrite(t) => SameBodies(c, Step(c, op), Step(c, op));
    case OpEndWrite(t) => EndAges(c, t);
  }

  lemma Unaged(c: State)
    ensures Aged(c, c, {})
  {
  }

  lemma SameBodies(c: State, d: State, r: State)
    requires c.content == d.content && c.gens == d.gens && c.writing.Keys <= d.writing.Keys && (Aged(d, r, {}) || d == r)
    ensures Aged(c, r, {})
  {
  }

  lemma AdmitAged(c: State, n: Tile, stream: bool, told: bool)
    ensures var (held, row) := Admit(c, n, stream); Aged(c, Store(held, row, told), {})
    ensures var (held, row) := Admit(c, n, stream);
            forall g :: g in held.grids ==> Aged(c, PutTile(held, g, row, told), {})
  {
    hide Store, PutTile;
    var (held, row) := Admit(c, n, stream);
    StoreAges(held, row, told);
    forall g | g in held.grids ensures Aged(c, PutTile(held, g, row, told), {}) {
      PutTileAges(held, g, row, told);
    }
  }

  lemma EventAges(c: State, ev: Event)
    ensures Aged(c, Apply(c, ev), Loose(c, OpApply(ev)))
  {
    hide Store, Admit;
    if ev.TileChanged? {
      AdmitAged(c, ev.tile, true, ev.told);
    }
  }

  lemma ResponseAges(c: State, g: string, n: Tile, w: Wrote)
    ensures Aged(c, PutWriteResponse(c, g, n, w), {})
  {
    hide Store, Admit, PutTile, Folded, Age, Aged;
    Unaged(c);
    AgeAges(c, n, false);
    if CachedIn(c.grids, g, n.id) {
      AdmitAged(c, Folded(c.grids[g].tiles[n.id], n, w), false, false);
      AdmitGrids(c, Folded(c.grids[g].tiles[n.id], n, w));
    }
  }

  lemma AdmitGrids(c: State, n: Tile)
    ensures Admit(c, n, false).0.grids == c.grids
  {
  }

  lemma EndAges(c: State, t: string)
    ensures Aged(c, EndWrite(c, t), Loose(c, OpEndWrite(t)))
  {
    hide Age;
    if t in c.writing && c.writing[t].n - 1 <= 0 {
      var freed := c.(writing := c.writing - {t});
      var n := if RowOf(c.grids, t).Some? then RowOf(c.grids, t) else c.writing[t].last;
      if n.Some? {
        AgeAges(freed, n.value, c.writing[t].told);
      }
    }
  }

  /** The op writes the tile's body itself, removes the tile, or ends the last of its writes. */
  predicate Reaches(c: State, op: Op, t: string)
  {
    match op
    case OpFetched(x, _, _, _) => x == t
    case OpEdited(x, _) => x == t
    case OpSaved(row, _) => row.id == t
    case OpDrop(x) => x == t
    case OpApply(ev) => ev.TileRemoved? && ev.tileId == t
    case OpEndWrite(x) => x == t && !(t in c.writing && c.writing[t].n > 1)
    case _ => false
  }

  lemma StepHoldsAging(c: State, op: Op, t: string)
    requires t in c.writing && !Reaches(c, op, t)
    ensures var r := Step(c, op);
            && t in r.writing && (t in r.content <==> t in c.content)
            && (t in c.content ==> r.content[t] == c.content[t])
  {
    hide PutGrid, Apply, UpdateTile, PutWriteResponse, Move, LandHold, Failed, EndWrite, BeginWrite, RowOf, Differs;
    if !Writes(op) {
      OthersAge(c, op);
    }
  }

  /** While any write of a tile is in flight, however many overlap, nothing ages its body: over
      any run it is what it was, byte for byte, unless an op writes it by name, the tile is
      removed, or the last write ends. */
  lemma {:induction false} WriteHoldsAging(c: State, ops: seq<Op>, t: string)
    requires t in c.writing
    requires forall i :: 0 <= i < |ops| ==> !Reaches(Run(c, ops[..i]), ops[i], t)
    ensures var r := Run(c, ops);
            && t in r.writing && (t in r.content <==> t in c.content)
            && (t in c.content ==> r.content[t] == c.content[t])
  {
    hide Step, Reaches;
    if ops != [] {
      var k := |ops| - 1;
      forall i | 0 <= i < k ensures !Reaches(Run(c, ops[..k][..i]), ops[..k][i], t) {
        assert ops[..k][..i] == ops[..i];
        assert !Reaches(Run(c, ops[..i]), ops[i], t);
      }
      WriteHoldsAging(c, ops[..k], t);
      StepHoldsAging(Run(c, ops[..k]), ops[k], t);
    }
  }

  /** A row seen during a write waits for its end, which ages the body against the row
      then cached, or else the last one seen. */
  lemma LastEndAges(c: State, t: string, n: Tile, told: bool)
    requires Placed(c.grids, c.holds) && n.id == t && t !in c.writing
    ensures var w := Age(BeginWrite(c, t), n, told);
            && w.content == c.content
            && EndWrite(w, t) == Age(c, if RowOf(c.grids, t).Some? then RowOf(c.grids, t).value else n, told)
  {
    var w := Age(BeginWrite(c, t), n, told);
    assert w.writing - {t} == c.writing;
    assert w.(writing := w.writing - {t}) == c;
  }

  /** What gives up or replaces an unsaved edit: an edit to other bytes, a save that
      confirms these very bytes, or dropping the body by name. */
  ghost predicate Releases(c: State, op: Op, t: string)
    requires t in c.content
  {
    match op
    case OpEdited(x, data) => x == t && data != c.content[t].data
    case OpSaved(row, data) => row.id == t && data == c.content[t].data
    case OpDrop(x) => x == t
    case _ => false
  }

  /** The tile has these bytes, unsaved. */
  predicate Unsaved(c: State, t: string, data: Bytes)
  {
    t in c.content && c.content[t].dirty && c.content[t].data == data
  }

  /** No fetch, event, grid read, answer or write's end discards or overwrites an unsaved
      edit, and only what releases it does. */
  lemma EditSurvives(c: State, op: Op, t: string)
    requires t in c.content && c.content[t].dirty
    ensures Unsaved(Step(c, op), t, c.content[t].data) <==> !Releases(c, op, t)
  {
    hide PutGrid, Apply, UpdateTile, PutWriteResponse, Move, LandHold, Failed, EndWrite, BeginWrite, RowOf, Differs;
    if !Writes(op) {
      OthersAge(c, op);
    }
  }

  /** Over any run that never releases it, the edit is still there, byte for byte. */
  lemma {:induction false} RunKeepsEdit(c: State, ops: seq<Op>, t: string)
    requires t in c.content && c.content[t].dirty
    requires forall i :: 0 <= i < |ops| && t in Run(c, ops[..i]).content ==> !Releases(Run(c, ops[..i]), ops[i], t)
    ensures Unsaved(Run(c, ops), t, c.content[t].data)
  {
    hide Step, Releases;
    if ops != [] {
      var k := |ops| - 1;
      forall i | 0 <= i < k && t in Run(c, ops[..k][..i]).content
        ensures !Releases(Run(c, ops[..k][..i]), ops[..k][i], t)
      {
        assert ops[..k][..i] == ops[..i];
      }
      RunKeepsEdit(c, ops[..k], t);
      EditSurvives(Run(c, ops[..k]), ops[k], t);
    }
  }

  /** The bytes each generation has named so far. */
  ghost function Named(c: State, names: map<nat, Bytes>, op: Op): map<nat, Bytes>
  {
    if Writes(op) && !op.OpDrop? && Step(c, op).gens > c.gens then names[Step(c, op).gens := op.data] else names
  }

  ghost function NamedBy(c: State, ops: seq<Op>): map<nat, Bytes>
  {
    if ops == [] then map[]
    else Named(Run(c, ops[..|ops| - 1]), NamedBy(c, ops[..|ops| - 1]), ops[|ops| - 1])
  }

  ghost predicate Names(c: State, names: map<nat, Bytes>)
  {
    && (forall n :: n in names ==> 1 <= n <= c.gens)
    && (forall t :: t in c.content ==> c.content[t].gen in names && names[c.content[t].gen] == c.content[t].data)
  }

  lemma StepNames(c: State, names: map<nat, Bytes>, op: Op)
    requires Names(c, names)
    ensures Names(Step(c, op), Named(c, names, op))
    ensures forall n :: n in names ==> n in Named(c, names, op) && Named(c, names, op)[n] == names[n]
  {
    hide PutFetched, PutEdited, PutSaved, Step;
    if !Writes(op) {
      OthersAge(c, op);
    } else {
      WriteNames(c, names, op);
    }
  }

  lemma WriteNames(c: State, names: map<nat, Bytes>, op: Op)
    requires Names(c, names) && Writes(op)
    ensures Names(Step(c, op), Named(c, names, op)) && Step(c, op).gens >= c.gens
  {
    hide RowOf, Differs;
  }

  lemma {:induction false} RunNames(ops: seq<Op>, k: nat)
    requires k <= |ops|
    ensures Names(Run(EMPTY, ops), NamedBy(EMPTY, ops))
    ensures forall n :: n in NamedBy(EMPTY, ops[..k]) ==>
              n in NamedBy(EMPTY, ops) && NamedBy(EMPTY, ops)[n] == NamedBy(EMPTY, ops[..k])[n]
  {
    hide Step, Named, Names;
    if ops == [] {
      assert Names(EMPTY, map[]) by { NoNames(); }
      assert ops[..k] == ops;
    } else {
      var rest := ops[..|ops| - 1];
      if k == |ops| {
        assert ops[..k] == ops;
        RunNames(rest, |rest|);
      } else {
        assert ops[..k] == rest[..k];
        RunNames(rest, k);
      }
      StepNames(Run(EMPTY, rest), NamedBy(EMPTY, rest), ops[|ops| - 1]);
    }
  }

  lemma NoNames()
    ensures Names(EMPTY, map[])
  {
  }

  /** Over a whole run one body generation never names two byte strings, whichever tiles
      carry it and whenever. */
  lemma {:induction false} GenNamesOneBody(ops: seq<Op>, k: nat, a: string, b: string)
    requires k <= |ops|
    ensures var early, late := Run(EMPTY, ops[..k]), Run(EMPTY, ops);
            && (a in early.content && b in late.content && early.content[a].gen == late.content[b].gen ==>
                  early.content[a].data == late.content[b].data)
            && (BodyGen(early, a) == BodyGen(late, b) != 0 ==> a in early.content && b in late.content)
            && (a in early.content ==> BodyGen(early, a) == early.content[a].gen != 0)
  {
    hide Run, NamedBy;
    RunNames(ops, k);
    RunNames(ops[..k], k);
  }
}
