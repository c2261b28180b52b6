/** client/cache/cache.go and client/cache/placement.go as functions over the cache's
    state: what each critical section does to the grids, the bodies, the holds and the
    writes in flight. Cache.dfy proves the methods that update those maps against them. */
module CacheState {
  import opened Options

  type Bytes = seq<bv8>

  datatype Placement = Placement(gridId: string, x: int, y: int, w: int, h: int)

  /** A row. rest stands for every field the cache neither reads nor sets on its own. */
  datatype Tile = Tile(id: string, at: Placement, version: int, blob: int, stamp: string,
    altText: string, url: string, frozen: bool, rest: string)

  datatype Grid = Grid(id: string, rest: string, tiles: map<string, Tile>)

  datatype Basis = Basis(version: int, stamp: string)

  datatype RowBasis = RowBasis(blob: int, stamp: string, known: bool)

  datatype Entry = Entry(data: Bytes, base: Basis, row: RowBasis, dirty: bool, gen: nat)

  datatype Hold = Hold(p: Placement, number: nat, landed: bool)

  datatype OwnWrite = OwnWrite(n: int, told: bool, last: Option<Tile>)

  datatype State = State(grids: map<string, Grid>, content: map<string, Entry>, gens: nat,
    holds: map<string, Hold>, writing: map<string, OwnWrite>, moves: nat)

  datatype Event =
    | TileChanged(tile: Tile, told: bool)
    | TileRemoved(gridId: string, tileId: string)
    | GridChanged(gridId: string)
    | SelectionChanged(gridId: string)

  /** One move's claim on the cache. */
  datatype Moving = Moving(id: string, number: nat, origin: Placement)

  datatype Wrote = WroteBody | WroteAddress | WroteName | WroteFrozen | WrotePlacement

  // ---------------------------------------------------------------- rows

  predicate CachedIn(grids: map<string, Grid>, g: string, t: string)
  {
    g in grids && t in grids[g].tiles
  }

  ghost predicate Cached(grids: map<string, Grid>, t: string)
  {
    exists g :: CachedIn(grids, g, t)
  }

  /** The cached row of a tile, from whichever grid holds it. */
  ghost function RowOf(grids: map<string, Grid>, t: string): (row: Option<Tile>)
    ensures row.Some? <==> Cached(grids, t)
    ensures row.Some? ==> exists g :: CachedIn(grids, g, t) && row.value == grids[g].tiles[t]
  {
    if Cached(grids, t) then
      var g :| CachedIn(grids, g, t);
      Some(grids[g].tiles[t])
    else None
  }

  /** A tile is cached in one grid at most. */
  ghost predicate OneHome(grids: map<string, Grid>)
  {
    forall g, h, t :: CachedIn(grids, g, t) && CachedIn(grids, h, t) ==> g == h
  }

  /** Grids and rows are filed under the ids they carry. */
  ghost predicate Filed(grids: map<string, Grid>)
  {
    && (forall g :: g in grids ==> grids[g].id == g)
    && (forall g, t :: CachedIn(grids, g, t) ==> grids[g].tiles[t].id == t && grids[g].tiles[t].at.gridId == g)
  }

  /** While a hold stands, a cached row of its tile is where the hold has put it. */
  ghost predicate HeldInPlace(grids: map<string, Grid>, holds: map<string, Hold>)
  {
    forall g, t :: CachedIn(grids, g, t) && t in holds ==> grids[g].tiles[t].at == holds[t].p
  }

  ghost predicate Placed(grids: map<string, Grid>, holds: map<string, Hold>)
  {
    OneHome(grids) && Filed(grids) && HeldInPlace(grids, holds)
  }

  // ---------------------------------------------------------------- bodies

  function BasisOf(n: Tile): Basis
  {
    Basis(n.version, n.stamp)
  }

  function RowBasisOf(n: Tile): RowBasis
  {
    RowBasis(n.blob, n.stamp, true)
  }

  predicate BlobDiffers(b: RowBasis, blob: int)
  {
    if !b.known then blob != 0 else blob != b.blob
  }

  /** The row may name other bytes than the row the body was filed under. */
  predicate Differs(b: RowBasis, n: Tile)
  {
    BlobDiffers(b, n.blob) || n.stamp != b.stamp
  }

  /** The row names bytes the entry does not hold. */
  predicate Behind(e: Entry, n: Tile, told: bool)
  {
    if e.dirty || n.version < e.base.version then false
    else if n.version > e.base.version then true
    else if n.stamp != "" then n.stamp != e.base.stamp
    else if told then true
    else BlobDiffers(e.row, n.blob)
  }

  /** A row ages a clean body it has moved past; a tile being written is aged at the end. */
  function Age(c: State, n: Tile, told: bool): (r: State)
    ensures r.grids == c.grids && r.holds == c.holds && r.gens == c.gens && r.moves == c.moves
  {
    if n.id in c.writing then
      var w := c.writing[n.id];
      c.(writing := c.writing[n.id := w.(told := w.told || told, last := Some(n))])
    else if n.id in c.content && Behind(c.content[n.id], n, told) then
      c.(content := c.content - {n.id})
    else c
  }

  // ---------------------------------------------------------------- storing rows

  /** Every grid but home forgets the tile. */
  function WithoutTile(grids: map<string, Grid>, t: string, home: string): (r: map<string, Grid>)
    ensures r.Keys == grids.Keys
    ensures forall g, x :: CachedIn(r, g, x) <==> CachedIn(grids, g, x) && (g == home || x != t)
    ensures forall g, x :: CachedIn(r, g, x) ==> CachedIn(grids, g, x) && r[g].tiles[x] == grids[g].tiles[x]
    ensures forall g :: g in grids ==> r[g].id == grids[g].id && r[g].rest == grids[g].rest
  {
    map g | g in grids :: if g == home then grids[g] else grids[g].(tiles := grids[g].tiles - {t})
  }

  function Evict(c: State, t: string, home: string): State
  {
    c.(grids := WithoutTile(c.grids, t, home))
  }

  /** A row older than the cached one is refused. */
  predicate Refused(c: State, g: string, n: Tile)
  {
    CachedIn(c.grids, g, n.id) && n.version < c.grids[g].tiles[n.id].version
  }

  /** The one way into a cached grid's tiles. */
  function PutTile(c: State, g: string, n: Tile, told: bool): State
    requires g in c.grids
  {
    if Refused(c, g, n) then c
    else
      var e := Evict(Age(c, n, told), n.id, c.grids[g].id);
      e.(grids := e.grids[g := e.grids[g].(tiles := e.grids[g].tiles[n.id := n])])
  }

  /** Into its own grid, or, for a grid not cached, only out of all others. */
  function Store(c: State, n: Tile, told: bool): State
  {
    if n.at.gridId in c.grids then PutTile(c, n.at.gridId, n, told)
    else Evict(Age(c, n, told), n.id, n.at.gridId)
  }

  predicate Stores(c: State, n: Tile)
  {
    n.at.gridId in c.grids && !Refused(c, n.at.gridId, n)
  }

  /** The row a held tile may store, and the holds it leaves. */
  function Admit(c: State, n: Tile, stream: bool): (State, Tile)
  {
    if n.id !in c.holds then (c, n)
    else
      var h := c.holds[n.id];
      if (stream && n.at == h.p) || (!stream && h.landed) then (c.(holds := c.holds - {n.id}), n)
      else (c, n.(at := h.p))
  }

  // ---------------------------------------------------------------- grid reads

  /** A grid read under way: the rows it keeps and those it hands to other grids. */
  datatype Reading = Reading(c: State, rows: map<string, Tile>, away: seq<Tile>)

  function ReadRow(r: Reading, gid: string, n: Tile): Reading
  {
    var (c, row) := Admit(r.c, n, false);
    if row.at.gridId != gid then Reading(c, r.rows, r.away + [row])
    else Reading(Evict(Age(c, row, false), row.id, gid), r.rows[row.id := row], r.away)
  }

  function ReadRows(c: State, gid: string, tiles: seq<Tile>, k: nat): Reading
    requires k <= |tiles|
  {
    if k == 0 then Reading(c, map[], []) else ReadRow(ReadRows(c, gid, tiles, k - 1), gid, tiles[k - 1])
  }

  /** The rows held in the grid that the read predates. */
  function KeptRows(c: State, gid: string, rows: map<string, Tile>): map<string, Tile>
  {
    map t | t in c.holds && c.holds[t].p.gridId == gid && !c.holds[t].landed && t !in rows &&
            CachedIn(c.grids, gid, t) :: c.grids[gid].tiles[t]
  }

  /** The holds a read of the grid leaves. */
  function KeptHolds(c: State, gid: string, rows: map<string, Tile>): map<string, Hold>
  {
    map t | t in c.holds && !(c.holds[t].p.gridId == gid && c.holds[t].landed && t !in rows) :: c.holds[t]
  }

  function Install(r: Reading, gid: string, rest: string): State
  {
    r.c.(holds := KeptHolds(r.c, gid, r.rows),
         grids := r.c.grids[gid := Grid(gid, rest, r.rows + KeptRows(r.c, gid, r.rows))])
  }

  function StoreAll(c: State, rows: seq<Tile>, k: nat): State
    requires k <= |rows|
  {
    if k == 0 then c else Store(StoreAll(c, rows, k - 1), rows[k - 1], false)
  }

  function PutGrid(c: State, gid: string, rest: string, tiles: seq<Tile>): State
  {
    var r := ReadRows(c, gid, tiles, |tiles|);
    StoreAll(Install(r, gid, rest), r.away, |r.away|)
  }

  // ---------------------------------------------------------------- events and answers

  function Apply(c: State, ev: Event): State
  {
    match ev
    case TileChanged(n, told) =>
      var (held, row) := Admit(c, n, true);
      Store(held, row, told)
    case TileRemoved(g, t) =>
      if g !in c.grids || (t in c.holds && c.holds[t].p.gridId == g) then c
      else
        c.(content := if t in c.content && c.content[t].dirty then c.content else c.content - {t},
           grids := c.grids[g := c.grids[g].(tiles := c.grids[g].tiles - {t})])
    case _ => c
  }

  /** Whether an event changed what is shown. */
  predicate Shows(c: State, ev: Event)
  {
    match ev
    case TileChanged(n, told) => var (held, row) := Admit(c, n, true); Stores(held, row)
    case TileRemoved(g, t) => CachedIn(c.grids, g, t) && !(t in c.holds && c.holds[t].p.gridId == g)
    case GridChanged(_) => true
    case SelectionChanged(_) => false
  }

  function UpdateTile(c: State, g: string, n: Tile): State
  {
    if CachedIn(c.grids, g, n.id) then
      var (held, row) := Admit(c, n, false);
      Store(held, row, false)
    else Age(c, n, false)
  }

  predicate ClaimsVersion(w: Wrote)
  {
    w != WroteFrozen && w != WrotePlacement
  }

  /** What one write set, out of its answer. */
  function Folded(cur: Tile, resp: Tile, w: Wrote): Tile
  {
    var n := if ClaimsVersion(w) then cur.(version := resp.version) else cur;
    match w
    case WroteBody => n.(blob := resp.blob, altText := resp.altText, stamp := resp.stamp)
    case WroteAddress => n.(url := resp.url)
    case WroteName => n.(altText := resp.altText)
    case WroteFrozen => n.(frozen := resp.frozen)
    case WrotePlacement => n.(at := resp.at)
  }

  function PutWriteResponse(c: State, g: string, resp: Tile, w: Wrote): State
  {
    if !CachedIn(c.grids, g, resp.id) then Age(c, resp, false)
    else if ClaimsVersion(w) && resp.version < c.grids[g].tiles[resp.id].version then c
    else
      var (held, row) := Admit(c, Folded(c.grids[g].tiles[resp.id], resp, w), false);
      if row.at.gridId != c.grids[g].id then Store(held, row, false) else PutTile(held, g, row, false)
  }

  // ---------------------------------------------------------------- moves ahead of their echo

  ghost function Move(c: State, t: string, p: Placement): State
  {
    match RowOf(c.grids, t)
    case None => c
    case Some(cur) =>
      Store(c.(moves := c.moves + 1, holds := c.holds[t := Hold(p, c.moves + 1, false)]), cur.(at := p), false)
  }

  ghost function Claimed(c: State, t: string): Option<Moving>
  {
    match RowOf(c.grids, t)
    case None => None
    case Some(cur) => Some(Moving(t, c.moves + 1, cur.at))
  }

  predicate Current(c: State, m: Moving)
  {
    m.id in c.holds && c.holds[m.id].number == m.number
  }

  /** The second half of Landed: what the answer's id says of the hold. */
  function LandHold(c: State, m: Moving, answered: string): State
  {
    if !Current(c, m) then c
    else if answered != m.id then c.(holds := c.holds - {m.id})
    else c.(holds := c.holds[m.id := c.holds[m.id].(landed := true)])
  }

  ghost function Failed(c: State, m: Moving): State
  {
    if !Current(c, m) then c
    else
      var freed := c.(holds := c.holds - {m.id});
      match RowOf(freed.grids, m.id)
      case None => freed
      case Some(cur) => Store(freed, cur.(at := m.origin), false)
  }

  // ---------------------------------------------------------------- contents

  ghost function PutFetched(c: State, t: string, data: Bytes, base: Basis, asked: RowBasis): State
  {
    if t in c.content && (c.content[t].dirty || base.version < c.content[t].base.version) then c
    else if RowOf(c.grids, t).Some? && Differs(asked, RowOf(c.grids, t).value) then c
    else c.(gens := c.gens + 1, content := c.content[t := Entry(data, base, asked, false, c.gens + 1)])
  }

  function PutEdited(c: State, t: string, data: Bytes): State
  {
    var e := if t in c.content then c.content[t] else Entry([], Basis(0, ""), RowBasis(0, "", false), false, 0);
    c.(gens := c.gens + 1, content := c.content[t := e.(data := data, dirty := true, gen := c.gens + 1)])
  }

  function PutSaved(c: State, row: Tile, data: Bytes): State
  {
    var base, filed := BasisOf(row), RowBasisOf(row);
    if row.id in c.content && c.content[row.id].dirty && c.content[row.id].data != data then
      c.(content := c.content[row.id := c.content[row.id].(base := base, row := filed)])
    else
      var same := row.id in c.content && c.content[row.id].data == data;
      var gen := if same then c.content[row.id].gen else c.gens + 1;
      c.(gens := c.gens + 1, content := c.content[row.id := Entry(data, base, filed, false, gen)])
  }

  function DropContent(c: State, t: string): State
  {
    c.(content := c.content - {t})
  }

  function BeginWrite(c: State, t: string): State
  {
    var w := if t in c.writing then c.writing[t] else OwnWrite(0, false, None);
    c.(writing := c.writing[t := w.(n := w.n + 1)])
  }

  ghost function EndWrite(c: State, t: string): State
  {
    if t !in c.writing then c
    else
      var w := c.writing[t];
      if w.n - 1 > 0 then c.(writing := c.writing[t := w.(n := w.n - 1)])
      else
        var freed := c.(writing := c.writing - {t});
        var n := if RowOf(c.grids, t).Some? then RowOf(c.grids, t) else w.last;
        if n.Some? then Age(freed, n.value, w.told) else freed
  }

  function BodyGen(c: State, t: string): nat
  {
    if t in c.content then c.content[t].gen else 0
  }

  // ---------------------------------------------------------------- runs

  datatype Op =
    | OpPutGrid(gid: string, rest: string, tiles: seq<Tile>)
    | OpApply(ev: Event)
    | OpUpdateTile(grid: string, row: Tile)
    | OpWriteResponse(grid: string, row: Tile, wrote: Wrote)
    | OpMove(tile: string, p: Placement)
    | OpLandHold(moving: Moving, answered: string)
    | OpFailed(moving: Moving)
    | OpFetched(tile: string, data: Bytes, base: Basis, asked: RowBasis)
    | OpEdited(tile: string, data: Bytes)
    | OpSaved(row: Tile, data: Bytes)
    | OpDrop(tile: string)
    | OpBeginWrite(tile: string)
    | OpEndWrite(tile: string)

  /** One critical section. */
  ghost function Step(c: State, op: Op): State
  {
    match op
    case OpPutGrid(gid, rest, tiles) => PutGrid(c, gid, rest, tiles)
    case OpApply(ev) => Apply(c, ev)
    case OpUpdateTile(g, row) => UpdateTile(c, g, row)
    case OpWriteResponse(g, row, w) => PutWriteResponse(c, g, row, w)
    case OpMove(t, p) => Move(c, t, p)
    case OpLandHold(m, answered) => LandHold(c, m, answered)
    case OpFailed(m) => Failed(c, m)
    case OpFetched(t, data, base, asked) => PutFetched(c, t, data, base, asked)
    case OpEdited(t, data) => PutEdited(c, t, data)
    case OpSaved(row, data) => PutSaved(c, row, data)
    case OpDrop(t) => DropContent(c, t)
    case OpBeginWrite(t) => BeginWrite(c, t)
    case OpEndWrite(t) => EndWrite(c, t)
  }

  ghost function Run(c: State, ops: seq<Op>): State
  {
    if ops == [] then c else Step(Run(c, ops[..|ops| - 1]), ops[|ops| - 1])
  }

  const EMPTY: State := State(map[], map[], 0, map[], map[], 0)
}
