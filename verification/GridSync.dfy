/** The protocol between a server's grids and the client's cache: an ordered event stream, grid
    reads in flight, and what client/events, client/inflight and the fetch and event arms of
    client/wasm/main.go do with them. */
module GridSync {
  import opened Options
  import opened CacheState
  import opened CacheLaws

  type Rows = map<string, Tile>

  datatype Phase = Asked | Answered(rows: Option<seq<Tile>>) | Landed

  /** A read that holds its grid's claim; owed says the grid changed meanwhile. */
  datatype Read = Read(phase: Phase, owed: bool)

  /** Down: no stream. Subscribed: the node tells changes, but the client has not heard the
      stream open. Open: events are being received. */
  datatype Link = Down | Subscribed | Open

  /** failed keeps the grids whose last finished read failed. behind keeps those that have not
      been read since a change was lost to them: the first stream opened behind their rows, or
      rows were stored over them that nothing undelivered puts right. early keeps the answers
      the first stream opened behind. None is state of the program. */
  datatype World = World(server: map<string, Rows>, stream: seq<Event>, link: Link, gap: bool,
    client: State, claims: map<string, Read>, latched: set<string>, failed: set<string>,
    behind: set<string>, early: set<string>)

  datatype Act =
    | NewGrid(grid: string)
    | SetTile(tile: Tile, told: bool)
    | RemoveTile(grid: string, id: string)
    | Relist(grid: string, listing: Rows)
    | Announce(note: Event)
    | Deliver
    | Ask(grid: string)
    | Answer(grid: string, rows: Option<seq<Tile>>)
    | Land(grid: string, rest: string)
    | Done(grid: string)
    | StreamEnds
    | Subscribe
    | StreamOpens
    | Fold(op: Op)
    | Body(op: Op)

  const START: World := World(map[], [], Down, false, EMPTY, map[], {}, {}, {}, {})

  // ---------------------------------------------------------------- the steps

  /** The grid whose read in flight an event owes a re-ask. */
  function Owe(e: Event): Option<string>
  {
    match e
    case TileChanged(n, _) => Some(n.at.gridId)
    case TileRemoved(g, _) => Some(g)
    case SelectionChanged(g) => Some(g)
    case GridChanged(_) => None
  }

  /** The grid an event asks to be fetched again. */
  function Fetches(e: Event): Option<string>
  {
    if e.GridChanged? then Some(e.gridId) else None
  }

  /** The grid changed: a read in flight is owed a re-ask and the failure latch is cleared. */
  function Change(w: World, g: string): World
  {
    w.(latched := w.latched - {g},
       claims := if g in w.claims then w.claims[g := w.claims[g].(owed := true)] else w.claims)
  }

  /** Asked for unless latched or already in flight. */
  function FetchGrid(w: World, g: string): World
  {
    if g == "" || g in w.latched || g in w.claims then w
    else w.(claims := w.claims[g := Read(Asked, false)])
  }

  /** The node does something, and tells it while someone listens. */
  function Tell(w: World, server: map<string, Rows>, e: Event): World
  {
    w.(server := server, stream := if w.link == Down then w.stream else w.stream + [e])
  }

  /** The event arm: fold it in, owe, clear the latch, fetch. */
  function Receive(w: World, e: Event): World
  {
    var applied := w.(client := Apply(w.client, e));
    var owed := if Owe(e).Some? then Change(applied, Owe(e).value) else applied;
    if Fetches(e).Some? then FetchGrid(Change(owed, Fetches(e).value), Fetches(e).value) else owed
  }

  /** tiles lists exactly these rows, in some order. */
  ghost predicate Lists(tiles: seq<Tile>, rows: Rows)
  {
    && (forall i :: 0 <= i < |tiles| ==> tiles[i].id in rows && rows[tiles[i].id] == tiles[i])
    && (forall t :: t in rows ==> rows[t] in tiles)
  }

  /** The node answers with the grid's rows as they are, or not at all. */
  ghost predicate CanAnswer(w: World, g: string, rows: Option<seq<Tile>>)
  {
    && g in w.claims && w.claims[g].phase == Asked
    && (rows.Some? ==> g in w.server && Lists(rows.value, w.server[g]))
  }

  /** An answer is stored and clears the latch; a failure latches. */
  ghost function LandRead(w: World, g: string, rest: string, rows: Option<seq<Tile>>): World
    requires g in w.claims
  {
    var landed := w.(claims := w.claims[g := w.claims[g].(phase := Landed)]);
    match rows
    case None => landed.(latched := w.latched + {g}, failed := w.failed + {g})
    case Some(tiles) =>
      var c := PutGrid(w.client, g, rest, tiles);
      landed.(latched := w.latched - {g}, failed := w.failed - {g}, client := c,
        behind := w.behind - {g} + w.early * {g} + Wronged(w, c, g), early := w.early - {g})
  }

  /** The claim is released, and an owed read is asked again. */
  function DoneRead(w: World, g: string): World
    requires g in w.claims
  {
    var free := w.(claims := w.claims - {g});
    if w.claims[g].owed then FetchGrid(free, g) else free
  }

  /** The kick after a gap: latches cleared, reads in flight cancelled, and every grid cached,
      latched or in flight asked for anew. */
  function Resync(w: World): World
  {
    w.(latched := {}, behind := {}, early := {},
       claims := map g | g in w.claims.Keys + w.latched + w.client.grids.Keys && g != "" :: Read(Asked, false))
  }

  /** The cached grids that are not what the server holds. */
  ghost function Differing(w: World): set<string>
  {
    set g | g in w.client.grids && !(g in w.server && w.client.grids[g].tiles == w.server[g])
  }

  /** The grids whose answer on its way in is not what the server holds. */
  ghost function Overtaken(w: World): set<string>
  {
    set g | g in w.claims && w.claims[g].phase.Answered? && w.claims[g].phase.rows.Some? &&
            !(g in w.server && RowsOf(w.claims[g].phase.rows.value, |w.claims[g].phase.rows.value|) == w.server[g])
  }

  /** A tile lives in one grid of the server, where its version does not fall. */
  ghost predicate CanSet(server: map<string, Rows>, n: Tile)
  {
    && n.at.gridId in server
    && (n.id in server[n.at.gridId] ==> server[n.at.gridId][n.id].version <= n.version)
    && (forall h :: h in server && h != n.at.gridId ==> n.id !in server[h])
  }

  /** A listing that moved: any rows of the grid's own, at any versions. */
  ghost predicate CanList(server: map<string, Rows>, g: string, rows: Rows)
  {
    && g in server && RowsFiled(g, rows)
    && (forall h, t :: h in server && h != g && t in rows ==> t !in server[h])
  }

  /** One step; an action that cannot happen changes nothing. */
  ghost function Do(w: World, a: Act): World
  {
    match a
    case NewGrid(g) => if g in w.server then w else w.(server := w.server[g := map[]])
    case SetTile(n, told) =>
      var g := n.at.gridId;
      if !CanSet(w.server, n) then w
      else Tell(w, w.server[g := w.server[g][n.id := n]], TileChanged(n, told))
    case RemoveTile(g, t) =>
      if g !in w.server || t !in w.server[g] then w
      else Tell(w, w.server[g := w.server[g] - {t}], TileRemoved(g, t))
    case Relist(g, rows) =>
      if !CanList(w.server, g, rows) then w else Tell(w, w.server[g := rows], GridChanged(g))
    case Announce(e) => if e.GridChanged? || e.SelectionChanged? then Tell(w, w.server, e) else w
    case Deliver =>
      if w.link != Open || w.stream == [] then w else Receive(w.(stream := w.stream[1..]), w.stream[0])
    case Ask(g) => FetchGrid(w, g)
    case Answer(g, rows) =>
      if CanAnswer(w, g, rows) then w.(claims := w.claims[g := w.claims[g].(phase := Answered(rows))]) else w
    case Land(g, rest) =>
      if g in w.claims && w.claims[g].phase.Answered? then LandRead(w, g, rest, w.claims[g].phase.rows) else w
    case Done(g) => if g in w.claims && w.claims[g].phase == Landed then DoneRead(w, g) else w
    case StreamEnds => w.(link := Down, stream := [], gap := true)
    case Subscribe =>
      if w.link != Down then w
      else if w.gap then w.(link := Subscribed, stream := [])
      else w.(link := Subscribed, stream := [], behind := Differing(w), early := Overtaken(w))
    case StreamOpens =>
      if w.link != Subscribed then w
      else if w.gap then Resync(w.(link := Open, gap := false)) else w.(link := Open)
    case Fold(op) =>
      if op.OpUpdateTile? || op.OpWriteResponse? then
        var c := Step(w.client, op);
        w.(client := c, behind := w.behind + Wronged(w, c, ""))
      else w
    case Body(op) => if Writes(op) || op.OpBeginWrite? || op.OpEndWrite? then w.(client := Step(w.client, op)) else w
  }

  ghost function Run(w: World, acts: seq<Act>): World
  {
    if acts == [] then w else Do(Run(w, acts[..|acts| - 1]), acts[|acts| - 1])
  }

  // ---------------------------------------------------------------- replaying events

  /** What an event does to a grid's rows. evicts says whether a tile set in another grid is
      taken out of this one, as the cache does; on the server it has left it already. */
  function Told(rows: Rows, g: string, e: Event, evicts: bool): Rows
  {
    match e
    case TileChanged(n, _) =>
      if n.at.gridId != g then if evicts then rows - {n.id} else rows
      else if n.id in rows && n.version < rows[n.id].version then rows
      else rows[n.id := n]
    case TileRemoved(h, t) => if h != g then rows else rows - {t}
    case _ => rows
  }

  function Replay(rows: Rows, g: string, es: seq<Event>, evicts: bool): Rows
  {
    if es == [] then rows else Told(Replay(rows, g, es[..|es| - 1], evicts), g, es[|es| - 1], evicts)
  }

  lemma {:induction false} ReplayHead(rows: Rows, g: string, es: seq<Event>, evicts: bool)
    requires es != []
    ensures Replay(rows, g, es, evicts) == Replay(Told(rows, g, es[0], evicts), g, es[1..], evicts)
  {
    hide Told;
    var k := |es| - 1;
    if k == 0 {
      assert es[..k] == [] && es[1..] == [];
      assert Replay(rows, g, es[..k], evicts) == rows;
    } else {
      ReplayHead(rows, g, es[..k], evicts);
      assert es[1..][..k - 1] == es[..k][1..];
      assert es[1..][k - 1] == es[k];
    }
  }

  lemma ReplayMore(rows: Rows, g: string, es: seq<Event>, e: Event, evicts: bool)
    ensures Replay(rows, g, es + [e], evicts) == Told(Replay(rows, g, es, evicts), g, e, evicts)
  {
    assert (es + [e])[..|es|] == es;
  }

  function RowAt(rows: Rows, t: string): Option<Tile>
  {
    if t in rows then Some(rows[t]) else None
  }

  predicate Sets(e: Event, g: string, t: string)
  {
    e.TileChanged? && e.tile.at.gridId == g && e.tile.id == t
  }

  predicate Unsets(e: Event, g: string, t: string, evicts: bool)
  {
    e == TileRemoved(g, t) || (evicts && e.TileChanged? && e.tile.id == t && e.tile.at.gridId != g)
  }

  /** The stream's last word on a tile of a grid. */
  function LastSays(es: seq<Event>, g: string, t: string, evicts: bool): Option<Option<Tile>>
  {
    if es == [] then None
    else
      var e := es[|es| - 1];
      if Sets(e, g, t) then Some(Some(e.tile))
      else if Unsets(e, g, t, evicts) then Some(None)
      else LastSays(es[..|es| - 1], g, t, evicts)
  }

  /** Every row of the tile since its last removal has a version of at most v. */
  predicate Below(es: seq<Event>, g: string, t: string, v: int, evicts: bool)
  {
    if es == [] then true
    else
      var e := es[|es| - 1];
      if Sets(e, g, t) then e.tile.version <= v && Below(es[..|es| - 1], g, t, v, evicts)
      else if Unsets(e, g, t, evicts) then true
      else Below(es[..|es| - 1], g, t, v, evicts)
  }

  predicate Removes(es: seq<Event>, g: string, t: string, evicts: bool)
  {
    if es == [] then false
    else Unsets(es[|es| - 1], g, t, evicts) || Removes(es[..|es| - 1], g, t, evicts)
  }

  /** The undelivered events are a history ending at these rows. */
  ghost predicate Leads(rows: Rows, g: string, es: seq<Event>, t: string, evicts: bool)
  {
    && (LastSays(es, g, t, evicts).Some? ==> LastSays(es, g, t, evicts).value == RowAt(rows, t))
    && (t in rows ==> Below(es, g, t, rows[t].version, evicts))
  }

  /** The undelivered events put row x of the tile right: with no word of it left x is what the
      server holds, and a row still to come is not refused for a version under x's. */
  predicate PutsRight(server: Rows, g: string, es: seq<Event>, t: string, x: Option<Tile>, evicts: bool)
  {
    match LastSays(es, g, t, evicts)
    case None => x == RowAt(server, t)
    case Some(None) => true
    case Some(Some(m)) => x.None? || x.value.version <= m.version || Removes(es, g, t, evicts)
  }

  lemma {:induction false} SuffixSays(g: string, es: seq<Event>, t: string, v: int, evicts: bool)
    requires es != []
    ensures LastSays(es[1..], g, t, evicts).Some? ==> LastSays(es, g, t, evicts) == LastSays(es[1..], g, t, evicts)
    ensures Below(es, g, t, v, evicts) ==> Below(es[1..], g, t, v, evicts)
  {
    var k := |es| - 1;
    if k > 0 {
      SuffixSays(g, es[..k], t, v, evicts);
      assert es[1..][..k - 1] == es[..k][1..];
      assert es[1..][k - 1] == es[k];
    }
  }

  lemma LeadsSuffix(rows: Rows, g: string, es: seq<Event>, t: string, evicts: bool)
    requires es != [] && Leads(rows, g, es, t, evicts)
    ensures Leads(rows, g, es[1..], t, evicts)
  {
    SuffixSays(g, es, t, if t in rows then rows[t].version else 0, evicts);
  }

  /** The events after the last that says the grid's listing moved. */
  function Since(es: seq<Event>, g: string): seq<Event>
  {
    if es == [] || es[|es| - 1] == GridChanged(g) then [] else Since(es[..|es| - 1], g) + [es[|es| - 1]]
  }

  lemma SinceMore(es: seq<Event>, g: string, e: Event)
    ensures Since(es + [e], g) == if e == GridChanged(g) then [] else Since(es, g) + [e]
  {
    assert (es + [e])[..|es|] == es;
  }

  lemma {:induction false} SinceAll(es: seq<Event>, g: string)
    requires GridChanged(g) !in es
    ensures Since(es, g) == es
  {
    if es != [] {
      SinceAll(es[..|es| - 1], g);
    }
  }

  lemma {:induction false} SinceWithin(es: seq<Event>, g: string)
    ensures forall e :: e in Since(es, g) ==> e in es
  {
    if es != [] {
      SinceWithin(es[..|es| - 1], g);
    }
  }

  lemma {:induction false} SinceTail(es: seq<Event>, g: string)
    requires es != []
    ensures Since(es[1..], g) == if GridChanged(g) in es then Since(es, g) else Since(es, g)[1..]
    ensures GridChanged(g) !in es ==> Since(es, g) == es
  {
    var k := |es| - 1;
    if GridChanged(g) !in es {
      SinceAll(es, g);
      SinceAll(es[1..], g);
    } else if k > 0 {
      assert es[1..][..k - 1] == es[..k][1..];
      assert es[1..][k - 1] == es[k];
      if es[k] != GridChanged(g) {
        SinceTail(es[..k], g);
      }
    }
  }

  lemma SinceLeads(rows: Rows, g: string, es: seq<Event>, t: string, evicts: bool)
    requires es != [] && Leads(rows, g, Since(es, g), t, evicts)
    ensures Leads(rows, g, Since(es[1..], g), t, evicts)
  {
    hide Leads;
    SinceTail(es, g);
    if GridChanged(g) !in es {
      LeadsSuffix(rows, g, es, t, evicts);
    }
  }

  lemma {:induction false} Unspoken(rows: Rows, g: string, es: seq<Event>, t: string, evicts: bool)
    requires LastSays(es, g, t, evicts).None?
    ensures RowAt(Replay(rows, g, es, evicts), t) == RowAt(rows, t)
  {
    if es != [] {
      Unspoken(rows, g, es[..|es| - 1], t, evicts);
    }
  }

  lemma {:induction false} SpokenNone(rows: Rows, g: string, es: seq<Event>, t: string, evicts: bool)
    requires LastSays(es, g, t, evicts) == Some(None)
    ensures t !in Replay(rows, g, es, evicts)
  {
    if !Unsets(es[|es| - 1], g, t, evicts) {
      SpokenNone(rows, g, es[..|es| - 1], t, evicts);
    }
  }

  lemma {:induction false} ReplayVersion(rows: Rows, g: string, es: seq<Event>, t: string, v: int, evicts: bool)
    requires Below(es, g, t, v, evicts) && (t in rows ==> rows[t].version <= v)
    ensures t in Replay(rows, g, es, evicts) ==> Replay(rows, g, es, evicts)[t].version <= v
  {
    if es != [] && !Unsets(es[|es| - 1], g, t, evicts) {
      ReplayVersion(rows, g, es[..|es| - 1], t, v, evicts);
    }
  }

  lemma {:induction false} SpokenRow(rows: Rows, g: string, es: seq<Event>, t: string, m: Tile, evicts: bool)
    requires LastSays(es, g, t, evicts) == Some(Some(m)) && Below(es, g, t, m.version, evicts)
    requires t in rows ==> rows[t].version <= m.version
    ensures RowAt(Replay(rows, g, es, evicts), t) == Some(m)
  {
    var rest := es[..|es| - 1];
    if Sets(es[|es| - 1], g, t) {
      ReplayVersion(rows, g, rest, t, m.version, evicts);
    } else {
      SpokenRow(rows, g, rest, t, m, evicts);
    }
  }

  /** Past a removal it does not matter what row there was. */
  lemma {:induction false} RemovedAlike(rows: Rows, rows': Rows, g: string, es: seq<Event>, t: string, evicts: bool)
    requires Removes(es, g, t, evicts)
    ensures RowAt(Replay(rows, g, es, evicts), t) == RowAt(Replay(rows', g, es, evicts), t)
  {
    if !Unsets(es[|es| - 1], g, t, evicts) {
      RemovedAlike(rows, rows', g, es[..|es| - 1], t, evicts);
    }
  }

  /** A row above every version to come refuses them all. */
  lemma {:induction false} AboveStays(rows: Rows, g: string, es: seq<Event>, t: string, v: int, evicts: bool)
    requires t in rows && rows[t].version > v && Below(es, g, t, v, evicts) && !Removes(es, g, t, evicts)
    ensures RowAt(Replay(rows, g, es, evicts), t) == Some(rows[t])
  {
    if es != [] {
      AboveStays(rows, g, es[..|es| - 1], t, v, evicts);
    }
  }

  /** Whatever row a tile has, the replay ends at the server's exactly when the events put that
      row right. */
  lemma ReplayTile(server: Rows, rows: Rows, g: string, es: seq<Event>, t: string, evicts: bool)
    requires Leads(server, g, es, t, evicts)
    ensures RowAt(Replay(rows, g, es, evicts), t) == RowAt(server, t) <==>
            PutsRight(server, g, es, t, RowAt(rows, t), evicts)
  {
    hide Replay, LastSays, Below, Removes;
    match LastSays(es, g, t, evicts)
    case None => Unspoken(rows, g, es, t, evicts);
    case Some(None) => SpokenNone(rows, g, es, t, evicts);
    case Some(Some(m)) =>
      if t !in rows || rows[t].version <= m.version {
        SpokenRow(rows, g, es, t, m, evicts);
      } else if Removes(es, g, t, evicts) {
        RemovedAlike(rows, map[], g, es, t, evicts);
        SpokenRow(map[], g, es, t, m, evicts);
      } else {
        AboveStays(rows, g, es, t, m.version, evicts);
      }
  }

  lemma SameRows(rows: Rows, rows': Rows)
    requires forall t :: RowAt(rows, t) == RowAt(rows', t)
    ensures rows == rows'
  {
    forall t ensures t in rows <==> t in rows' {
      assert RowAt(rows, t) == RowAt(rows', t);
    }
    forall t | t in rows ensures rows[t] == rows'[t] {
      assert RowAt(rows, t) == RowAt(rows', t);
    }
  }

  /** Replaying the events a snapshot already has in it onto that snapshot changes nothing. */
  lemma SnapshotStands(rows: Rows, g: string, es: seq<Event>, evicts: bool)
    requires forall t :: Leads(rows, g, es, t, evicts)
    ensures Replay(rows, g, es, evicts) == rows
  {
    hide Replay;
    forall t
      ensures RowAt(Replay(rows, g, es, evicts), t) == RowAt(rows, t)
    {
      ReplayTile(rows, rows, g, es, t, evicts);
    }
    SameRows(Replay(rows, g, es, evicts), rows);
  }

  /** Taking tiles out that are set elsewhere changes no word that a row stands behind. */
  lemma {:induction false} SaysAlike(es: seq<Event>, g: string, t: string)
    ensures LastSays(es, g, t, true).None? ==> LastSays(es, g, t, false).None?
    ensures LastSays(es, g, t, true).Some? && LastSays(es, g, t, true).value.Some? ==>
              LastSays(es, g, t, false) == LastSays(es, g, t, true)
    ensures Removes(es, g, t, false) ==> Removes(es, g, t, true)
  {
    if es != [] {
      SaysAlike(es[..|es| - 1], g, t);
    }
  }

  /** What the server's own events make of rows, the cache makes of them too. */
  lemma OwnEventsSuffice(server: Rows, rows: Rows, g: string, es: seq<Event>)
    requires forall t, evicts :: Leads(server, g, es, t, evicts)
    requires Replay(rows, g, es, false) == server
    ensures Replay(rows, g, es, true) == server
  {
    hide Replay, Leads;
    forall t
      ensures RowAt(Replay(rows, g, es, true), t) == RowAt(server, t)
    {
      ReplayTile(server, rows, g, es, t, false);
      ReplayTile(server, rows, g, es, t, true);
      SaysAlike(es, g, t);
    }
    SameRows(Replay(rows, g, es, true), server);
  }

  /** A change told keeps the stream leading to the rows. */
  lemma LeadsMore(rows: Rows, g: string, es: seq<Event>, e: Event, t: string, evicts: bool)
    requires Leads(rows, g, es, t, evicts)
    requires Sets(e, g, t) && t in rows ==> rows[t].version <= e.tile.version
    ensures Leads(Told(rows, g, e, evicts), g, es + [e], t, evicts)
  {
    assert (es + [e])[..|es|] == es;
    if Sets(e, g, t) {
      if t in rows {
        BelowMore(es, g, t, rows[t].version, e.tile.version, evicts);
      } else {
        NoneIsBelow(es, g, t, e.tile.version, evicts);
      }
    }
  }

  lemma {:induction false} BelowMore(es: seq<Event>, g: string, t: string, v: int, v': int, evicts: bool)
    requires Below(es, g, t, v, evicts) && v <= v'
    ensures Below(es, g, t, v', evicts)
  {
    if es != [] && !Unsets(es[|es| - 1], g, t, evicts) {
      BelowMore(es[..|es| - 1], g, t, v, v', evicts);
    }
  }

  lemma {:induction false} NoneIsBelow(es: seq<Event>, g: string, t: string, v: int, evicts: bool)
    requires LastSays(es, g, t, evicts).None? || LastSays(es, g, t, evicts) == Some(None)
    ensures Below(es, g, t, v, evicts)
  {
    if es != [] && !Unsets(es[|es| - 1], g, t, evicts) {
      NoneIsBelow(es[..|es| - 1], g, t, v, evicts);
    }
  }

  // ---------------------------------------------------------------- rows lost

  /** Every row that changes from rows to rows' is one the undelivered events put right. */
  ghost predicate Spares(server: Rows, g: string, es: seq<Event>, rows: Rows, rows': Rows)
  {
    forall t :: RowAt(rows', t) == RowAt(rows, t) || PutsRight(server, g, es, t, RowAt(rows', t), true)
  }

  /** The grids but one that the cache's new rows leave behind. */
  ghost function Wronged(w: World, c: State, but: string): set<string>
  {
    set g | g in w.client.grids && g in w.server && g in c.grids && g != but && GridChanged(g) !in w.stream &&
            !Spares(w.server[g], g, w.stream, w.client.grids[g].tiles, c.grids[g].tiles)
  }

  /** Rows that were catching up still do exactly when each row that changed is put right. */
  lemma SparedCatchUp(server: Rows, g: string, es: seq<Event>, rows: Rows, rows': Rows)
    requires forall t :: Leads(server, g, es, t, true)
    requires Replay(rows, g, es, true) == server
    ensures Replay(rows', g, es, true) == server <==> Spares(server, g, es, rows, rows')
  {
    hide Replay, Leads, PutsRight;
    forall t
      ensures PutsRight(server, g, es, t, RowAt(rows, t), true)
      ensures RowAt(Replay(rows', g, es, true), t) == RowAt(server, t) <==> PutsRight(server, g, es, t, RowAt(rows', t), true)
    {
      ReplayTile(server, rows, g, es, t, true);
      ReplayTile(server, rows', g, es, t, true);
    }
    if Spares(server, g, es, rows, rows') {
      SameRows(Replay(rows', g, es, true), server);
    }
  }

  // ---------------------------------------------------------------- the cache's part

  /** Nothing is held, each row is under its own grid and id, and each tile in one grid. */
  ghost predicate Unheld(c: State)
  {
    c.holds == map[] && Placed(c.grids, c.holds)
  }

  lemma ChangedTells(c: State, n: Tile, told: bool)
    requires Unheld(c)
    ensures var r := Apply(c, TileChanged(n, told));
            && r.grids.Keys == c.grids.Keys
            && forall g :: g in c.grids ==> r.grids[g].tiles == Told(c.grids[g].tiles, g, TileChanged(n, told), true)
  {
    hide Age;
    var h, r := n.at.gridId, Apply(c, TileChanged(n, told));
    forall g | g in c.grids
      ensures g in r.grids && r.grids[g].tiles == Told(c.grids[g].tiles, g, TileChanged(n, told), true)
    {
      if h in c.grids {
        assert c.grids[h].id == h;
        if Refused(c, h, n) && g != h {
          assert CachedIn(c.grids, h, n.id);
          assert !CachedIn(c.grids, g, n.id);
          assert c.grids[g].tiles - {n.id} == c.grids[g].tiles;
        }
      }
    }
  }

  /** An event folds into each cached grid what it says of it: a tile set in one grid leaves
      every other, one refused for its version changes nothing. */
  lemma ApplyTells(c: State, e: Event)
    requires Unheld(c)
    ensures Unheld(Apply(c, e)) && Apply(c, e).grids.Keys == c.grids.Keys
    ensures forall g :: g in c.grids ==> Apply(c, e).grids[g].tiles == Told(c.grids[g].tiles, g, e, true)
  {
    StepKeepsPlaces(c, OpApply(e));
    assert Apply(c, e).holds == map[] by { hide Placed, Told; }
    hide Placed;
    match e
    case TileChanged(n, told) => ChangedTells(c, n, told);
    case _ =>
  }

  function RowsOf(tiles: seq<Tile>, k: nat): Rows
    requires k <= |tiles|
  {
    if k == 0 then map[] else RowsOf(tiles, k - 1)[tiles[k - 1].id := tiles[k - 1]]
  }

  lemma {:induction false} RowsOfSome(tiles: seq<Tile>, rows: Rows, k: nat)
    requires k <= |tiles| && forall i :: 0 <= i < k ==> tiles[i].id in rows && rows[tiles[i].id] == tiles[i]
    ensures forall t :: t in RowsOf(tiles, k) ==> t in rows && rows[t] == RowsOf(tiles, k)[t]
    ensures forall i :: 0 <= i < k ==> tiles[i].id in RowsOf(tiles, k)
  {
    if k > 0 {
      RowsOfSome(tiles, rows, k - 1);
    }
  }

  ghost predicate RowsFiled(g: string, rows: Rows)
  {
    forall t :: t in rows ==> rows[t].id == t && rows[t].at.gridId == g
  }

  lemma ListedRows(g: string, tiles: seq<Tile>, rows: Rows)
    requires Lists(tiles, rows) && RowsFiled(g, rows)
    ensures RowsOf(tiles, |tiles|) == rows
  {
    RowsOfSome(tiles, rows, |tiles|);
    forall t | t in rows
      ensures t in RowsOf(tiles, |tiles|)
    {
      var i :| 0 <= i < |tiles| && tiles[i] == rows[t];
    }
  }

  /** Every grid but g, less these tiles. */
  ghost predicate TakenFrom(grids: map<string, Grid>, r: map<string, Grid>, g: string, ids: set<string>)
  {
    r.Keys == grids.Keys && forall h :: h in grids && h != g ==> r[h] == grids[h].(tiles := grids[h].tiles - ids)
  }

  lemma TakesOneMore(grids: map<string, Grid>, r: map<string, Grid>, g: string, ids: set<string>, t: string)
    requires TakenFrom(grids, r, g, ids)
    ensures TakenFrom(grids, WithoutTile(r, t, g), g, ids + {t})
  {
    forall h | h in grids && h != g
      ensures WithoutTile(r, t, g)[h] == grids[h].(tiles := grids[h].tiles - (ids + {t}))
    {
      assert grids[h].tiles - ids - {t} == grids[h].tiles - (ids + {t});
    }
  }

  lemma {:induction false} ReadsRows(c: State, g: string, tiles: seq<Tile>, k: nat)
    requires c.holds == map[] && k <= |tiles|
    requires forall i :: 0 <= i < |tiles| ==> tiles[i].at.gridId == g
    ensures var r := ReadRows(c, g, tiles, k);
            && r.rows == RowsOf(tiles, k) && r.away == [] && r.c.holds == map[]
            && TakenFrom(c.grids, r.c.grids, g, RowsOf(tiles, k).Keys)
  {
    hide Age, WithoutTile, TakenFrom;
    if k > 0 {
      ReadsRows(c, g, tiles, k - 1);
      var r, n := ReadRows(c, g, tiles, k - 1), tiles[k - 1];
      TakesOneMore(c.grids, r.c.grids, g, r.rows.Keys, n.id);
      assert RowsOf(tiles, k).Keys == r.rows.Keys + {n.id};
    } else {
      TakesNone(c.grids, g);
      assert RowsOf(tiles, k).Keys == {};
    }
  }

  lemma TakesNone(grids: map<string, Grid>, g: string)
    ensures TakenFrom(grids, grids, g, {})
  {
    forall h | h in grids ensures grids[h].tiles - {} == grids[h].tiles {
    }
  }

  /** A grid read puts the grid's rows in and takes each tile it lists out of every other grid. */
  lemma PutGridReads(c: State, g: string, rest: string, tiles: seq<Tile>, rows: Rows)
    requires c.holds == map[] && RowsFiled(g, rows) && Lists(tiles, rows)
    ensures var r := PutGrid(c, g, rest, tiles);
            && r.holds == map[] && r.grids.Keys == c.grids.Keys + {g} && r.grids[g] == Grid(g, rest, rows)
            && forall h :: h in c.grids && h != g ==> r.grids[h] == c.grids[h].(tiles := c.grids[h].tiles - rows.Keys)
  {
    hide ReadRows, RowsOf;
    ReadsRows(c, g, tiles, |tiles|);
    ListedRows(g, tiles, rows);
    var r := ReadRows(c, g, tiles, |tiles|);
    assert KeptRows(r.c, g, r.rows) == map[];
    assert KeptHolds(r.c, g, r.rows) == map[];
    assert rows + map[] == rows;
  }

  lemma PutGridUnheld(c: State, g: string, rest: string, tiles: seq<Tile>, rows: Rows)
    requires Unheld(c) && RowsFiled(g, rows) && Lists(tiles, rows)
    ensures Unheld(PutGrid(c, g, rest, tiles))
  {
    hide PutGrid, Placed, Lists;
    PutGridReads(c, g, rest, tiles, rows);
    StepKeepsPlaces(c, OpPutGrid(g, rest, tiles));
  }

  /** A row answered outside the stream keeps the cache's grids and holds nothing. */
  lemma FoldUnheld(c: State, op: Op)
    requires Unheld(c) && (op.OpUpdateTile? || op.OpWriteResponse?)
    ensures Unheld(Step(c, op)) && Step(c, op).grids.Keys == c.grids.Keys
  {
    hide Placed, Folded, Age;
    StepKeepsPlaces(c, op);
  }

  lemma BodyKeepsRows(c: State, op: Op)
    requires Writes(op) || op.OpBeginWrite? || op.OpEndWrite?
    ensures Step(c, op).grids == c.grids && Step(c, op).holds == c.holds
  {
    hide RowOf, Differs;
  }

  // ---------------------------------------------------------------- what every step keeps

  /** The client hears every change since what it holds was answered. */
  ghost predicate Telling(w: World)
  {
    w.link == Open || (w.link == Subscribed && !w.gap)
  }

  /** Once the undelivered events are in, the cached grid is the server's, or one of them has
      it read again. */
  ghost predicate Catches(server: map<string, Rows>, stream: seq<Event>, g: string, rows: Rows)
  {
    GridChanged(g) in stream || (g in server && Replay(rows, g, stream, true) == server[g])
  }

  /** The grid's own events alone make of an answer what the server holds, or one of them has
      it read again. */
  ghost predicate Answers(server: map<string, Rows>, stream: seq<Event>, g: string, rows: Rows)
  {
    GridChanged(g) in stream || (g in server && Replay(rows, g, stream, false) == server[g])
  }

  /** An answer on its way in that no change has overtaken. */
  ghost predicate AnswerGood(w: World, g: string)
    requires g in w.claims
  {
    w.claims[g].phase.Answered? && w.claims[g].phase.rows.Some? && !w.claims[g].owed && g !in w.early ==>
      var tiles := w.claims[g].phase.rows.value;
      Answers(w.server, w.stream, g, RowsOf(tiles, |tiles|))
  }

  /** A cached grid will catch up, is being asked for again, is known to be behind, or its last
      read failed. */
  ghost predicate GridGood(w: World, g: string)
    requires g in w.client.grids
  {
    || Catches(w.server, w.stream, g, w.client.grids[g].tiles)
    || (g in w.claims && (w.claims[g].phase != Landed || w.claims[g].owed))
    || g in w.behind
    || g in w.failed
  }

  ghost predicate Tidy(w: World)
  {
    && Unheld(w.client)
    && (forall g :: g in w.server ==> RowsFiled(g, w.server[g]))
    && (forall g :: g in w.claims ==> AnswerFiled(w.claims[g].phase, g))
  }

  ghost predicate AnswerFiled(phase: Phase, g: string)
  {
    phase.Answered? && phase.rows.Some? ==>
      var tiles := phase.rows.value;
      RowsFiled(g, RowsOf(tiles, |tiles|)) && Lists(tiles, RowsOf(tiles, |tiles|))
  }

  /** The stream, since it last said a grid's listing moved, is a history of that grid ending at
      what the server holds. */
  ghost predicate History(w: World)
  {
    && (w.link == Down ==> w.stream == [])
    && (forall g, t, evicts :: g in w.server ==> Leads(w.server[g], g, Since(w.stream, g), t, evicts))
    && (forall i, g, t :: 0 <= i < |w.stream| && Sets(w.stream[i], g, t) ==> g in w.server)
  }

  ghost predicate Named(w: World)
  {
    "" !in w.claims && "" !in w.client.grids && w.latched <= w.failed
  }

  ghost predicate AllGood(w: World)
  {
    && (forall g :: g in w.claims ==> AnswerGood(w, g))
    && (forall g :: g in w.client.grids ==> GridGood(w, g))
  }

  ghost predicate Inv(w: World)
  {
    Tidy(w) && History(w) && Named(w) && (Telling(w) ==> AllGood(w))
  }

  /** From w to r only claims were added or owed and latches cleared. */
  ghost predicate Grown(w: World, r: World)
  {
    && r == w.(claims := r.claims, latched := r.latched) && r.latched <= w.latched
    && (forall g :: g in w.claims ==>
          g in r.claims && r.claims[g].phase == w.claims[g].phase && (w.claims[g].owed ==> r.claims[g].owed))
    && (forall g :: g in r.claims && g !in w.claims ==> g != "" && r.claims[g].phase == Asked)
  }

  lemma GrownKeeps(w: World, r: World)
    requires Inv(w) && Grown(w, r)
    ensures Inv(r)
  {
    hide Catches, Answers, Leads, RowsOf, Lists, RowsFiled, Unheld, Sets;
    forall g | g in r.claims ensures AnswerFiled(r.claims[g].phase, g) {
      if g in w.claims { assert AnswerFiled(w.claims[g].phase, g); }
    }
    if Telling(r) {
      forall g | g in r.claims ensures AnswerGood(r, g) {
        if g in w.claims { assert AnswerGood(w, g); }
      }
      forall g | g in r.client.grids ensures GridGood(r, g) {
        assert GridGood(w, g);
      }
    }
  }

  lemma FetchGrows(w: World, g: string)
    ensures Grown(w, FetchGrid(w, g))
  {
  }

  lemma LeadsNowhere(rows: Rows, g: string, t: string, evicts: bool)
    ensures Leads(rows, g, [], t, evicts)
  {
  }

  /** The server's own change, told or not, by its rows or by the grid's name. */
  lemma TellKeeps(w: World, server: map<string, Rows>, e: Event)
    requires Inv(w) && server.Keys == w.server.Keys
    requires forall g :: g in server ==> RowsFiled(g, server[g])
    requires forall g, evicts :: g in server && e != GridChanged(g) ==> server[g] == Told(w.server[g], g, e, evicts)
    requires forall g, t :: Sets(e, g, t) && g in w.server && t in w.server[g] ==> w.server[g][t].version <= e.tile.version
    requires forall g, t :: Sets(e, g, t) ==> g in w.server
    ensures Inv(Tell(w, server, e))
  {
    hide Replay, Leads, RowsOf, Lists, Unheld, Told, RowsFiled, Since;
    var r := Tell(w, server, e);
    forall g, t, evicts | g in r.server ensures Leads(r.server[g], g, Since(r.stream, g), t, evicts) {
      TellLeads(w, r, g, e, t, evicts);
    }
    if Telling(r) {
      forall g, rows | Catches(w.server, w.stream, g, rows) ensures Catches(r.server, r.stream, g, rows) {
        ReplayMore(rows, g, w.stream, e, true);
      }
      forall g, rows | Answers(w.server, w.stream, g, rows) ensures Answers(r.server, r.stream, g, rows) {
        ReplayMore(rows, g, w.stream, e, false);
      }
      forall g | g in r.claims ensures AnswerGood(r, g) {
        assert AnswerGood(w, g);
      }
      forall g | g in r.client.grids ensures GridGood(r, g) {
        assert GridGood(w, g);
      }
    }
  }

  lemma TellLeads(w: World, r: World, g: string, e: Event, t: string, evicts: bool)
    requires g in w.server && g in r.server && Leads(w.server[g], g, Since(w.stream, g), t, evicts)
    requires r.stream == if w.link == Down then w.stream else w.stream + [e]
    requires w.link == Down ==> w.stream == []
    requires e != GridChanged(g) ==> r.server[g] == Told(w.server[g], g, e, evicts)
    requires Sets(e, g, t) && t in w.server[g] ==> w.server[g][t].version <= e.tile.version
    ensures Leads(r.server[g], g, Since(r.stream, g), t, evicts)
  {
    hide Leads, Told;
    if w.link == Down || e == GridChanged(g) {
      LeadsNowhere(r.server[g], g, t, evicts);
    } else {
      LeadsMore(w.server[g], g, Since(w.stream, g), e, t, evicts);
    }
    SinceMore(w.stream, g, e);
  }

  lemma ToldFiled(g: string, rows: Rows, e: Event)
    requires RowsFiled(g, rows)
    ensures RowsFiled(g, Told(rows, g, e, true))
  {
  }

  /** An event taken off the stream and folded in, its grid's read already owed. */
  lemma PopKeeps(w: World)
    requires Inv(w) && w.stream != [] && w.link == Open
    requires forall g :: g in w.claims && Owe(w.stream[0]) == Some(g) ==> w.claims[g].owed
    requires forall g :: w.stream[0] == GridChanged(g) && g != "" ==>
               g in w.claims && (w.claims[g].owed || w.claims[g].phase == Asked)
    ensures Inv(w.(stream := w.stream[1..], client := Apply(w.client, w.stream[0])))
  {
    hide Replay, Leads, RowsOf, Lists, Unheld, Told, Apply, RowsFiled, Sets, Since;
    var e := w.stream[0];
    var r := w.(stream := w.stream[1..], client := Apply(w.client, e));
    assert w.stream == [e] + r.stream;
    ApplyTells(w.client, e);
    forall g, t, evicts | g in r.server ensures Leads(r.server[g], g, Since(r.stream, g), t, evicts) {
      SinceLeads(w.server[g], g, w.stream, t, evicts);
    }
    if Telling(r) {
      forall g | g in r.claims ensures AnswerGood(r, g) {
        assert AnswerGood(w, g);
        PopAnswer(w, r, g);
      }
      forall g | g in r.client.grids ensures GridGood(r, g) {
        assert GridGood(w, g);
        ReplayHead(w.client.grids[g].tiles, g, w.stream, true);
      }
    }
  }

  lemma PopAnswer(w: World, r: World, g: string)
    requires w.stream != [] && r.stream == w.stream[1..] && r.server == w.server && r.claims == w.claims && r.early == w.early
    requires g in w.claims && AnswerGood(w, g)
    requires Owe(w.stream[0]) == Some(g) ==> w.claims[g].owed
    requires w.stream[0] == GridChanged(g) ==> w.claims[g].owed || w.claims[g].phase == Asked
    ensures AnswerGood(r, g)
  {
    assert w.stream == [w.stream[0]] + r.stream;
    if w.claims[g].phase.Answered? && w.claims[g].phase.rows.Some? {
      var tiles := w.claims[g].phase.rows.value;
      ReplayHead(RowsOf(tiles, |tiles|), g, w.stream, false);
    }
  }

  lemma ChangeGrows(w: World, g: string)
    ensures Grown(w, Change(w, g))
  {
  }

  lemma GrownOn(w: World, v: World, r: World)
    requires Grown(w, v) && Grown(v, r)
    ensures Grown(w, r)
  {
  }

  lemma ReceiveGrows(w: World, e: Event)
    ensures Grown(w.(client := Apply(w.client, e)), Receive(w, e))
  {
    hide Apply, Grown;
    var v := w.(client := Apply(w.client, e));
    var g := if Owe(e).Some? then Owe(e).value else Fetches(e).value;
    ChangeGrows(v, g);
    if e.GridChanged? {
      FetchGrows(Change(v, g), g);
      GrownOn(v, Change(v, g), FetchGrid(Change(v, g), g));
    }
  }

  lemma DeliverKeeps(w: World)
    requires Inv(w) && w.stream != [] && w.link == Open
    ensures Inv(Do(w, Deliver))
  {
    hide Inv, Apply, Grown, Receive;
    var e := w.stream[0];
    var v := w.(stream := w.stream[1..]);
    var r := Receive(v, e);
    ReceiveGrows(v, e);
    var q := w.(claims := r.claims, latched := r.latched);
    GrownSame(w, v.(client := Apply(v.client, e)), r, q);
    GrownKeeps(w, q);
    ReceiveOwes(v, e);
    PopKeeps(q);
  }

  lemma GrownSame(w: World, v: World, r: World, q: World)
    requires v == w.(stream := v.stream, client := v.client) && q == w.(claims := r.claims, latched := r.latched)
    requires Grown(v, r)
    ensures Grown(w, q) && r == q.(stream := v.stream, client := v.client)
  {
  }

  /** A tile or selection event owes a read in flight of its grid; a grid-changed one has the
      grid read, or read again. */
  lemma ReceiveOwes(w: World, e: Event)
    ensures forall g :: g in Receive(w, e).claims && Owe(e) == Some(g) ==> Receive(w, e).claims[g].owed
    ensures forall g :: e == GridChanged(g) && g != "" ==>
              g in Receive(w, e).claims && (Receive(w, e).claims[g].owed || Receive(w, e).claims[g].phase == Asked)
  {
    hide Apply;
  }

  lemma AnswerKeeps(w: World, g: string, rows: Option<seq<Tile>>)
    requires Inv(w) && CanAnswer(w, g, rows)
    ensures Inv(Do(w, Answer(g, rows)))
  {
    hide Catches, Answers, Leads, RowsOf, Lists, Unheld, RowsFiled, Sets;
    var r := Do(w, Answer(g, rows));
    if rows.Some? {
      assert RowsOf(rows.value, |rows.value|) == w.server[g] by {
        ListedRows(g, rows.value, w.server[g]);
      }
      SnapshotAnswers(w, g);
    }
    forall h | h in r.claims ensures AnswerFiled(r.claims[h].phase, h) {
      assert AnswerFiled(w.claims[h].phase, h);
    }
    if Telling(r) {
      forall h | h in r.claims ensures AnswerGood(r, h) {
        if h != g { assert AnswerGood(w, h); }
      }
      forall h | h in r.client.grids ensures GridGood(r, h) {
        assert GridGood(w, h);
      }
    }
  }

  lemma SnapshotAnswers(w: World, g: string)
    requires History(w) && g in w.server
    ensures Answers(w.server, w.stream, g, w.server[g])
  {
    if GridChanged(g) !in w.stream {
      SinceAll(w.stream, g);
      SnapshotStands(w.server[g], g, w.stream, false);
    }
  }

  /** Rows stored over a cached grid's leave it catching up, unless they leave it behind. */
  lemma StoredCatches(w: World, c: State, but: string, g: string)
    requires History(w) && g in w.client.grids && g in c.grids && g != but
    requires Catches(w.server, w.stream, g, w.client.grids[g].tiles)
    ensures Catches(w.server, w.stream, g, c.grids[g].tiles) <==> g !in Wronged(w, c, but)
  {
    hide Leads, Replay, Spares;
    if GridChanged(g) in w.stream {
      return;
    }
    SinceAll(w.stream, g);
    SparedCatchUp(w.server[g], g, w.stream, w.client.grids[g].tiles, c.grids[g].tiles);
  }

  lemma LandedGood(w: World, g: string)
    requires History(w) && g in w.claims && AnswerGood(w, g) && g !in w.early
    requires w.claims[g].phase.Answered? && w.claims[g].phase.rows.Some? && !w.claims[g].owed
    ensures var tiles := w.claims[g].phase.rows.value; Catches(w.server, w.stream, g, RowsOf(tiles, |tiles|))
  {
    hide Leads, Replay, RowsOf;
    var tiles := w.claims[g].phase.rows.value;
    if GridChanged(g) in w.stream {
      return;
    }
    SinceAll(w.stream, g);
    OwnEventsSuffice(w.server[g], RowsOf(tiles, |tiles|), g, w.stream);
  }

  lemma LandKeeps(w: World, g: string, rest: string)
    requires Inv(w) && g in w.claims && w.claims[g].phase.Answered?
    ensures Inv(Do(w, Land(g, rest)))
  {
    hide Catches, Answers, Leads, RowsOf, Lists, Unheld, RowsFiled, Sets, PutGrid, Wronged;
    var r := Do(w, Land(g, rest));
    assert AnswerFiled(w.claims[g].phase, g);
    var answer := w.claims[g].phase.rows;
    if answer.Some? {
      var rows := RowsOf(answer.value, |answer.value|);
      assert w.client.holds == map[] by { NoHolds(w.client); }
      PutGridReads(w.client, g, rest, answer.value, rows);
      PutGridUnheld(w.client, g, rest, answer.value, rows);
    }
    forall h | h in r.claims ensures AnswerFiled(r.claims[h].phase, h) {
      assert AnswerFiled(w.claims[h].phase, h);
    }
    if Telling(r) {
      assert AnswerGood(w, g);
      forall h | h in r.claims ensures AnswerGood(r, h) {
        assert AnswerGood(w, h);
      }
      forall h | h in r.client.grids ensures GridGood(r, h) {
        if h != g {
          assert GridGood(w, h);
          if answer.Some? && Catches(w.server, w.stream, h, w.client.grids[h].tiles) {
            StoredCatches(w, r.client, g, h);
          }
        } else if answer.Some? && !w.claims[g].owed && g !in w.early {
          LandedGood(w, g);
        }
      }
    }
  }

  lemma NoHolds(c: State)
    requires Unheld(c)
    ensures c.holds == map[]
  {
  }

  lemma DoneKeeps(w: World, g: string)
    requires Inv(w) && g in w.claims && w.claims[g].phase == Landed
    ensures Inv(Do(w, Done(g)))
  {
    hide Catches, Answers, Leads, RowsOf, Lists, Unheld, RowsFiled, Sets;
    var r := Do(w, Done(g));
    forall h | h in r.claims ensures AnswerFiled(r.claims[h].phase, h) {
      if h != g { assert AnswerFiled(w.claims[h].phase, h); }
    }
    if Telling(r) {
      forall h | h in r.claims ensures AnswerGood(r, h) {
        if h != g { assert AnswerGood(w, h); }
      }
      forall h | h in r.client.grids ensures GridGood(r, h) {
        assert GridGood(w, h);
      }
    }
  }

  lemma EndKeeps(w: World)
    requires Inv(w)
    ensures Inv(Do(w, StreamEnds))
  {
    hide AllGood, Leads, RowsFiled, Unheld, Sets, AnswerFiled;
    forall g, t, evicts | g in w.server ensures Leads(w.server[g], g, Since([], g), t, evicts) {
      LeadsNowhere(w.server[g], g, t, evicts);
    }
  }

  /** The first stream is behind exactly the rows that are not the server's when it opens. */
  lemma SubscribeKeeps(w: World)
    requires Inv(w)
    ensures Inv(Do(w, Subscribe))
  {
    hide Leads, RowsFiled, Unheld, Sets, AnswerFiled, RowsOf;
    forall g, t, evicts | g in w.server ensures Leads(w.server[g], g, Since([], g), t, evicts) {
      LeadsNowhere(w.server[g], g, t, evicts);
    }
  }

  /** After a gap every cached grid is asked for anew. */
  lemma OpenKeeps(w: World)
    requires Inv(w)
    ensures Inv(Do(w, StreamOpens))
  {
    hide Catches, Answers, Leads, RowsFiled, Unheld, Sets, RowsOf, Lists;
    if w.link == Subscribed {
      if w.gap {
        var r := Do(w, StreamOpens);
        assert forall g :: g in r.client.grids ==> g in r.claims;
      } else {
        SameGood(w, Do(w, StreamOpens));
      }
    }
  }

  lemma SameGood(w: World, r: World)
    requires r == w.(link := r.link)
    ensures AllGood(w) ==> AllGood(r)
  {
    hide Catches, Answers;
    forall g | g in w.claims && AnswerGood(w, g) ensures AnswerGood(r, g) {
    }
    forall g | g in w.client.grids && GridGood(w, g) ensures GridGood(r, g) {
    }
  }

  lemma NewGridKeeps(w: World, g: string)
    requires Inv(w)
    ensures Inv(Do(w, NewGrid(g)))
  {
    hide Replay, Leads, RowsOf, Lists, Unheld, Since;
    if g !in w.server {
      var r := Do(w, NewGrid(g));
      SinceWithin(w.stream, g);
      forall h, t, evicts | h in r.server ensures Leads(r.server[h], h, Since(r.stream, h), t, evicts) {
        if h == g {
          forall e | e in w.stream ensures !Sets(e, g, t) {
            var i :| 0 <= i < |w.stream| && w.stream[i] == e;
          }
          forall i | 0 <= i < |Since(w.stream, g)| ensures !Sets(Since(w.stream, g)[i], g, t) {
            assert Since(w.stream, g)[i] in Since(w.stream, g);
          }
          NeverTold(Since(w.stream, g), g, t, evicts);
        }
      }
      if Telling(r) {
        forall h | h in r.claims ensures AnswerGood(r, h) {
          assert AnswerGood(w, h);
        }
        forall h | h in r.client.grids ensures GridGood(r, h) {
          assert GridGood(w, h);
        }
      }
    }
  }

  lemma {:induction false} NeverTold(es: seq<Event>, g: string, t: string, evicts: bool)
    requires forall i :: 0 <= i < |es| ==> !Sets(es[i], g, t)
    ensures Leads(map[], g, es, t, evicts)
  {
    if es != [] {
      NeverTold(es[..|es| - 1], g, t, evicts);
    }
  }

  lemma BodyKeeps(w: World, op: Op)
    requires Inv(w)
    ensures Inv(Do(w, Body(op)))
  {
    hide Catches, Answers, Leads, RowsOf, Lists, RowsFiled, Sets, Step;
    if Writes(op) || op.OpBeginWrite? || op.OpEndWrite? {
      BodyKeepsRows(w.client, op);
      var r := Do(w, Body(op));
      if Telling(r) {
        forall h | h in r.claims ensures AnswerGood(r, h) {
          assert AnswerGood(w, h);
        }
        forall h | h in r.client.grids ensures GridGood(r, h) {
          assert GridGood(w, h);
        }
      }
    }
  }

  /** A row answered outside the stream, by a tile read or a write. */
  lemma FoldKeeps(w: World, op: Op)
    requires Inv(w)
    ensures Inv(Do(w, Fold(op)))
  {
    hide Catches, Answers, Leads, RowsOf, Lists, RowsFiled, Sets, Step, Unheld, Wronged;
    if op.OpUpdateTile? || op.OpWriteResponse? {
      FoldUnheld(w.client, op);
      var r := Do(w, Fold(op));
      if Telling(r) {
        forall h | h in r.claims ensures AnswerGood(r, h) {
          assert AnswerGood(w, h);
        }
        forall h | h in r.client.grids ensures GridGood(r, h) {
          assert GridGood(w, h);
          if Catches(w.server, w.stream, h, w.client.grids[h].tiles) {
            StoredCatches(w, r.client, "", h);
          }
        }
      }
    }
  }

  lemma ServerKeeps(w: World, a: Act)
    requires Inv(w) && (a.SetTile? || a.RemoveTile? || a.Relist? || a.Announce?)
    ensures Inv(Do(w, a))
  {
    hide Inv;
    ServerFiled(w);
    match a
    case SetTile(n, told) =>
      if CanSet(w.server, n) {
        var server := w.server[n.at.gridId := w.server[n.at.gridId][n.id := n]];
        forall g, evicts | g in server ensures server[g] == Told(w.server[g], g, TileChanged(n, told), evicts) {
          if g != n.at.gridId { assert w.server[g] - {n.id} == w.server[g]; }
        }
        TellKeeps(w, server, TileChanged(n, told));
      }
    case RemoveTile(g, t) =>
      if Do(w, a) != w {
        TellKeeps(w, w.server[g := w.server[g] - {t}], TileRemoved(g, t));
      }
    case Relist(g, rows) =>
      if CanList(w.server, g, rows) {
        TellKeeps(w, w.server[g := rows], GridChanged(g));
      }
    case Announce(e) =>
      if e.GridChanged? || e.SelectionChanged? {
        TellKeeps(w, w.server, e);
      }
  }

  lemma ServerFiled(w: World)
    requires Inv(w)
    ensures forall g :: g in w.server ==> RowsFiled(g, w.server[g])
  {
  }

  lemma StepKeeps(w: World, a: Act)
    requires Inv(w)
    ensures Inv(Do(w, a))
  {
    hide Inv, Receive, LandRead, DoneRead, CanAnswer, Resync, Step, FetchGrid, Wronged;
    match a
    case NewGrid(g) => NewGridKeeps(w, g);
    case Deliver => if w.link == Open && w.stream != [] { DeliverKeeps(w); }
    case Ask(g) =>
      FetchGrows(w, g);
      GrownKeeps(w, FetchGrid(w, g));
    case Answer(g, rows) => if CanAnswer(w, g, rows) { AnswerKeeps(w, g, rows); }
    case Land(g, rest) => if g in w.claims && w.claims[g].phase.Answered? { LandKeeps(w, g, rest); }
    case Done(g) => if g in w.claims && w.claims[g].phase == Landed { DoneKeeps(w, g); }
    case StreamEnds => EndKeeps(w);
    case Subscribe => SubscribeKeeps(w);
    case StreamOpens => OpenKeeps(w);
    case Fold(op) => FoldKeeps(w, op);
    case Body(op) => BodyKeeps(w, op);
    case _ => ServerKeeps(w, a);
  }

  lemma {:induction false} RunKeeps(acts: seq<Act>)
    ensures Inv(Run(START, acts))
  {
    hide Do, Inv;
    if acts == [] {
      StartGood();
    } else {
      RunKeeps(acts[..|acts| - 1]);
      StepKeeps(Run(START, acts[..|acts| - 1]), acts[|acts| - 1]);
    }
  }

  lemma StartGood()
    ensures Inv(START)
  {
  }

  /** Every event is in and no read is in flight. */
  ghost predicate Quiet(w: World)
  {
    w.link == Open && w.stream == [] && w.claims == map[]
  }

  /** In every run, once every event is delivered and no read is in flight, each cached grid is
      the server's unless its own last read failed or a change was lost to it since it was read:
      tiles may move between grids, listings move and be told by name alone, rows be answered outside the stream, streams end and open
      again, and reads fail, at any time. */
  lemma {:induction false} Quiescent(acts: seq<Act>, g: string)
    ensures var w := Run(START, acts);
            Quiet(w) && g in w.client.grids && g !in w.failed && g !in w.behind ==>
              g in w.server && w.client.grids[g].tiles == w.server[g]
  {
    hide Run, Tidy, History;
    RunKeeps(acts);
    var w := Run(START, acts);
    if g in w.client.grids && Telling(w) {
      assert GridGood(w, g);
    }
  }

  /** A resync clears every failure and has each grid that was cached, failed or being read, and
      no other, read anew. */
  lemma ResyncAsks(w: World, g: string)
    ensures var r := Resync(w);
            && r.latched == {} && r.behind == {} && r.early == {}
            && r.client == w.client && r.server == w.server && r.stream == w.stream
            && (g in r.claims <==> g != "" && (g in w.claims || g in w.latched || g in w.client.grids))
            && (g in r.claims ==> r.claims[g].phase == Asked && !r.claims[g].owed)
  {
  }

  /** What a delivered event asks for: a tile's or a selection's grid has its failure cleared and
      a read in flight owed another; a changed grid that, and to be read if it is not being; and
      no other grid's read or failure is touched. */
  lemma EventAsks(w: World, e: Event)
    ensures var r, g := Receive(w, e), if e.TileChanged? then e.tile.at.gridId else e.gridId;
            && r.latched == w.latched - {g}
            && (g in w.claims ==> g in r.claims && r.claims[g] == w.claims[g].(owed := true))
            && (g !in w.claims ==> (g in r.claims <==> e.GridChanged? && g != ""))
            && (g !in w.claims && g in r.claims ==> r.claims[g] == Read(Asked, false))
            && (forall h :: h != g ==> (h in r.claims <==> h in w.claims) && (h in w.claims ==> r.claims[h] == w.claims[h]))
  {
    hide Apply;
  }

  /** A grid whose read is answered has caught up, unless the first stream opened between the
      answer and its landing; the failure is gone and the claim stays until it is released. */
  lemma LandingRenews(w: World, g: string, rest: string, tiles: seq<Tile>)
    requires g in w.claims
    ensures var r := LandRead(w, g, rest, Some(tiles));
            && (g in r.behind <==> g in w.early) && r.early == w.early - {g} && r.latched == w.latched - {g}
            && r.claims.Keys == w.claims.Keys && r.claims[g] == w.claims[g].(phase := Landed)
            && forall h :: h in w.claims && h != g ==> r.claims[h] == w.claims[h]
  {
    hide PutGrid;
  }

  /** Step i of the run lands an answer to a read of the grid. */
  ghost predicate Lands(acts: seq<Act>, i: nat, g: string)
    requires i < |acts|
  {
    acts[i].Land? && acts[i].grid == g && var w := Run(START, acts[..i]); g in w.claims && w.claims[g].phase.Answered?
  }

  /** In every run a grid counts as failed exactly when the last answer that landed for it was a
      failure. */
  lemma {:induction false} FailedIsLastRead(acts: seq<Act>, g: string)
    ensures g in Run(START, acts).failed <==>
              exists i :: 0 <= i < |acts| && Lands(acts, i, g) && Run(START, acts[..i]).claims[g].phase.rows.None? &&
                          forall j :: i < j < |acts| ==> !Lands(acts, j, g)
  {
    hide Run, Do;
    if acts == [] {
      StartsEmpty();
    } else {
      var n := |acts| - 1;
      FailedIsLastRead(acts[..n], g);
      RunStep(acts);
      StepFails(Run(START, acts[..n]), acts[n], g);
      forall i | 0 <= i < n
        ensures Lands(acts, i, g) == Lands(acts[..n], i, g) && acts[..n][..i] == acts[..i]
      {
        assert acts[..n][..i] == acts[..i];
      }
      if Lands(acts, n, g) {
      } else if g in Run(START, acts).failed {
        var i :| 0 <= i < n && Lands(acts[..n], i, g) && Run(START, acts[..n][..i]).claims[g].phase.rows.None? &&
                 forall j :: i < j < n ==> !Lands(acts[..n], j, g);
        assert Lands(acts, i, g) && forall j :: i < j < |acts| ==> !Lands(acts, j, g);
      }
    }
  }

  lemma StartsEmpty()
    ensures Run(START, []).failed == {}
  {
  }

  lemma RunStep(acts: seq<Act>)
    requires acts != []
    ensures Run(START, acts) == Do(Run(START, acts[..|acts| - 1]), acts[|acts| - 1])
  {
  }

  lemma StepFails(w: World, a: Act, g: string)
    ensures g in Do(w, a).failed <==>
              if a.Land? && a.grid == g && g in w.claims && w.claims[g].phase.Answered? then w.claims[g].phase.rows.None?
              else g in w.failed
  {
    hide Apply, PutGrid, Step, Lists, Wronged, Differing, Overtaken, CanSet, CanList;
  }

  // ---------------------------------------------------------------- how a change is lost

  /** The tile is not the server's in grid h, or the stream still has a word on it there or has
      the grid read again. */
  ghost predicate Retold(w: World, h: string, t: string)
    requires h in w.server
  {
    t !in w.server[h] || LastSays(w.stream, h, t, true).Some? || GridChanged(h) in w.stream
  }

  /** A landing leaves another grid that was catching up doing so exactly when each tile it
      takes out of it is gone from it on the server too, or still to be told there. */
  lemma LandingSpares(w: World, g: string, rest: string, h: string)
    requires Inv(w) && g in w.claims && w.claims[g].phase.Answered? && w.claims[g].phase.rows.Some?
    requires h != g && h in w.client.grids && h in w.server && Catches(w.server, w.stream, h, w.client.grids[h].tiles)
    ensures var r, tiles := Do(w, Land(g, rest)), w.claims[g].phase.rows.value;
            && h in r.client.grids
            && (Catches(r.server, r.stream, h, r.client.grids[h].tiles) <==>
                forall i :: 0 <= i < |tiles| && tiles[i].id in w.client.grids[h].tiles ==> Retold(w, h, tiles[i].id))
            && (h in r.behind <==> h in w.behind || !Catches(r.server, r.stream, h, r.client.grids[h].tiles))
  {
    hide Leads, Replay, LastSays, Placed, PutGrid, Removes;
    var r, tiles := Do(w, Land(g, rest)), w.claims[g].phase.rows.value;
    assert AnswerFiled(w.claims[g].phase, g);
    PutGridReads(w.client, g, rest, tiles, RowsOf(tiles, |tiles|));
    StoredCatches(w, r.client, g, h);
    if GridChanged(h) !in w.stream {
      TakenOut(w, h, tiles, r.client.grids[h].tiles);
    }
  }

  lemma TakenOut(w: World, h: string, tiles: seq<Tile>, rows: Rows)
    requires h in w.server && h in w.client.grids && GridChanged(h) !in w.stream
    requires Lists(tiles, RowsOf(tiles, |tiles|)) && forall t :: t in RowsOf(tiles, |tiles|) ==> RowsOf(tiles, |tiles|)[t].id == t
    requires rows == w.client.grids[h].tiles - RowsOf(tiles, |tiles|).Keys
    ensures Spares(w.server[h], h, w.stream, w.client.grids[h].tiles, rows) <==>
            forall i :: 0 <= i < |tiles| && tiles[i].id in w.client.grids[h].tiles ==> Retold(w, h, tiles[i].id)
  {
    hide LastSays, Removes, RowsOf;
    var was, listed := w.client.grids[h].tiles, RowsOf(tiles, |tiles|);
    if Spares(w.server[h], h, w.stream, was, rows) {
      forall i | 0 <= i < |tiles| && tiles[i].id in was ensures Retold(w, h, tiles[i].id) {
        assert RowAt(rows, tiles[i].id) == None;
        assert PutsRight(w.server[h], h, w.stream, tiles[i].id, None, true);
      }
    } else {
      var t :| RowAt(rows, t) != RowAt(was, t) && !PutsRight(w.server[h], h, w.stream, t, RowAt(rows, t), true);
      assert t in listed && t in was;
      var i :| 0 <= i < |tiles| && tiles[i] == listed[t];
      assert !Retold(w, h, tiles[i].id);
    }
  }

  /** A row answered outside the stream leaves a grid that was catching up doing so exactly when
      the undelivered events put right each row it changes there. */
  lemma FoldSpares(w: World, op: Op, h: string)
    requires Inv(w) && (op.OpUpdateTile? || op.OpWriteResponse?)
    requires h in w.client.grids && h in w.server && Catches(w.server, w.stream, h, w.client.grids[h].tiles)
    ensures var r := Do(w, Fold(op));
            && h in r.client.grids
            && (Catches(r.server, r.stream, h, r.client.grids[h].tiles) <==>
                GridChanged(h) in w.stream || Spares(w.server[h], h, w.stream, w.client.grids[h].tiles, r.client.grids[h].tiles))
            && (h in r.behind <==> h in w.behind || !Catches(r.server, r.stream, h, r.client.grids[h].tiles))
  {
    hide Leads, Replay, Spares, Step, Unheld, Tidy;
    assert Unheld(w.client) by { TidyCache(w); }
    FoldUnheld(w.client, op);
    StoredCatches(w, Do(w, Fold(op)).client, "", h);
  }

  lemma TidyCache(w: World)
    requires Tidy(w)
    ensures Unheld(w.client)
  {
  }

  /** The first stream opens behind a cached grid, or an answer on its way in, exactly when the
      events to come will not make it what the server holds. */
  lemma FirstStreamSpares(w: World, g: string)
    requires Inv(w) && w.link == Down && !w.gap
    ensures var r := Do(w, Subscribe);
            && (g in r.client.grids ==>
                  (g in r.behind <==> !Catches(r.server, r.stream, g, r.client.grids[g].tiles)))
            && (g in r.claims && r.claims[g].phase.Answered? && r.claims[g].phase.rows.Some? ==>
                  var tiles := r.claims[g].phase.rows.value;
                  (g in r.early <==> !Answers(r.server, r.stream, g, RowsOf(tiles, |tiles|))))
  {
    hide Tidy, History, RowsOf;
  }

  /** What a step must meet to lose no change: the first stream opens on rows that are the
      server's, and rows are only taken out or stored where that is put right. */
  ghost predicate Meets(w: World, a: Act)
  {
    match a
    case Subscribe => w.link == Down && !w.gap ==> Differing(w) == {} && Overtaken(w) == {}
    case Land(g, _) =>
      g in w.claims && w.claims[g].phase.Answered? && w.claims[g].phase.rows.Some? ==>
        forall h, i ::
          && h in w.client.grids && h in w.server && h != g
          && 0 <= i < |w.claims[g].phase.rows.value| && w.claims[g].phase.rows.value[i].id in w.client.grids[h].tiles ==>
            Retold(w, h, w.claims[g].phase.rows.value[i].id)
    case Fold(op) =>
      forall h :: h in w.client.grids && h in w.server && h in Step(w.client, op).grids && GridChanged(h) !in w.stream ==>
        Spares(w.server[h], h, w.stream, w.client.grids[h].tiles, Step(w.client, op).grids[h].tiles)
    case _ => true
  }

  lemma LandingMet(w: World, g: string, rest: string)
    requires Inv(w) && Meets(w, Land(g, rest)) && w.behind == {} && w.early == {}
    ensures Do(w, Land(g, rest)).behind == {} && Do(w, Land(g, rest)).early == {}
  {
    hide Leads, Replay, LastSays, Placed, PutGrid, Removes, Spares, RowsOf;
    if g in w.claims && w.claims[g].phase.Answered? && w.claims[g].phase.rows.Some? {
      var tiles, c := w.claims[g].phase.rows.value, Do(w, Land(g, rest)).client;
      assert AnswerFiled(w.claims[g].phase, g);
      PutGridReads(w.client, g, rest, tiles, RowsOf(tiles, |tiles|));
      forall h | h in w.client.grids && h in w.server && h != g && GridChanged(h) !in w.stream
        ensures h !in Wronged(w, c, g)
      {
        TakenOut(w, h, tiles, c.grids[h].tiles);
      }
      assert Wronged(w, c, g) == {};
    }
  }

  lemma StepMet(w: World, a: Act)
    requires Inv(w) && Meets(w, a) && w.behind == {} && w.early == {}
    ensures Do(w, a).behind == {} && Do(w, a).early == {}
  {
    hide Inv, PutGrid, Step, Apply, Spares, Differing, Overtaken, CanAnswer, CanSet;
    match a
    case Land(g, rest) => LandingMet(w, g, rest);
    case Fold(op) => assert Wronged(w, Step(w.client, op), "") == {};
    case _ =>
  }

  /** A run whose steps all meet their guard ends, when quiet, with every cached grid whose last
      read did not fail the server's. */
  lemma {:induction false} GuardedRun(acts: seq<Act>)
    requires forall i :: 0 <= i < |acts| ==> Meets(Run(START, acts[..i]), acts[i])
    ensures Run(START, acts).behind == {} && Run(START, acts).early == {}
    ensures var w := Run(START, acts);
            Quiet(w) ==> forall g :: g in w.client.grids && g !in w.failed ==> g in w.server && w.client.grids[g].tiles == w.server[g]
  {
    hide Do, Meets, Quiet, Inv;
    if acts != [] {
      var k := |acts| - 1;
      forall i | 0 <= i < k ensures Meets(Run(START, acts[..k][..i]), acts[..k][i]) {
        assert acts[..k][..i] == acts[..i];
        assert Meets(Run(START, acts[..i]), acts[i]);
      }
      GuardedRun(acts[..k]);
      RunKeeps(acts[..k]);
      StepMet(Run(START, acts[..k]), acts[k]);
    }
    forall g ensures Quiet(Run(START, acts)) && g in Run(START, acts).client.grids && g !in Run(START, acts).failed ==>
      g in Run(START, acts).server && Run(START, acts).client.grids[g].tiles == Run(START, acts).server[g]
    {
      Quiescent(acts, g);
    }
  }

  // ---------------------------------------------------------------- where it stops holding

  /** An owed read is asked again exactly when it was answered: a failure latches before its
      claim is released, so the re-ask it owes is refused. */
  lemma OwedIsAskedAgain(w: World, g: string, rest: string)
    requires g != "" && g in w.claims && w.claims[g].phase.Answered? && w.claims[g].owed
    ensures var r := Do(Do(w, Land(g, rest)), Done(g));
            && (g in r.claims <==> w.claims[g].phase.rows.Some?)
            && (g in r.latched <==> w.claims[g].phase.rows.None?)
  {
    hide PutGrid;
  }

  /** One more step of a run. */
  lemma Go(acts: seq<Act>, w: World, a: Act) returns (more: seq<Act>, r: World)
    requires Run(START, acts) == w
    ensures more == acts + [a] && r == Do(w, a) && Run(START, more) == r
  {
    more, r := acts + [a], Do(w, a);
    assert more[..|acts|] == acts;
  }

  lemma RunNothing()
    ensures Run(START, []) == START
  {
  }

  /** What is to be seen of a world with no latches, no failures and no holds. */
  ghost predicate Looks(w: World, server: map<string, Rows>, stream: seq<Event>, grids: map<string, Rows>,
    claims: map<string, Read>)
  {
    && w.server == server && w.stream == stream && w.link == Open && !w.gap && w.claims == claims
    && w.latched == {} && w.failed == {} && w.client.holds == map[] && w.client.grids.Keys == grids.Keys
    && (forall g :: g in grids ==> w.client.grids[g].id == g && w.client.grids[g].tiles == grids[g])
  }

  const FROM: Tile := Tile("t", Placement("a", 0, 0, 1, 1), 1, 0, "", "", "", false, "")
  const TO: Tile := FROM.(at := Placement("b", 0, 0, 1, 1))

  lemma AskLooks(w: World, server: map<string, Rows>, es: seq<Event>, grids: map<string, Rows>,
    claims: map<string, Read>, g: string)
    requires Looks(w, server, es, grids, claims) && g != "" && g !in claims
    ensures Looks(Do(w, Ask(g)), server, es, grids, claims[g := Read(Asked, false)])
  {
  }

  lemma AnswerLooks(w: World, server: map<string, Rows>, es: seq<Event>, grids: map<string, Rows>,
    claims: map<string, Read>, g: string, tiles: seq<Tile>)
    requires Looks(w, server, es, grids, claims) && g in claims && claims[g].phase == Asked
    requires g in server && Lists(tiles, server[g])
    ensures Looks(Do(w, Answer(g, Some(tiles))), server, es, grids,
              claims[g := claims[g].(phase := Answered(Some(tiles)))])
  {
    hide Lists;
  }

  /** A read listing no rows leaves the grid empty and every other alone. */
  lemma LandEmptyLooks(w: World, server: map<string, Rows>, es: seq<Event>, grids: map<string, Rows>,
    claims: map<string, Read>, g: string)
    requires Looks(w, server, es, grids, claims) && g in claims && claims[g].phase == Answered(Some([]))
    ensures Looks(Do(w, Land(g, "")), server, es, grids[g := map[]], claims[g := claims[g].(phase := Landed)])
  {
    var r := ReadRows(w.client, g, [], 0);
    assert KeptRows(r.c, g, r.rows) == map[];
    assert KeptHolds(r.c, g, r.rows) == map[];
    hide KeptRows, KeptHolds;
  }

  lemma DoneLooks(w: World, server: map<string, Rows>, es: seq<Event>, grids: map<string, Rows>,
    claims: map<string, Read>, g: string)
    requires Looks(w, server, es, grids, claims) && g != "" && g in claims && claims[g].phase == Landed
    ensures Looks(Do(w, Done(g)), server, es, grids,
              if claims[g].owed then claims[g := Read(Asked, false)] else claims - {g})
  {
    assert (claims - {g})[g := Read(Asked, false)] == claims[g := Read(Asked, false)];
  }

  /** A whole read of a grid that has no rows. */
  lemma EmptyRead(was: seq<Act>, v: World, server: map<string, Rows>, es: seq<Event>, grids: map<string, Rows>,
    claims: map<string, Read>, g: string) returns (acts: seq<Act>, w: World)
    requires Run(START, was) == v && Looks(v, server, es, grids, claims)
    requires g in claims && claims[g] == Read(Asked, false) && g != "" && g in server && server[g] == map[]
    ensures Run(START, acts) == w && Looks(w, server, es, grids[g := map[]], claims - {g})
  {
    hide Run, Do, Looks;
    assert Lists([], server[g]);
    AnswerLooks(v, server, es, grids, claims, g, []);
    acts, w := Go(was, v, Answer(g, Some([])));
    var answered := claims[g := Read(Answered(Some([])), false)];
    LandEmptyLooks(w, server, es, grids, answered, g);
    acts, w := Go(acts, w, Land(g, ""));
    var landed := answered[g := Read(Landed, false)];
    DoneLooks(w, server, es, grids[g := map[]], landed, g);
    acts, w := Go(acts, w, Done(g));
    assert landed - {g} == claims - {g};
  }

  /** Grids a and b, one tile in a, and a client that has read b. */
  lemma Listening() returns (acts: seq<Act>, w: World)
    ensures Run(START, acts) == w
    ensures Looks(w, map["a" := map["t" := FROM], "b" := map[]], [], map["b" := map[]], map[])
  {
    hide Run, Receive, LandRead, DoneRead, Resync, Step;
    RunNothing();
    acts, w := Go([], START, NewGrid("a"));
    acts, w := Go(acts, w, NewGrid("b"));
    acts, w := Go(acts, w, SetTile(FROM, false));
    acts, w := Go(acts, w, Subscribe);
    acts, w := Go(acts, w, StreamOpens);
    acts, w := Go(acts, w, Ask("b"));
    var server := map["a" := map["t" := FROM], "b" := map[]];
    assert w.server == server;
    acts, w := EmptyRead(acts, w, server, [], map[], map["b" := Read(Asked, false)], "b");
    assert map["b" := Read(Asked, false)] - {"b"} == map[];
  }

  /** The tile moves from a to b while a read of a that still lists it is under way, and both
      events of the move are told. */
  lemma MoveTold(was: seq<Act>, v: World) returns (acts: seq<Act>, w: World)
    requires Run(START, was) == v
    requires Looks(v, map["a" := map["t" := FROM], "b" := map[]], [], map["b" := map[]], map[])
    ensures Run(START, acts) == w
    ensures Looks(w, map["a" := map[], "b" := map["t" := TO]], [], map["b" := map["t" := TO]],
              map["a" := Read(Answered(Some([FROM])), true)])
  {
    hide Run, Apply;
    var server, grids := map["a" := map["t" := FROM], "b" := map[]], map["b" := map[]];
    AskLooks(v, server, [], grids, map[], "a");
    acts, w := Go(was, v, Ask("a"));
    assert Lists([FROM], server["a"]);
    AnswerLooks(w, server, [], grids, map["a" := Read(Asked, false)], "a", [FROM]);
    acts, w := Go(acts, w, Answer("a", Some([FROM])));
    acts, w := Go(acts, w, RemoveTile("a", "t"));
    acts, w := Go(acts, w, SetTile(TO, false));
    assert w.stream == [TileRemoved("a", "t"), TileChanged(TO, false)];
    assert w.server == map["a" := map[], "b" := map["t" := TO]];
    acts, w := MoveHeard(acts, w);
  }

  lemma MoveHeard(was: seq<Act>, v: World) returns (acts: seq<Act>, w: World)
    requires Run(START, was) == v
    requires Looks(v, map["a" := map[], "b" := map["t" := TO]], [TileRemoved("a", "t"), TileChanged(TO, false)],
               map["b" := map[]], map["a" := Read(Answered(Some([FROM])), false)])
    ensures Run(START, acts) == w
    ensures Looks(w, map["a" := map[], "b" := map["t" := TO]], [], map["b" := map["t" := TO]],
              map["a" := Read(Answered(Some([FROM])), true)])
  {
    hide Run, Apply, Do, Looks;
    var server := map["a" := map[], "b" := map["t" := TO]];
    RunUnheld(was);
    RemovalLooks(v, server, TileChanged(TO, false));
    acts, w := Go(was, v, Deliver);
    RunUnheld(acts);
    ChangeLooks(w, server);
    acts, w := Go(acts, w, Deliver);
  }

  lemma RunUnheld(acts: seq<Act>)
    ensures Unheld(Run(START, acts).client)
  {
    RunKeeps(acts);
  }

  lemma RemovalLooks(v: World, server: map<string, Rows>, e: Event)
    requires Looks(v, server, [TileRemoved("a", "t"), e], map["b" := map[]], map["a" := Read(Answered(Some([FROM])), false)])
    requires Unheld(v.client)
    ensures Looks(Do(v, Deliver), server, [e], map["b" := map[]], map["a" := Read(Answered(Some([FROM])), true)])
  {
    hide Apply;
    ApplyTells(v.client, TileRemoved("a", "t"));
  }

  lemma ChangeLooks(v: World, server: map<string, Rows>)
    requires Looks(v, server, [TileChanged(TO, false)], map["b" := map[]], map["a" := Read(Answered(Some([FROM])), true)])
    requires Unheld(v.client)
    ensures Looks(Do(v, Deliver), server, [], map["b" := map["t" := TO]], map["a" := Read(Answered(Some([FROM])), true)])
  {
    hide Apply;
    ApplyTells(v.client, TileChanged(TO, false));
  }

  lemma LandEvicts(was: seq<Act>, v: World) returns (acts: seq<Act>, w: World)
    requires Run(START, was) == v
    requires Looks(v, map["a" := map[], "b" := map["t" := TO]], [], map["b" := map["t" := TO]],
              map["a" := Read(Answered(Some([FROM])), true)])
    ensures Run(START, acts) == w
    ensures Looks(w, map["a" := map[], "b" := map["t" := TO]], [], map["a" := map["t" := FROM], "b" := map[]],
              map["a" := Read(Asked, false)])
  {
    hide Run, Do, Looks;
    var server, grids := map["a" := map[], "b" := map["t" := TO]], map["a" := map["t" := FROM], "b" := map[]];
    EvictLooks(v, server);
    acts, w := Go(was, v, Land("a", ""));
    var landed := map["a" := Read(Landed, true)];
    DoneLooks(w, server, [], grids, landed, "a");
    acts, w := Go(acts, w, Done("a"));
    assert landed["a" := Read(Asked, false)] == map["a" := Read(Asked, false)];
  }

  lemma EvictLooks(v: World, server: map<string, Rows>)
    requires Looks(v, server, [], map["b" := map["t" := TO]], map["a" := Read(Answered(Some([FROM])), true)])
    ensures Looks(Do(v, Land("a", "")), server, [], map["a" := map["t" := FROM], "b" := map[]], map["a" := Read(Landed, true)])
  {
    hide PutGrid, Wronged;
    var rows := map["t" := FROM];
    PutGridReads(v.client, "a", "", [FROM], rows);
    assert map["t" := TO] - rows.Keys == map[];
  }

  /** The other side of the landing's guard: landing after the move's events, that read takes
      the tile out of b with nothing left to tell it there, and only a is asked again. */
  lemma MovedTileIsLost() returns (acts: seq<Act>)
    ensures var w := Run(START, acts);
            && Quiet(w) && w.failed == {} && "b" in w.behind
            && "b" in w.client.grids && "b" in w.server && w.client.grids["b"].tiles != w.server["b"]
  {
    hide Run, Do;
    var w;
    acts, w := Listening();
    acts, w := MoveTold(acts, w);
    acts, w := LandEvicts(acts, w);
    acts, w := EmptyRead(acts, w, map["a" := map[], "b" := map["t" := TO]], [],
      map["a" := map["t" := FROM], "b" := map[]], map["a" := Read(Asked, false)], "a");
    assert w.client.grids["b"].tiles == map[];
    assert "t" in w.server["b"];
    Quiescent(acts, "b");
  }

  /** The other side of the first stream's guard: a change between a read's answer and the first
      subscription is never told, and that first stream asks for nothing anew. */
  lemma EarlyAnswerIsStale() returns (acts: seq<Act>)
    ensures var w := Run(START, acts);
            && Quiet(w) && w.failed == {} && "a" in w.behind
            && "a" in w.client.grids && "a" in w.server && w.client.grids["a"].tiles != w.server["a"]
  {
    hide Run, Do;
    var w;
    acts, w := EarlyAnswer();
    EarlyLand(w);
    acts, w := Go(acts, w, Land("a", ""));
    acts, w := Go(acts, w, Done("a"));
    assert "t" in w.server["a"];
    Quiescent(acts, "a");
  }

  lemma EarlyAnswer() returns (acts: seq<Act>, w: World)
    ensures Run(START, acts) == w && w.server == map["a" := map["t" := FROM]] && w.link == Open && w.stream == []
    ensures w.claims == map["a" := Read(Answered(Some([])), false)] && w.failed == {} && w.client == EMPTY
  {
    hide Run, Receive, LandRead, DoneRead, Resync, Step, CanAnswer;
    acts, w := EarlyAsk();
    acts, w := Go(acts, w, SetTile(FROM, false));
    assert w.server == map["a" := map["t" := FROM]];
    acts, w := Go(acts, w, Subscribe);
    acts, w := Go(acts, w, StreamOpens);
  }

  lemma EarlyAsk() returns (acts: seq<Act>, w: World)
    ensures Run(START, acts) == w
    ensures w == START.(server := map["a" := map[]], claims := map["a" := Read(Answered(Some([])), false)])
  {
    hide Run, Receive, LandRead, DoneRead, Resync, Step;
    RunNothing();
    acts, w := Go([], START, NewGrid("a"));
    acts, w := Go(acts, w, Ask("a"));
    assert Lists([], w.server["a"]);
    acts, w := Go(acts, w, Answer("a", Some([])));
  }

  lemma EarlyLand(w: World)
    requires w.link == Open && w.stream == [] && w.failed == {} && w.client == EMPTY
    requires w.claims == map["a" := Read(Answered(Some([])), false)]
    ensures var r := Do(Do(w, Land("a", "")), Done("a"));
            && r.server == w.server && r.link == Open && r.stream == [] && r.failed == {} && r.claims == map[]
            && "a" in r.client.grids && r.client.grids["a"].tiles == map[]
  {
    hide PutGrid;
    NoRows(w.client, "a");
  }

  lemma NoRows(c: State, g: string)
    requires c.holds == map[]
    ensures PutGrid(c, g, "", []).grids == c.grids[g := Grid(g, "", map[])]
  {
    var r := ReadRows(c, g, [], 0);
    assert KeptRows(r.c, g, r.rows) == map[];
  }
}
