/** client/cache/cache.go and client/cache/placement.go: the store itself. Each method is one
    critical section and leaves exactly what CacheState says of it. */
module Cache {
  import opened Options
  import opened CacheState
  import opened CacheLaws

  class Store {
    var grids: map<string, CacheState.Grid>
    var content: map<string, Entry>
    var gens: nat
    var holds: map<string, Hold>
    var writing: map<string, OwnWrite>
    var moves: nat

    ghost function Sees(): State
      reads this
    {
      State(grids, content, gens, holds, writing, moves)
    }

    /** Every tile in one home, filed under its own ids, at its hold. */
    ghost predicate Valid()
      reads this
    {
      Placed(grids, holds)
    }

    constructor ()
      ensures Valid() && Sees() == EMPTY
    {
      grids, content, gens, holds, writing, moves := map[], map[], 0, map[], map[], 0;
    }

    /** The cached row for a tile, looked for grid by grid. */
    method Row(t: string) returns (row: Option<Tile>)
      requires OneHome(grids)
      ensures row == RowOf(grids, t)
    {
      var todo := grids.Keys;
      while todo != {}
        invariant todo <= grids.Keys
        invariant forall g :: CachedIn(grids, g, t) ==> g in todo
        decreases |todo|
      {
        var g :| g in todo;
        if t in grids[g].tiles {
          assert CachedIn(grids, g, t);
          return Some(grids[g].tiles[t]);
        }
        todo := todo - {g};
      }
      return None;
    }

    /** Every grid but home forgets the tile. */
    method EvictElsewhere(t: string, home: string)
      modifies this`grids
      ensures grids == WithoutTile(old(grids), t, home)
    {
      var todo := grids.Keys;
      while todo != {}
        invariant todo <= grids.Keys == old(grids).Keys
        invariant forall g :: g in grids ==>
                    grids[g] == if g in todo then old(grids)[g] else WithoutTile(old(grids), t, home)[g]
        decreases |todo|
      {
        var g :| g in todo;
        if g != home {
          grids := grids[g := grids[g].(tiles := grids[g].tiles - {t})];
        }
        todo := todo - {g};
      }
    }

    method AgeContent(n: Tile, told: bool)
      modifies this`content, this`writing
      ensures Sees() == Age(old(Sees()), n, told)
    {
      if n.id in writing {
        var w := writing[n.id];
        writing := writing[n.id := OwnWrite(w.n, w.told || told, Some(n))];
        return;
      }
      if n.id in content && Behind(content[n.id], n, told) {
        content := content - {n.id};
      }
    }

    /** A row older than the cached one is refused; any other is aged and stored. */
    method PutTile(g: string, n: Tile, told: bool) returns (stored: bool)
      requires g in grids
      modifies this`grids, this`content, this`writing
      ensures Sees() == CacheState.PutTile(old(Sees()), g, n, told)
      ensures stored == !Refused(old(Sees()), g, n)
    {
      if n.id in grids[g].tiles && n.version < grids[g].tiles[n.id].version {
        return false;
      }
      AgeContent(n, told);
      EvictElsewhere(n.id, grids[g].id);
      grids := grids[g := grids[g].(tiles := grids[g].tiles[n.id := n])];
      return true;
    }

    method StoreRow(n: Tile, told: bool) returns (stored: bool)
      modifies this`grids, this`content, this`writing
      ensures Sees() == CacheState.Store(old(Sees()), n, told)
      ensures stored == Stores(old(Sees()), n)
    {
      hide CacheState.PutTile;
      if n.at.gridId !in grids {
        AgeContent(n, told);
        EvictElsewhere(n.id, n.at.gridId);
        return false;
      }
      stored := PutTile(n.at.gridId, n, told);
    }

    /** The row a held tile may store. */
    method AdmitRow(n: Tile, stream: bool) returns (row: Tile)
      modifies this`holds
      ensures (Sees(), row) == Admit(old(Sees()), n, stream)
    {
      if n.id !in holds {
        return n;
      }
      var h := holds[n.id];
      var at := n.at == h.p;
      if (stream && at) || (!stream && h.landed) {
        holds := holds - {n.id};
        return n;
      }
      if at {
        return n;
      }
      return n.(at := h.p);
    }

    /** The rows held in a grid that its read predates, carried over; a read after the write
        landed ends the hold instead. */
    method KeepHeld(gid: string, read: map<string, Tile>) returns (rows: map<string, Tile>)
      modifies this`holds
      ensures rows == read + KeptRows(old(Sees()), gid, read)
      ensures holds == KeptHolds(old(Sees()), gid, read)
    {
      hide Keeping, KeptRows, KeptHolds;
      rows := read;
      var todo := holds.Keys;
      ghost var c := Sees();
      KeepingStarts(c, gid, read);
      while todo != {}
        invariant todo <= c.holds.Keys
        invariant Keeping(c, gid, read, rows, holds, todo)
        decreases |todo|
      {
        var t :| t in todo;
        KeepingStep(c, gid, read, rows, holds, todo, t);
        var h := holds[t];
        todo := todo - {t};
        if h.p.gridId == gid && t !in rows {
          if h.landed {
            holds := holds - {t};
          } else if gid in grids && t in grids[gid].tiles {
            rows := rows[t := grids[gid].tiles[t]];
          }
        }
      }
      KeepingDone(c, gid, read, rows, holds);
    }

    /** Replaces a grid's rows after a fresh read. */
    method PutGrid(gid: string, rest: string, tiles: seq<Tile>)
      requires Valid()
      modifies this`grids, this`content, this`writing, this`holds
      ensures Valid() && Sees() == CacheState.PutGrid(old(Sees()), gid, rest, tiles)
    {
      hide Placed, ReadRow, CacheState.Store, KeptRows, KeptHolds;
      ghost var c := Sees();
      var rows: map<string, Tile> := map[];
      var away: seq<Tile> := [];
      var k := 0;
      while k < |tiles|
        invariant 0 <= k <= |tiles|
        invariant Reading(Sees(), rows, away) == ReadRows(c, gid, tiles, k)
      {
        ghost var r := Reading(Sees(), rows, away);
        var n := AdmitRow(tiles[k], false);
        if n.at.gridId != gid {
          away := away + [n];
        } else {
          AgeContent(n, false);
          EvictElsewhere(n.id, gid);
          rows := rows[n.id := n];
        }
        assert Reading(Sees(), rows, away) == ReadRow(r, gid, tiles[k]) by { ReadOne(r, gid, tiles[k]); }
        k := k + 1;
      }
      ghost var r := ReadRows(c, gid, tiles, |tiles|);
      var kept := KeepHeld(gid, rows);
      grids := grids[gid := CacheState.Grid(gid, rest, kept)];
      assert Sees() == Install(r, gid, rest);
      k := 0;
      while k < |away|
        invariant 0 <= k <= |away|
        invariant Sees() == StoreAll(Install(r, gid, rest), away, k)
      {
        var stored := StoreRow(away[k], false);
        k := k + 1;
      }
      PutGridKeeps(c, gid, rest, tiles);
    }

    /** A Subscribe event folded in, and whether what is shown changed. */
    method Apply(ev: Event) returns (shows: bool)
      requires Valid()
      modifies this`grids, this`content, this`writing, this`holds
      ensures Valid() && Sees() == CacheState.Apply(old(Sees()), ev)
      ensures !ev.SelectionChanged? ==> shows == Shows(old(Sees()), ev)
    {
      hide Placed, CacheState.Store;
      ApplyKeeps(Sees(), ev);
      shows := false;
      match ev {
        case TileChanged(n, told) =>
          var row := AdmitRow(n, true);
          shows := StoreRow(row, told);
        case TileRemoved(g, t) =>
          if g !in grids {
            return false;
          }
          if t in holds && holds[t].p.gridId == g {
            return false;
          }
          shows := t in grids[g].tiles;
          if t !in content || !content[t].dirty {
            content := content - {t};
          }
          grids := grids[g := grids[g].(tiles := grids[g].tiles - {t})];
        case GridChanged(_) =>
          shows := true;
        case SelectionChanged(_) =>
      }
    }

    /** A row read outside the stream; never inserted. */
    method UpdateTile(g: string, n: Tile)
      requires Valid()
      modifies this`grids, this`content, this`writing, this`holds
      ensures Valid() && Sees() == CacheState.UpdateTile(old(Sees()), g, n)
    {
      hide Placed, CacheState.Store;
      AnswersKeep(Sees(), g, n, WroteBody);
      if !(g in grids && n.id in grids[g].tiles) {
        AgeContent(n, false);
        return;
      }
      var row := AdmitRow(n, false);
      var stored := StoreRow(row, false);
    }

    /** The row a write answered with, for what the write set. */
    method PutWriteResponse(g: string, resp: Tile, w: Wrote)
      requires Valid()
      modifies this`grids, this`content, this`writing, this`holds
      ensures Valid() && Sees() == CacheState.PutWriteResponse(old(Sees()), g, resp, w)
    {
      hide Placed, CacheState.Store, CacheState.PutTile;
      AnswersKeep(Sees(), g, resp, w);
      if !(g in grids && resp.id in grids[g].tiles) {
        AgeContent(resp, false);
        return;
      }
      var n := grids[g].tiles[resp.id];
      if ClaimsVersion(w) {
        if resp.version < n.version {
          return;
        }
        n := n.(version := resp.version);
      }
      match w {
        case WroteBody => n := n.(blob := resp.blob, altText := resp.altText, stamp := resp.stamp);
        case WroteAddress => n := n.(url := resp.url);
        case WroteName => n := n.(altText := resp.altText);
        case WroteFrozen => n := n.(frozen := resp.frozen);
        case WrotePlacement => n := n.(at := resp.at);
      }
      var row := AdmitRow(n, false);
      if row.at.gridId != grids[g].id {
        var stored := StoreRow(row, false);
        return;
      }
      var stored := PutTile(g, row, false);
    }

    /** Moves the cached row ahead of its write and holds it there. */
    method Move(t: string, p: Placement) returns (m: Option<Moving>)
      requires Valid()
      modifies this`grids, this`content, this`writing, this`holds, this`moves
      ensures Valid() && Sees() == CacheState.Move(old(Sees()), t, p)
      ensures m == Claimed(old(Sees()), t)
    {
      hide CacheState.Store;
      MovesKeep(Sees(), t, p, Moving(t, 0, p), t);
      var cur := Row(t);
      if cur.None? {
        return None;
      }
      moves := moves + 1;
      holds := holds[t := Hold(p, moves, false)];
      var stored := StoreRow(cur.value.(at := p), false);
      return Some(Moving(t, moves, cur.value.at));
    }

    /** The write's answer: what it set is folded in, then it speaks for the hold. */
    method Landed(m: Moving, resp: Tile)
      requires Valid()
      modifies this`grids, this`content, this`writing, this`holds
      ensures Valid()
      ensures Sees() == LandHold(CacheState.PutWriteResponse(old(Sees()), resp.at.gridId, resp, WrotePlacement), m, resp.id)
    {
      hide Placed, CacheState.PutWriteResponse;
      PutWriteResponse(resp.at.gridId, resp, WrotePlacement);
      MovesKeep(Sees(), m.id, m.origin, m, resp.id);
      if m.id in holds && holds[m.id].number == m.number {
        if resp.id != m.id {
          holds := holds - {m.id};
        } else {
          holds := holds[m.id := holds[m.id].(landed := true)];
        }
      }
    }

    /** Puts the row back, unless a newer move or the stream has spoken since. */
    method Failed(m: Moving)
      requires Valid()
      modifies this`grids, this`content, this`writing, this`holds
      ensures Valid() && Sees() == CacheState.Failed(old(Sees()), m)
    {
      hide CacheState.Store, Filed, HeldInPlace;
      MovesKeep(Sees(), m.id, m.origin, m, m.id);
      if !(m.id in holds && holds[m.id].number == m.number) {
        return;
      }
      holds := holds - {m.id};
      var cur := Row(m.id);
      if cur.Some? {
        var stored := StoreRow(cur.value.(at := m.origin), false);
      }
    }

    /** The basis a content read is filed under, taken before it is sent. */
    method AskContent(t: string) returns (asked: RowBasis)
      requires Valid()
      ensures asked == if RowOf(grids, t).Some? then RowBasisOf(RowOf(grids, t).value) else RowBasis(0, "", false)
    {
      var n := Row(t);
      if n.Some? {
        return RowBasisOf(n.value);
      }
      return RowBasis(0, "", false);
    }

    method NextGen() returns (gen: nat)
      modifies this`gens
      ensures gens == old(gens) + 1 == gen
    {
      gens := gens + 1;
      return gens;
    }

    /** A body read: never over an unsaved edit, never back a version, and not when its row
        has moved since the asking. */
    method PutFetchedContent(t: string, data: Bytes, base: Basis, asked: RowBasis)
      requires Valid()
      modifies this`content, this`gens
      ensures Valid() && Sees() == PutFetched(old(Sees()), t, data, base, asked)
    {
      if t in content && (content[t].dirty || base.version < content[t].base.version) {
        return;
      }
      var n := Row(t);
      if n.Some? && Differs(asked, n.value) {
        return;
      }
      var gen := NextGen();
      content := content[t := Entry(data, base, asked, false, gen)];
    }

    /** An unsaved edit, keeping the entry's basis. */
    method PutEditedContent(t: string, data: Bytes)
      requires Valid()
      modifies this`content, this`gens
      ensures Valid() && Sees() == PutEdited(old(Sees()), t, data)
    {
      var e := Entry([], Basis(0, ""), RowBasis(0, "", false), false, 0);
      if t in content {
        e := content[t];
      }
      var gen := NextGen();
      content := content[t := Entry(data, e.base, e.row, true, gen)];
    }

    /** The body a write confirmed; over newer edits only the basis advances. */
    method PutSavedContent(row: Tile, data: Bytes)
      requires Valid()
      modifies this`content, this`gens
      ensures Valid() && Sees() == PutSaved(old(Sees()), row, data)
    {
      var base, filed := BasisOf(row), RowBasisOf(row);
      var ok := row.id in content;
      if ok && content[row.id].dirty && content[row.id].data != data {
        content := content[row.id := content[row.id].(base := base, row := filed)];
        return;
      }
      var gen := NextGen();
      if ok && content[row.id].data == data {
        gen := content[row.id].gen;
      }
      content := content[row.id := Entry(data, base, filed, false, gen)];
    }

    /** Every tile with an unsaved edit. */
    method DirtyTileIds() returns (ids: set<string>)
      ensures forall t :: t in ids <==> t in content && content[t].dirty
    {
      ids := {};
      var todo := content.Keys;
      while todo != {}
        invariant todo <= content.Keys
        invariant forall t :: t in ids <==> t !in todo && t in content && content[t].dirty
        decreases |todo|
      {
        var t :| t in todo;
        if content[t].dirty {
          ids := ids + {t};
        }
        todo := todo - {t};
      }
    }

    method DropTileContent(t: string)
      requires Valid()
      modifies this`content
      ensures Valid() && Sees() == DropContent(old(Sees()), t)
    {
      content := content - {t};
    }

    /** Marks a content write in flight. */
    method Begin(t: string)
      requires Valid()
      modifies this`writing
      ensures Valid() && Sees() == BeginWrite(old(Sees()), t)
    {
      var w := OwnWrite(0, false, None);
      if t in writing {
        w := writing[t];
      }
      writing := writing[t := OwnWrite(w.n + 1, w.told, w.last)];
    }

    /** Ends one; the last end ages the body against the row the cache then holds. */
    method End(t: string)
      requires Valid()
      modifies this`writing, this`content
      ensures Valid() && Sees() == EndWrite(old(Sees()), t)
    {
      if t !in writing {
        return;
      }
      var w := writing[t];
      if w.n - 1 > 0 {
        writing := writing[t := w.(n := w.n - 1)];
        return;
      }
      writing := writing - {t};
      var n := Row(t);
      if n.None? {
        n := w.last;
      }
      if n.Some? {
        AgeContent(n.value, w.told);
      }
    }
  }

  lemma ReadOne(r: Reading, gid: string, n: Tile)
    ensures var (c, row) := Admit(r.c, n, false);
            ReadRow(r, gid, n) ==
              if row.at.gridId != gid then Reading(c, r.rows, r.away + [row])
              else Reading(Evict(Age(c, row, false), row.id, gid), r.rows[row.id := row], r.away)
  {
  }

  /** The walk over the holds with todo still ahead. */
  ghost predicate Keeping(c: State, gid: string, read: map<string, Tile>, rows: map<string, Tile>,
    holds: map<string, Hold>, todo: set<string>)
  {
    && (forall t :: t in todo ==> t in c.holds && t in holds && holds[t] == c.holds[t])
    && (forall t :: t !in todo ==> (t in holds <==> t in KeptHolds(c, gid, read)))
    && (forall t :: t !in todo && t in holds ==> holds[t] == KeptHolds(c, gid, read)[t])
    && (forall t :: t in rows <==> t in read || (t in KeptRows(c, gid, read) && t !in todo))
    && (forall t :: t in rows ==> rows[t] == if t in read then read[t] else KeptRows(c, gid, read)[t])
  }

  lemma KeepingStarts(c: State, gid: string, read: map<string, Tile>)
    ensures Keeping(c, gid, read, read, c.holds, c.holds.Keys)
  {
  }

  lemma KeepingStep(c: State, gid: string, read: map<string, Tile>, rows: map<string, Tile>,
    holds: map<string, Hold>, todo: set<string>, t: string)
    requires Keeping(c, gid, read, rows, holds, todo) && t in todo
    ensures t in holds
    ensures var ends := holds[t].p.gridId == gid && t !in rows && holds[t].landed;
            var stays := holds[t].p.gridId == gid && t !in rows && !holds[t].landed && CachedIn(c.grids, gid, t);
            Keeping(c, gid, read, if stays then rows[t := c.grids[gid].tiles[t]] else rows,
              if ends then holds - {t} else holds, todo - {t})
  {
  }

  lemma KeepingDone(c: State, gid: string, read: map<string, Tile>, rows: map<string, Tile>, holds: map<string, Hold>)
    requires Keeping(c, gid, read, rows, holds, {})
    ensures rows == read + KeptRows(c, gid, read) && holds == KeptHolds(c, gid, read)
  {
    assert forall t :: t in KeptRows(c, gid, read) ==> t !in read;
    hide KeptRows, KeptHolds;
    assert holds == KeptHolds(c, gid, read);
    assert rows == read + KeptRows(c, gid, read);
  }
}
