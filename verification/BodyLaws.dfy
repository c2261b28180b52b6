/** client/cache/cache.go: when a row makes a cached body stale, said of versions, stamps and
    blobs, and what the cache then does. */
module BodyLaws {
  import opened Options
  import opened CacheState
  import opened CacheLaws

  /** The row names other bytes than a clean body holds: a newer version, or the same version
      under another stamp, or with no stamp to say so, told of a change or of another blob. */
  predicate Outdated(e: Entry, n: Tile, told: bool)
  {
    && !e.dirty && n.version >= e.base.version
    && (|| n.version != e.base.version
        || (n.stamp != "" && n.stamp != e.base.stamp)
        || (n.stamp == "" && (told || n.blob != if e.row.known then e.row.blob else 0)))
  }

  /** A tile's body after a row of it: dropped exactly when it was clean, unwritten and stale,
      and no other body is touched. */
  ghost predicate Judged(c: State, r: State, n: Tile, told: bool)
  {
    && (forall t :: t in r.content ==> t in c.content && r.content[t] == c.content[t])
    && (forall t :: t in c.content ==>
          (t !in r.content <==> t == n.id && t !in c.writing && Outdated(c.content[t], n, told)))
  }

  ghost predicate SameBodies(c: State, r: State)
  {
    r.content == c.content
  }

  /** A row older than the one cached in its grid. */
  predicate Older(c: State, g: string, n: Tile)
  {
    g in c.grids && n.id in c.grids[g].tiles && n.version < c.grids[g].tiles[n.id].version
  }

  lemma AgeJudges(c: State, n: Tile, told: bool)
    ensures Judged(c, Age(c, n, told), n, told)
  {
  }

  lemma StoreJudges(c: State, n: Tile, told: bool)
    ensures if Older(c, n.at.gridId, n) then SameBodies(c, Store(c, n, told)) else Judged(c, Store(c, n, told), n, told)
  {
    hide Age, WithoutTile, Outdated;
    AgeJudges(c, n, told);
  }

  /** Where a row is stored: where its tile is held, or else where it says. */
  function Goes(c: State, n: Tile, stream: bool): string
  {
    if n.id in c.holds && (stream || !c.holds[n.id].landed) then c.holds[n.id].p.gridId else n.at.gridId
  }

  lemma AdmitJudges(c: State, n: Tile, stream: bool, told: bool)
    ensures var (held, row) := Admit(c, n, stream);
            && row == n.(at := row.at) && row.at.gridId == Goes(c, n, stream)
            && held == c.(holds := held.holds)
            && if Older(c, Goes(c, n, stream), n) then SameBodies(c, Store(held, row, told))
               else Judged(c, Store(held, row, told), n, told)
  {
    hide Store;
    var (held, row) := Admit(c, n, stream);
    StoreJudges(held, row, told);
  }

  /** An event's row, refused when older than the one cached, judges its tile's body. */
  lemma EventDrops(c: State, n: Tile, told: bool)
    ensures var r := Apply(c, TileChanged(n, told));
            if Older(c, Goes(c, n, true), n) then SameBodies(c, r) else Judged(c, r, n, told)
  {
    hide Store, Admit, Judged;
    AdmitJudges(c, n, true, told);
  }

  /** An event shows exactly when its row is stored in a cached grid, or its removal takes a
      cached row that no move holds there; a changed grid always. */
  lemma EventShows(c: State, ev: Event)
    ensures match ev
            case TileChanged(n, _) => Shows(c, ev) <==> Goes(c, n, true) in c.grids && !Older(c, Goes(c, n, true), n)
            case TileRemoved(g, t) => Shows(c, ev) <==> CachedIn(c.grids, g, t) && (t in c.holds ==> c.holds[t].p.gridId != g)
            case GridChanged(_) => Shows(c, ev)
            case SelectionChanged(_) => true
  {
  }

  /** A removal takes the row out of that grid, unless a move holds it there, and changes no other
      row. */
  lemma RemovalTakes(c: State, g: string, t: string)
    ensures var r := Apply(c, TileRemoved(g, t));
            forall h, x :: CachedIn(r.grids, h, x) <==>
              CachedIn(c.grids, h, x) && !(h == g && x == t && !(t in c.holds && c.holds[t].p.gridId == g))
  {
  }

  /** A tile taken out of a cached grid takes its clean body along. */
  lemma RemovalDrops(c: State, g: string, t: string)
    ensures var r := Apply(c, TileRemoved(g, t));
            && (forall x :: x in r.content ==> x in c.content && r.content[x] == c.content[x])
            && (forall x :: x in c.content ==>
                  (x !in r.content <==> x == t && !c.content[x].dirty && g in c.grids && !(t in c.holds && c.holds[t].p.gridId == g)))
  {
  }

  /** A row read outside the stream judges its tile's body whether or not it is stored, unless
      refused. */
  lemma UpdateDrops(c: State, g: string, n: Tile)
    ensures var r := UpdateTile(c, g, n);
            if CachedIn(c.grids, g, n.id) && Older(c, Goes(c, n, false), n) then SameBodies(c, r)
            else Judged(c, r, n, false)
  {
    hide Store, Admit, Judged, Age;
    AdmitJudges(c, n, false, false);
    AgeJudges(c, n, false);
  }

  /** The rows of a tile a grid read lists go into that grid. */
  predicate ListedHere(c: State, gid: string, tiles: seq<Tile>, t: string)
  {
    forall i :: 0 <= i < |tiles| && tiles[i].id == t ==> Goes(c, tiles[i], false) == tiles[i].at.gridId == gid
  }

  /** The body of t after the first k rows of a read. */
  ghost predicate JudgedBy(c: State, r: State, tiles: seq<Tile>, k: nat, t: string)
    requires k <= |tiles|
  {
    && (t in r.writing <==> t in c.writing)
    && (t in r.content ==> t in c.content && r.content[t] == c.content[t])
    && (t in c.content ==>
          (t !in r.content <==>
            t !in c.writing && exists i :: 0 <= i < k && tiles[i].id == t && Outdated(c.content[t], tiles[i], false)))
  }

  lemma {:induction false} ReadJudges(c: State, gid: string, tiles: seq<Tile>, k: nat, t: string)
    requires k <= |tiles| && ListedHere(c, gid, tiles, t)
    ensures var r := ReadRows(c, gid, tiles, k);
            && JudgedBy(c, r.c, tiles, k, t)
            && (t in r.c.holds ==> t in c.holds && r.c.holds[t] == c.holds[t])
            && (forall i :: 0 <= i < |r.away| ==> r.away[i].id != t)
  {
    hide Outdated, ReadRow, JudgedBy;
    if k > 0 {
      ReadJudges(c, gid, tiles, k - 1, t);
      var r, n := ReadRows(c, gid, tiles, k - 1), tiles[k - 1];
      assert n.id == t ==> Goes(c, n, false) == n.at.gridId == gid;
      ReadOne(r, gid, n, t);
      JudgedOn(c, r.c, ReadRow(r, gid, n).c, tiles, k, t);
    } else {
      JudgedByNone(c, tiles, t);
    }
  }

  lemma JudgedByNone(c: State, tiles: seq<Tile>, t: string)
    ensures JudgedBy(c, c, tiles, 0, t)
  {
  }

  lemma JudgedOn(c: State, d: State, r: State, tiles: seq<Tile>, k: nat, t: string)
    requires 0 < k <= |tiles| && JudgedBy(c, d, tiles, k - 1, t)
    requires if tiles[k - 1].id == t then Judged(d, r, tiles[k - 1], false) else Untouched(d, r, t)
    requires r.writing.Keys == d.writing.Keys
    ensures JudgedBy(c, r, tiles, k, t)
  {
    hide Outdated;
  }

  ghost predicate Untouched(c: State, r: State, t: string)
  {
    (t in r.content <==> t in c.content) && (t in c.content ==> r.content[t] == c.content[t])
  }

  lemma ReadOne(r: Reading, gid: string, n: Tile, t: string)
    requires n.id == t ==> n.at.gridId == gid && (t in r.c.holds && !r.c.holds[t].landed ==> r.c.holds[t].p.gridId == gid)
    ensures var v := ReadRow(r, gid, n);
            && (if n.id == t then Judged(r.c, v.c, n, false) && v.away == r.away else Untouched(r.c, v.c, t))
            && v.c.writing.Keys == r.c.writing.Keys
            && (t in v.c.holds ==> t in r.c.holds && v.c.holds[t] == r.c.holds[t])
            && (v.away == r.away || (n.id != t && |v.away| == |r.away| + 1 && v.away[..|r.away|] == r.away && v.away[|r.away|].id != t))
  {
    hide WithoutTile, Age, Outdated;
    var (held, row) := Admit(r.c, n, false);
    AgeJudges(held, row, false);
    AgeWrites(held, row, false);
    OutdatedBy(n, row);
  }

  lemma AgeWrites(c: State, n: Tile, told: bool)
    ensures Age(c, n, told).writing.Keys == c.writing.Keys
  {
  }

  lemma OutdatedBy(n: Tile, row: Tile)
    requires row == n.(at := row.at)
    ensures forall e :: Outdated(e, row, false) == Outdated(e, n, false)
  {
  }

  lemma {:induction false} StoreAllLeaves(c: State, rows: seq<Tile>, k: nat, t: string)
    requires k <= |rows| && forall i :: 0 <= i < |rows| ==> rows[i].id != t
    ensures var r := StoreAll(c, rows, k);
            (t in r.content <==> t in c.content) && (t in c.content ==> r.content[t] == c.content[t])
  {
    hide Store, Outdated;
    if k > 0 {
      StoreAllLeaves(c, rows, k - 1, t);
      StoreJudges(StoreAll(c, rows, k - 1), rows[k - 1], false);
    }
  }

  /** A grid read drops a body exactly when clean, unwritten and stale against a row it lists of
      that tile, and no body of a tile it does not list. */
  lemma ReadDrops(c: State, gid: string, rest: string, tiles: seq<Tile>, t: string)
    requires ListedHere(c, gid, tiles, t)
    ensures var r := PutGrid(c, gid, rest, tiles);
            && (t in r.content ==> t in c.content && r.content[t] == c.content[t])
            && (t in c.content ==>
                  (t !in r.content <==>
                    t !in c.writing && exists i :: 0 <= i < |tiles| && tiles[i].id == t && Outdated(c.content[t], tiles[i], false)))
  {
    hide ReadRows, StoreAll, KeptRows, KeptHolds, Outdated;
    var r := ReadRows(c, gid, tiles, |tiles|);
    ReadJudges(c, gid, tiles, |tiles|, t);
    StoreAllLeaves(Install(r, gid, rest), r.away, |r.away|, t);
  }

  /** A row seen while its tile is written is remembered, told once told. */
  lemma WriteRemembers(c: State, n: Tile, told: bool)
    requires n.id in c.writing
    ensures var r := Age(c, n, told);
            && r.content == c.content && r.writing.Keys == c.writing.Keys
            && r.writing[n.id] == OwnWrite(c.writing[n.id].n, c.writing[n.id].told || told, Some(n))
            && forall t :: t in c.writing && t != n.id ==> r.writing[t] == c.writing[t]
  {
  }

  /** The last end of a tile's writes judges its body by the row then cached, or the last one
      seen, told if any was; an earlier end leaves every body and one write less. */
  lemma EndDrops(c: State, t: string)
    requires Placed(c.grids, c.holds) && t in c.writing
    ensures var r, w := EndWrite(c, t), c.writing[t];
            if w.n > 1 then r.content == c.content && t in r.writing && r.writing[t] == w.(n := w.n - 1)
            else
              && t !in r.writing
              && (forall g :: CachedIn(c.grids, g, t) ==> JudgedAtEnd(c, r, t, c.grids[g].tiles[t], w.told))
              && (!Cached(c.grids, t) && w.last.Some? && w.last.value.id == t ==> JudgedAtEnd(c, r, t, w.last.value, w.told))
              && (!Cached(c.grids, t) && w.last.None? ==> r.content == c.content)
  {
    hide Outdated;
    var w := c.writing[t];
    if w.n <= 1 {
      forall g | CachedIn(c.grids, g, t)
        ensures RowOf(c.grids, t) == Some(c.grids[g].tiles[t])
      {
        RowHome(c.grids, t);
      }
      var freed := c.(writing := c.writing - {t});
      var n := if RowOf(c.grids, t).Some? then RowOf(c.grids, t) else w.last;
      if n.Some? {
        AgeJudges(freed, n.value, w.told);
      }
    }
  }

  ghost predicate JudgedAtEnd(c: State, r: State, t: string, n: Tile, told: bool)
  {
    && (forall x :: x in r.content ==> x in c.content && r.content[x] == c.content[x])
    && (forall x :: x in c.content ==> (x !in r.content <==> x == t && Outdated(c.content[x], n, told)))
  }

  // ---------------------------------------------------------------- bodies filed

  /** A read body is refused over an unsaved edit, over one of a newer version, or when the row
      cached by now names other bytes than the row it was asked under. */
  ghost predicate FetchRefused(c: State, t: string, base: Basis, asked: RowBasis)
  {
    || (t in c.content && (c.content[t].dirty || base.version < c.content[t].base.version))
    || exists g :: CachedIn(c.grids, g, t) &&
         (c.grids[g].tiles[t].stamp != asked.stamp || c.grids[g].tiles[t].blob != if asked.known then asked.blob else 0)
  }

  /** Any other is filed clean, under the version and the row it was read by and a generation of
      its own. */
  lemma FetchFiles(c: State, t: string, data: Bytes, base: Basis, asked: RowBasis)
    requires Placed(c.grids, c.holds)
    ensures PutFetched(c, t, data, base, asked) ==
              if FetchRefused(c, t, base, asked) then c
              else c.(gens := c.gens + 1, content := c.content[t := Entry(data, base, asked, false, c.gens + 1)])
  {
    if RowOf(c.grids, t).Some? {
      RowHome(c.grids, t);
      assert CachedIn(c.grids, RowOf(c.grids, t).value.at.gridId, t);
    }
    forall g | CachedIn(c.grids, g, t) ensures RowOf(c.grids, t) == Some(c.grids[g].tiles[t]) {
      RowHome(c.grids, t);
    }
  }

  /** A save files the row it was answered: over bytes edited since, which stay unsaved, or with
      the saved bytes, clean. A generation outlives a save of the bytes it names. */
  lemma SaveFiles(c: State, row: Tile, data: Bytes)
    ensures var r, t := PutSaved(c, row, data), row.id;
            var since := t in c.content && c.content[t].dirty && c.content[t].data != data;
            && r == c.(content := r.content, gens := r.gens) && r.gens == (if since then c.gens else c.gens + 1)
            && r.content.Keys == c.content.Keys + {t} && (forall x :: x in c.content && x != t ==> r.content[x] == c.content[x])
            && var e := r.content[t];
               && e.dirty == since && e.data == (if since then c.content[t].data else data)
               && e.base.version == row.version && e.base.stamp == e.row.stamp == row.stamp && e.row.blob == row.blob && e.row.known
               && e.gen == if t in c.content && c.content[t].data == e.data then c.content[t].gen else c.gens + 1
  {
  }

  /** So a row that comes after a save drops its body exactly when it is newer than the saved row,
      or names other bytes than it at the same version. */
  lemma SavedThenRow(c: State, row: Tile, data: Bytes, n: Tile, told: bool)
    requires n.id == row.id && row.id !in c.writing
    ensures var s := PutSaved(c, row, data);
            row.id !in Age(s, n, told).content <==>
              && !(row.id in c.content && c.content[row.id].dirty && c.content[row.id].data != data)
              && (n.version > row.version || (n.version == row.version &&
                    if n.stamp != "" then n.stamp != row.stamp else told || n.blob != row.blob))
  {
    SaveFiles(c, row, data);
    AgeJudges(PutSaved(c, row, data), n, told);
  }

  /** An edit is unsaved bytes under a generation of their own, and stays on the version it was
      made over. */
  lemma EditFiles(c: State, t: string, data: Bytes)
    ensures var r := PutEdited(c, t, data);
            && r == c.(content := r.content, gens := c.gens + 1) && r.content.Keys == c.content.Keys + {t}
            && (forall x :: x in c.content && x != t ==> r.content[x] == c.content[x])
            && var e := r.content[t];
               && e.data == data && e.dirty && e.gen == c.gens + 1
               && if t in c.content then e.base == c.content[t].base && e.row == c.content[t].row
                  else e.base.version == 0 && e.base.stamp == "" && !e.row.known
  {
  }

  // ---------------------------------------------------------------- what a write set

  /** A write's answer is taken for what that write sets, and the cached row for all else: a body
      its blob, stamp and name; an address its url; a name its name; the frozen flag; a placement.
      The last two claim no version. */
  lemma AnswerSets(cur: Tile, resp: Tile, w: Wrote)
    ensures var f := Folded(cur, resp, w);
            && f.id == cur.id && f.rest == cur.rest
            && f.version == (if w == WroteFrozen || w == WrotePlacement then cur.version else resp.version)
            && f.blob == (if w == WroteBody then resp.blob else cur.blob)
            && f.stamp == (if w == WroteBody then resp.stamp else cur.stamp)
            && f.altText == (if w == WroteBody || w == WroteName then resp.altText else cur.altText)
            && f.url == (if w == WroteAddress then resp.url else cur.url)
            && f.frozen == (if w == WroteFrozen then resp.frozen else cur.frozen)
            && f.at == (if w == WrotePlacement then resp.at else cur.at)
  {
  }

  /** A write's answer judges its tile's body by the row it makes, or alone where the tile is not
      cached; one that claims an older version than the cached row does nothing. */
  lemma ResponseDrops(c: State, g: string, resp: Tile, w: Wrote)
    requires Filed(c.grids)
    ensures var r := PutWriteResponse(c, g, resp, w);
            if !CachedIn(c.grids, g, resp.id) then Judged(c, r, resp, false)
            else
              var cur := c.grids[g].tiles[resp.id];
              var f := Folded(cur, resp, w);
              if w != WroteFrozen && w != WrotePlacement && resp.version < cur.version then r == c
              else if Older(c, Goes(c, f, false), f) then SameBodies(c, r) else Judged(c, r, f, false)
  {
    hide Store, Admit, Judged, Age, Folded, PutTile, SameBodies;
    if CachedIn(c.grids, g, resp.id) {
      var f := Folded(c.grids[g].tiles[resp.id], resp, w);
      AnswerSets(c.grids[g].tiles[resp.id], resp, w);
      AdmitJudges(c, f, false, false);
      var (held, row) := Admit(c, f, false);
      StoreIsPut(held, row);
    } else {
      AgeJudges(c, resp, false);
    }
  }

  lemma StoreIsPut(c: State, n: Tile)
    ensures n.at.gridId in c.grids ==> Store(c, n, false) == PutTile(c, n.at.gridId, n, false)
  {
  }

  // ---------------------------------------------------------------- counts and holds

  /** A write that begins is one more in flight, and forgets nothing seen by those before it. */
  lemma BeginCounts(c: State, t: string)
    ensures var r := BeginWrite(c, t);
            && r == c.(writing := r.writing) && r.writing.Keys == c.writing.Keys + {t}
            && (forall x :: x in c.writing && x != t ==> r.writing[x] == c.writing[x])
            && (if t in c.writing then r.writing[t] == c.writing[t].(n := c.writing[t].n + 1) else r.writing[t] == OwnWrite(1, false, None))
  {
  }

  /** A move's answer marks its own hold landed, or ends it when another tile answered; a hold that
      is no longer this move's is left alone, and no row is touched. */
  lemma AnswerSettlesHold(c: State, m: Moving, answered: string)
    ensures var r := LandHold(c, m, answered);
            var mine := m.id in c.holds && c.holds[m.id].number == m.number;
            && r == c.(holds := r.holds)
            && (forall t :: t != m.id ==> (t in r.holds <==> t in c.holds) && (t in c.holds ==> r.holds[t] == c.holds[t]))
            && (!mine ==> r == c)
            && (mine && answered != m.id ==> m.id !in r.holds)
            && (mine && answered == m.id ==> m.id in r.holds && r.holds[m.id] == c.holds[m.id].(landed := true))
  {
  }
}
