/** client/cache/cache.go and client/cache/placement.go: what a grid read leaves of a tile it
    lists, of one it does not, and of their holds. */
module ReadLaws {
  import opened Options
  import opened CacheState
  import opened CacheLaws
  import opened BodyLaws

  /** The tile's rows and hold are as they were. */
  ghost predicate Untouched(c: State, r: State, t: string)
  {
    && (forall g :: CachedIn(r.grids, g, t) <==> CachedIn(c.grids, g, t))
    && (forall g :: CachedIn(c.grids, g, t) ==> r.grids[g].tiles[t] == c.grids[g].tiles[t])
    && (t in r.holds <==> t in c.holds) && (t in c.holds ==> r.holds[t] == c.holds[t])
  }

  lemma StoreLeaves(c: State, n: Tile, t: string)
    requires Filed(c.grids) && n.id != t
    ensures Untouched(c, Store(c, n, false), t) && Filed(Store(c, n, false).grids)
  {
    hide Age;
    StoreFiles(c, n);
  }

  lemma StoreFiles(c: State, n: Tile)
    requires Filed(c.grids)
    ensures Filed(Store(c, n, false).grids)
  {
    hide Age;
  }

  lemma {:induction false} StoreAllLeaves(c: State, rows: seq<Tile>, k: nat, t: string)
    requires Filed(c.grids) && k <= |rows| && forall i :: 0 <= i < |rows| ==> rows[i].id != t
    ensures Untouched(c, StoreAll(c, rows, k), t) && Filed(StoreAll(c, rows, k).grids)
  {
    hide Store, Filed;
    if k > 0 {
      StoreAllLeaves(c, rows, k - 1, t);
      StoreLeaves(StoreAll(c, rows, k - 1), rows[k - 1], t);
    }
  }

  predicate Listed(tiles: seq<Tile>, k: nat, t: string)
    requires k <= |tiles|
  {
    exists i :: 0 <= i < k && tiles[i].id == t
  }

  /** Rows of other tiles leave this one's own grid, and its hold, alone. */
  lemma {:induction false} OthersRead(c: State, gid: string, tiles: seq<Tile>, k: nat, t: string)
    requires Filed(c.grids) && k <= |tiles| && !Listed(tiles, k, t)
    ensures var r := ReadRows(c, gid, tiles, k);
            && t !in r.rows && (forall i :: 0 <= i < |r.away| ==> r.away[i].id != t)
            && Filed(r.c.grids) && Untouched(c, r.c, t)
  {
    hide ReadRow, Untouched, Filed;
    if k > 0 {
      assert !Listed(tiles, k - 1, t);
      OthersRead(c, gid, tiles, k - 1, t);
      assert tiles[k - 1].id != t;
      OtherRead(ReadRows(c, gid, tiles, k - 1), gid, tiles[k - 1], t);
      UntouchedOn(c, ReadRows(c, gid, tiles, k - 1).c, ReadRows(c, gid, tiles, k).c, t);
    } else {
      UntouchedSelf(c, t);
    }
  }

  lemma UntouchedSelf(c: State, t: string)
    ensures Untouched(c, c, t)
  {
  }

  lemma UntouchedOn(c: State, d: State, r: State, t: string)
    requires Untouched(c, d, t) && Untouched(d, r, t)
    ensures Untouched(c, r, t)
  {
  }

  lemma OtherRead(r: Reading, gid: string, n: Tile, t: string)
    requires Filed(r.c.grids) && n.id != t && forall i :: 0 <= i < |r.away| ==> r.away[i].id != t
    ensures var v := ReadRow(r, gid, n);
            && (t in v.rows <==> t in r.rows) && (t in r.rows ==> v.rows[t] == r.rows[t])
            && (forall i :: 0 <= i < |v.away| ==> v.away[i].id != t)
            && Filed(v.c.grids) && Untouched(r.c, v.c, t)
  {
    hide Age, WithoutTile, Admit, Filed, Untouched;
    var (held, row) := Admit(r.c, n, false);
    AdmitLeaves(r.c, n, t);
    if row.at.gridId == gid {
      var aged := Age(held, row, false);
      AgeLeaves(held, row, t);
      EvictLeaves(aged, row.id, gid, t);
      UntouchedOn(r.c, held, aged, t);
      UntouchedOn(r.c, aged, Evict(aged, row.id, gid), t);
    }
  }

  lemma AdmitLeaves(c: State, n: Tile, t: string)
    ensures var (held, row) := Admit(c, n, false);
            && row.id == n.id && held == c.(holds := held.holds) && (n.id != t ==> Untouched(c, held, t))
            && (Filed(c.grids) ==> Filed(held.grids))
  {
  }

  lemma AgeLeaves(c: State, n: Tile, t: string)
    ensures Untouched(c, Age(c, n, false), t) && (Filed(c.grids) ==> Filed(Age(c, n, false).grids))
  {
    hide Filed;
  }

  lemma EvictLeaves(c: State, x: string, home: string, t: string)
    requires x != t
    ensures Untouched(c, Evict(c, x, home), t) && (Filed(c.grids) ==> Filed(Evict(c, x, home).grids))
  {
  }

  lemma InstallFiles(r: Reading, gid: string, rest: string)
    requires Filed(r.c.grids) && RowsHere(r.rows, gid)
    ensures Filed(Install(r, gid, rest).grids)
  {
  }

  /** A tile the read does not list stays in the grid exactly when a move that has not landed
      holds it there, row and hold alike; a hold there whose write landed ends with it. */
  lemma UnlistedAfterRead(c: State, gid: string, rest: string, tiles: seq<Tile>, t: string)
    requires Placed(c.grids, c.holds) && !Listed(tiles, |tiles|, t)
    ensures var r := PutGrid(c, gid, rest, tiles);
            var here := t in c.holds && c.holds[t].p.gridId == gid;
            && (CachedIn(r.grids, gid, t) <==> CachedIn(c.grids, gid, t) && here && !c.holds[t].landed)
            && (CachedIn(r.grids, gid, t) ==> r.grids[gid].tiles[t] == c.grids[gid].tiles[t])
            && (forall g :: g != gid ==> (CachedIn(r.grids, g, t) <==> CachedIn(c.grids, g, t)))
            && (t in r.holds <==> t in c.holds && !(here && c.holds[t].landed))
            && (t in r.holds ==> r.holds[t] == c.holds[t])
  {
    hide ReadRows, StoreAll, Age, OneHome, HeldInPlace, Untouched;
    var r := ReadRows(c, gid, tiles, |tiles|);
    OthersRead(c, gid, tiles, |tiles|, t);
    ReadRowsFile(c, gid, tiles, |tiles|);
    InstallFiles(r, gid, rest);
    var i := Install(r, gid, rest);
    StoreAllLeaves(i, r.away, |r.away|, t);
    Leaves(c, r, i, StoreAll(i, r.away, |r.away|), gid, rest, t);
  }

  lemma Leaves(c: State, r: Reading, i: State, v: State, gid: string, rest: string, t: string)
    requires i == Install(r, gid, rest) && Untouched(c, r.c, t) && Untouched(i, v, t) && t !in r.rows
    ensures var here := t in c.holds && c.holds[t].p.gridId == gid;
            && (CachedIn(v.grids, gid, t) <==> CachedIn(c.grids, gid, t) && here && !c.holds[t].landed)
            && (CachedIn(v.grids, gid, t) ==> v.grids[gid].tiles[t] == c.grids[gid].tiles[t])
            && (forall g :: g != gid ==> (CachedIn(v.grids, g, t) <==> CachedIn(c.grids, g, t)))
            && (t in v.holds <==> t in c.holds && !(here && c.holds[t].landed))
            && (t in v.holds ==> v.holds[t] == c.holds[t])
  {
    forall g | g != gid ensures CachedIn(i.grids, g, t) <==> CachedIn(r.c.grids, g, t) {
    }
  }

  lemma {:induction false} ReadRowsFile(c: State, gid: string, tiles: seq<Tile>, k: nat)
    requires k <= |tiles|
    ensures RowsHere(ReadRows(c, gid, tiles, k).rows, gid)
  {
    hide ReadRow, RowsHere;
    if k > 0 {
      ReadRowsFile(c, gid, tiles, k - 1);
      ReadRowFiles(ReadRows(c, gid, tiles, k - 1), gid, tiles[k - 1]);
    } else {
      assert RowsHere(map[], gid) by { NoRowsHere(gid); }
    }
  }

  ghost predicate RowsHere(rows: map<string, Tile>, gid: string)
  {
    forall t :: t in rows ==> rows[t].id == t && rows[t].at.gridId == gid
  }

  lemma NoRowsHere(gid: string)
    ensures RowsHere(map[], gid)
  {
  }

  lemma ReadRowFiles(r: Reading, gid: string, n: Tile)
    requires RowsHere(r.rows, gid)
    ensures RowsHere(ReadRow(r, gid, n).rows, gid)
  {
    hide Age, WithoutTile;
  }

  /** A tile the read lists once, and keeps in this grid, is there as listed but where a move that
      has not landed put it; a hold whose write landed ends, any other stands. */
  lemma ListedAfterRead(c: State, gid: string, rest: string, tiles: seq<Tile>, k: nat)
    requires Placed(c.grids, c.holds) && k < |tiles| && Goes(c, tiles[k], false) == gid
    requires forall i :: 0 <= i < |tiles| && i != k ==> tiles[i].id != tiles[k].id
    ensures var r, n, t := PutGrid(c, gid, rest, tiles), tiles[k], tiles[k].id;
            var held := t in c.holds && !c.holds[t].landed;
            && CachedIn(r.grids, gid, t) && (forall g :: CachedIn(r.grids, g, t) ==> g == gid)
            && r.grids[gid].tiles[t] == (if held then n.(at := c.holds[t].p) else n)
            && (t in r.holds <==> held) && (held ==> r.holds[t] == c.holds[t])
  {
    hide ReadRows, StoreAll, OneHome, HeldInPlace, Untouched;
    var t := tiles[k].id;
    var r := ReadRows(c, gid, tiles, |tiles|);
    assert !Listed(tiles, k, t);
    OthersRead(c, gid, tiles, k, t);
    ThisRead(c, gid, tiles, k);
    LaterRead(c, gid, tiles, k, |tiles|);
    ReadRowsFile(c, gid, tiles, |tiles|);
    InstallFiles(r, gid, rest);
    var i := Install(r, gid, rest);
    StoreAllLeaves(i, r.away, |r.away|, t);
    Arrives(c, r, i, StoreAll(i, r.away, |r.away|), gid, rest, tiles[k]);
  }

  /** What a read has of a tile once its row is in. */
  ghost predicate Has(c: State, r: Reading, gid: string, n: Tile)
  {
    var t := n.id;
    var held := t in c.holds && !c.holds[t].landed;
    && t in r.rows && r.rows[t] == (if held then n.(at := c.holds[t].p) else n)
    && (forall g :: g != gid ==> !CachedIn(r.c.grids, g, t))
    && (t in r.c.holds <==> held) && (held ==> r.c.holds[t] == c.holds[t])
    && (forall i :: 0 <= i < |r.away| ==> r.away[i].id != t)
    && Filed(r.c.grids)
  }

  lemma ThisRead(c: State, gid: string, tiles: seq<Tile>, k: nat)
    requires k < |tiles| && Goes(c, tiles[k], false) == gid
    requires var r, t := ReadRows(c, gid, tiles, k), tiles[k].id;
             Untouched(c, r.c, t) && Filed(r.c.grids) && forall i :: 0 <= i < |r.away| ==> r.away[i].id != t
    ensures Has(c, ReadRows(c, gid, tiles, k + 1), gid, tiles[k])
  {
    hide ReadRow, Untouched, Has, Goes;
    ReadsThis(c, ReadRows(c, gid, tiles, k), gid, tiles[k]);
  }

  lemma ReadsThis(c: State, r: Reading, gid: string, n: Tile)
    requires Goes(c, n, false) == gid && Untouched(c, r.c, n.id) && Filed(r.c.grids)
    requires forall i :: 0 <= i < |r.away| ==> r.away[i].id != n.id
    ensures Has(c, ReadRow(r, gid, n), gid, n)
  {
    hide Age, WithoutTile, Filed;
    var (held, row) := Admit(r.c, n, false);
    assert row.at.gridId == gid;
    AgeLeaves(held, row, n.id);
    Evicted(Age(held, row, false), n.id, gid);
  }

  lemma Evicted(c: State, t: string, home: string)
    ensures forall g :: g != home ==> !CachedIn(Evict(c, t, home).grids, g, t)
    ensures Filed(c.grids) ==> Filed(Evict(c, t, home).grids)
  {
  }

  lemma {:induction false} LaterRead(c: State, gid: string, tiles: seq<Tile>, k: nat, m: nat)
    requires k < m <= |tiles| && Has(c, ReadRows(c, gid, tiles, k + 1), gid, tiles[k])
    requires forall i :: 0 <= i < |tiles| && i != k ==> tiles[i].id != tiles[k].id
    ensures Has(c, ReadRows(c, gid, tiles, m), gid, tiles[k])
    decreases m
  {
    hide ReadRow, Has;
    if m > k + 1 {
      LaterRead(c, gid, tiles, k, m - 1);
      HasOn(c, ReadRows(c, gid, tiles, m - 1), gid, tiles[k], tiles[m - 1]);
    }
  }

  lemma HasOn(c: State, r: Reading, gid: string, n: Tile, o: Tile)
    requires Has(c, r, gid, n) && o.id != n.id
    ensures Has(c, ReadRow(r, gid, o), gid, n)
  {
    hide ReadRow, Filed;
    OtherRead(r, gid, o, n.id);
  }

  lemma Arrives(c: State, r: Reading, i: State, v: State, gid: string, rest: string, n: Tile)
    requires Has(c, r, gid, n) && i == Install(r, gid, rest) && Untouched(i, v, n.id)
    ensures var t := n.id;
            var held := t in c.holds && !c.holds[t].landed;
            && CachedIn(v.grids, gid, t) && (forall g :: CachedIn(v.grids, g, t) ==> g == gid)
            && v.grids[gid].tiles[t] == (if held then n.(at := c.holds[t].p) else n)
            && (t in v.holds <==> held) && (held ==> v.holds[t] == c.holds[t])
  {
    assert CachedIn(i.grids, gid, n.id);
    forall g | CachedIn(i.grids, g, n.id) ensures g == gid {
      assert g != gid ==> CachedIn(r.c.grids, g, n.id);
    }
  }

  /** A tile the read lists once, and a move that has not landed holds in another grid, goes there
      as listed, unless that grid is not cached or has a newer row; it leaves this one. */
  lemma AwayAfterRead(c: State, gid: string, rest: string, tiles: seq<Tile>, k: nat)
    requires Placed(c.grids, c.holds) && k < |tiles| && tiles[k].id in c.holds
    requires !c.holds[tiles[k].id].landed && c.holds[tiles[k].id].p.gridId != gid
    requires forall i :: 0 <= i < |tiles| && i != k ==> tiles[i].id != tiles[k].id
    ensures var r, n, t, h := PutGrid(c, gid, rest, tiles), tiles[k], tiles[k].id, c.holds[tiles[k].id].p.gridId;
            && !CachedIn(r.grids, gid, t) && t in r.holds && r.holds[t] == c.holds[t]
            && (if h !in c.grids then forall g :: !CachedIn(r.grids, g, t)
                else
                  && CachedIn(r.grids, h, t) && (forall g :: CachedIn(r.grids, g, t) ==> g == h)
                  && r.grids[h].tiles[t] ==
                       if CachedIn(c.grids, h, t) && n.version < c.grids[h].tiles[t].version then c.grids[h].tiles[t]
                       else n.(at := c.holds[t].p))
  {
    hide ReadRows, StoreAll, Untouched, HeldInPlace;
    var t := tiles[k].id;
    var r := ReadRows(c, gid, tiles, |tiles|);
    assert !Listed(tiles, k, t);
    OthersRead(c, gid, tiles, k, t);
    OwedAway(c, gid, tiles, k);
    LaterAway(c, gid, tiles, k, |tiles|);
    ReadRowsFile(c, gid, tiles, |tiles|);
    InstallFiles(r, gid, rest);
    var i := Install(r, gid, rest);
    var m :| 0 <= m < |r.away| && r.away[m] == tiles[k].(at := c.holds[t].p) &&
      forall j :: 0 <= j < |r.away| && j != m ==> r.away[j].id != t;
    StoreSome(i, r.away, m, t);
    StoreRest(i, r.away, m, |r.away|, t);
    StoreOne(i, r.away, m);
    ReadKeys(c, gid, tiles, |tiles|);
    AwayLands(c, r, i, StoreAll(i, r.away, m), StoreAll(i, r.away, m + 1), StoreAll(i, r.away, |r.away|), gid, rest, tiles[k]);
  }

  /** What a read has of a tile once its row is set aside. */
  ghost predicate Aside(c: State, r: Reading, n: Tile)
    requires n.id in c.holds
  {
    && n.id !in r.rows && Filed(r.c.grids) && Untouched(c, r.c, n.id)
    && exists m :: 0 <= m < |r.away| && r.away[m] == n.(at := c.holds[n.id].p) &&
         forall j :: 0 <= j < |r.away| && j != m ==> r.away[j].id != n.id
  }

  lemma OwedAway(c: State, gid: string, tiles: seq<Tile>, k: nat)
    requires k < |tiles| && tiles[k].id in c.holds && !c.holds[tiles[k].id].landed && c.holds[tiles[k].id].p.gridId != gid
    requires var r, t := ReadRows(c, gid, tiles, k), tiles[k].id;
             t !in r.rows && Untouched(c, r.c, t) && Filed(r.c.grids) && forall i :: 0 <= i < |r.away| ==> r.away[i].id != t
    ensures Aside(c, ReadRows(c, gid, tiles, k + 1), tiles[k])
  {
    hide Filed;
    var r, v := ReadRows(c, gid, tiles, k), ReadRows(c, gid, tiles, k + 1);
    assert v.away == r.away + [tiles[k].(at := c.holds[tiles[k].id].p)];
    assert v.away[|r.away|] == tiles[k].(at := c.holds[tiles[k].id].p);
  }

  lemma {:induction false} LaterAway(c: State, gid: string, tiles: seq<Tile>, k: nat, m: nat)
    requires k < m <= |tiles| && tiles[k].id in c.holds && Aside(c, ReadRows(c, gid, tiles, k + 1), tiles[k])
    requires forall i :: 0 <= i < |tiles| && i != k ==> tiles[i].id != tiles[k].id
    ensures Aside(c, ReadRows(c, gid, tiles, m), tiles[k])
    decreases m
  {
    hide ReadRow, Aside;
    if m > k + 1 {
      LaterAway(c, gid, tiles, k, m - 1);
      AsideOn(c, ReadRows(c, gid, tiles, m - 1), gid, tiles[k], tiles[m - 1]);
    }
  }

  lemma AsideOn(c: State, r: Reading, gid: string, n: Tile, o: Tile)
    requires n.id in c.holds && Aside(c, r, n) && o.id != n.id
    ensures Aside(c, ReadRow(r, gid, o), n)
  {
    hide Age, WithoutTile, Admit, Filed, Untouched;
    var (held, row) := Admit(r.c, o, false);
    AdmitLeaves(r.c, o, n.id);
    var m :| 0 <= m < |r.away| && r.away[m] == n.(at := c.holds[n.id].p) &&
      forall j :: 0 <= j < |r.away| && j != m ==> r.away[j].id != n.id;
    var v := ReadRow(r, gid, o);
    UntouchedOn(c, r.c, held, n.id);
    if row.at.gridId == gid {
      var aged := Age(held, row, false);
      AgeLeaves(held, row, n.id);
      EvictLeaves(aged, row.id, gid, n.id);
      UntouchedOn(c, held, aged, n.id);
      UntouchedOn(c, aged, Evict(aged, row.id, gid), n.id);
      assert v.away[m] == r.away[m];
    } else {
      assert v.away == r.away + [row] && v.away[m] == r.away[m];
    }
  }

  lemma StoreSome(c: State, rows: seq<Tile>, m: nat, t: string)
    requires Filed(c.grids) && m < |rows| && forall j :: 0 <= j < m ==> rows[j].id != t
    ensures Untouched(c, StoreAll(c, rows, m), t) && Filed(StoreAll(c, rows, m).grids)
    ensures StoreAll(c, rows, m).grids.Keys == c.grids.Keys
  {
    StoreFirst(c, rows, m, t);
  }

  lemma {:induction false} StoreFirst(c: State, rows: seq<Tile>, k: nat, t: string)
    requires Filed(c.grids) && k <= |rows| && forall j :: 0 <= j < k ==> rows[j].id != t
    ensures Untouched(c, StoreAll(c, rows, k), t) && Filed(StoreAll(c, rows, k).grids)
    ensures StoreAll(c, rows, k).grids.Keys == c.grids.Keys
  {
    hide Store, Filed, Untouched;
    if k > 0 {
      StoreFirst(c, rows, k - 1, t);
      StoreLeaves(StoreAll(c, rows, k - 1), rows[k - 1], t);
      StoreKeys(StoreAll(c, rows, k - 1), rows[k - 1]);
      UntouchedOn(c, StoreAll(c, rows, k - 1), StoreAll(c, rows, k), t);
    } else {
      UntouchedSelf(c, t);
    }
  }

  lemma StoreKeys(c: State, n: Tile)
    ensures Store(c, n, false).grids.Keys == c.grids.Keys
  {
    hide Age;
  }

  lemma {:induction false} StoreRest(c: State, rows: seq<Tile>, m: nat, k: nat, t: string)
    requires m < k <= |rows| && Filed(StoreAll(c, rows, m).grids)
    requires forall j :: 0 <= j < |rows| && j != m ==> rows[j].id != t
    ensures Untouched(StoreAll(c, rows, m + 1), StoreAll(c, rows, k), t) && Filed(StoreAll(c, rows, k).grids)
    decreases k
  {
    hide Store, Filed, Untouched;
    if k > m + 1 {
      StoreRest(c, rows, m, k - 1, t);
      StoreLeaves(StoreAll(c, rows, k - 1), rows[k - 1], t);
      UntouchedOn(StoreAll(c, rows, m + 1), StoreAll(c, rows, k - 1), StoreAll(c, rows, k), t);
    } else {
      UntouchedSelf(StoreAll(c, rows, m + 1), t);
      StoreFiles(StoreAll(c, rows, m), rows[m]);
    }
  }

  lemma {:induction false} ReadKeys(c: State, gid: string, tiles: seq<Tile>, k: nat)
    requires k <= |tiles|
    ensures ReadRows(c, gid, tiles, k).c.grids.Keys == c.grids.Keys
  {
    hide Age;
    if k > 0 {
      ReadKeys(c, gid, tiles, k - 1);
    }
  }

  lemma StoreOne(c: State, rows: seq<Tile>, m: nat)
    requires m < |rows|
    ensures StoreAll(c, rows, m + 1) == Store(StoreAll(c, rows, m), rows[m], false)
  {
  }

  /** Where a row's tile is once it has been stored. */
  lemma StorePlaces(c: State, n: Tile)
    requires Filed(c.grids)
    ensures var r, t, h := Store(c, n, false), n.id, n.at.gridId;
            && r.holds == c.holds
            && (if h !in c.grids then forall g :: CachedIn(r.grids, g, t) ==> false
                else if CachedIn(c.grids, h, t) && n.version < c.grids[h].tiles[t].version then r == c
                else CachedIn(r.grids, h, t) && r.grids[h].tiles[t] == n && forall g :: CachedIn(r.grids, g, t) ==> g == h)
  {
    hide Age;
  }

  /** Before what was set aside is stored, the tile is out of the grid read and where it was. */
  lemma AsideInstalled(c: State, r: Reading, i: State, gid: string, rest: string, t: string)
    requires t in c.holds && !c.holds[t].landed && c.holds[t].p.gridId != gid
    requires Untouched(c, r.c, t) && t !in r.rows && r.c.grids.Keys == c.grids.Keys && i == Install(r, gid, rest)
    ensures !CachedIn(i.grids, gid, t) && t in i.holds && i.holds[t] == c.holds[t] && i.grids.Keys == c.grids.Keys + {gid}
    ensures forall g :: g != gid ==> (CachedIn(i.grids, g, t) <==> CachedIn(c.grids, g, t))
    ensures forall g :: g != gid && CachedIn(c.grids, g, t) ==> i.grids[g].tiles[t] == c.grids[g].tiles[t]
  {
  }

  lemma AwayLands(c: State, r: Reading, i: State, a: State, b: State, v: State, gid: string, rest: string, n: Tile)
    requires OneHome(c.grids) && Filed(a.grids) && n.id in c.holds && !c.holds[n.id].landed && c.holds[n.id].p.gridId != gid
    requires Untouched(c, r.c, n.id) && n.id !in r.rows && r.c.grids.Keys == c.grids.Keys && i == Install(r, gid, rest)
    requires Untouched(i, a, n.id) && a.grids.Keys == i.grids.Keys && b == Store(a, n.(at := c.holds[n.id].p), false)
    requires Untouched(b, v, n.id)
    ensures var t, h := n.id, c.holds[n.id].p.gridId;
            && !CachedIn(v.grids, gid, t) && t in v.holds && v.holds[t] == c.holds[t]
            && (if h !in c.grids then forall g :: !CachedIn(v.grids, g, t)
                else
                  && CachedIn(v.grids, h, t) && (forall g :: CachedIn(v.grids, g, t) ==> g == h)
                  && v.grids[h].tiles[t] ==
                       if CachedIn(c.grids, h, t) && n.version < c.grids[h].tiles[t].version then c.grids[h].tiles[t]
                       else n.(at := c.holds[t].p))
  {
    hide Store, Install, Filed;
    var t, h := n.id, c.holds[n.id].p.gridId;
    AsideInstalled(c, r, i, gid, rest, t);
    StorePlaces(a, n.(at := c.holds[t].p));
    assert forall g :: g != gid ==> (CachedIn(a.grids, g, t) <==> CachedIn(c.grids, g, t));
  }
}
