/** The fetch and event glue of client/wasm/main.go: the reads and the cache it drives, proved
    to take GridSync's steps. Where each read stands is the goroutines', so a world's phases are
    not seen here. */
module GridFetch {
  import opened Options
  import C = CacheState
  import Cache
  import I = Inflight
  import G = GridSync

  class App {
    const cache: Cache.Store
    const fetches: I.Reads

    /** The reads and the cache are this world's. */
    ghost predicate Shows(w: G.World)
      reads cache, fetches, fetches.claims.Values
    {
      && cache.Valid() && fetches.Valid() && cache.Sees() == w.client
      && fetches.latches.refused + fetches.latches.unreachable == w.latched
      && fetches.claims.Keys == w.claims.Keys
      && forall g :: g in w.claims ==> fetches.claims[g].owed == w.claims[g].owed
    }

    constructor ()
      ensures Shows(G.START) && fresh(cache) && fresh(fetches)
    {
      cache := new Cache.Store();
      fetches := new I.Reads();
    }

    lemma SameShown(w: G.World, v: G.World)
      requires Shows(w) && v.client == w.client && v.latched == w.latched && v.claims == w.claims
      ensures Shows(v)
    {
    }

    /** Loads a grid in the background, deduped per id; asks says a read is to be sent. */
    method FetchGrid(id: string, ghost w: G.World) returns (asks: bool)
      requires Shows(w)
      modifies fetches`claims
      ensures Shows(G.FetchGrid(w, id))
      ensures asks <==> id !in w.claims && id in G.FetchGrid(w, id).claims
      ensures forall g :: g in old(fetches.claims) ==> g in fetches.claims && fetches.claims[g] == old(fetches.claims)[g]
      ensures forall g :: g in fetches.claims && g !in old(fetches.claims) ==> fresh(fetches.claims[g])
    {
      if id == "" {
        return false;
      }
      var c;
      c, asks := fetches.Join(id);
    }

    /** The event arm: fold it in, owe, clear the latch, fetch. */
    method Receive(e: C.Event, ghost w: G.World)
      requires Shows(w)
      modifies cache, fetches, fetches.claims.Values`owed
      ensures Shows(G.Receive(w, e))
    {
      hide C.Apply;
      var shows := cache.Apply(e);
      ghost var v := w.(client := C.Apply(w.client, e));
      assert Shows(v);
      match e {
        case TileChanged(n, _) => Change(n.at.gridId, v);
        case TileRemoved(g, _) => Change(g, v);
        case SelectionChanged(g) => Change(g, v);
        case GridChanged(g) =>
          Change(g, v);
          var asks := FetchGrid(g, G.Change(v, g));
      }
    }

    method Change(g: string, ghost w: G.World)
      requires Shows(w)
      modifies fetches`latches, fetches.claims.Values`owed
      ensures Shows(G.Change(w, g))
    {
      fetches.Change(g);
    }

    /** A read's answer is stored and settles it; a failure latches. A read its link cancelled
        has no claim left to land. */
    method Land(id: string, rest: string, rows: Option<seq<C.Tile>>, verdict: I.Verdict, ghost w: G.World)
      requires Shows(w) && id in w.claims
      requires verdict != I.Abandoned && (verdict == I.Answered <==> rows.Some?)
      modifies cache, fetches`latches
      ensures Shows(G.LandRead(w, id, rest, rows))
    {
      hide C.PutGrid, C.Placed, G.Wronged;
      fetches.Settle(id, verdict);
      if rows.Some? {
        cache.PutGrid(id, rest, rows.value);
      }
    }

    /** The read's claim is released, and an owed read asked again. */
    method Done(id: string, c: I.Claim, ghost w: G.World) returns (asks: bool)
      requires Shows(w) && id in w.claims && fetches.claims[id] == c
      modifies fetches`claims, c`cancelled, c`ended
      ensures Shows(G.DoneRead(w, id))
    {
      var owed := fetches.Release(id, c);
      asks := false;
      if owed {
        asks := FetchGrid(id, w.(claims := w.claims - {id}));
      }
    }

    /** The kick after a gap: every latch is cleared and asked again, every read in flight
        cancelled, and each of those grids and each one cached asked for anew. */
    method RetryKick(ghost w: G.World)
      requires Shows(w)
      modifies fetches, fetches.claims.Values`cancelled
      ensures Shows(G.Resync(w))
    {
      hide Asked, Shows;
      var latched := ClearAll(w);
      ghost var clear, none := w.(latched := {}), w.(latched := {}, claims := map[]);
      FetchAll(latched, clear);
      AskedKeys(clear, latched);
      var stuck := CancelAll(Asked(clear, latched));
      FetchAll(stuck + cache.grids.Keys, none);
      Anew(w, none, stuck + cache.grids.Keys);
      SameShown(Asked(none, stuck + cache.grids.Keys), G.Resync(w));
    }

    method ClearAll(ghost w: G.World) returns (keys: set<string>)
      requires Shows(w)
      modifies fetches`latches
      ensures Shows(w.(latched := {})) && keys == w.latched && cache.grids == w.client.grids
    {
      keys := fetches.ClearIf(_ => true);
    }

    method CancelAll(ghost w: G.World) returns (keys: set<string>)
      requires Shows(w)
      modifies fetches`claims, fetches.claims.Values`cancelled
      ensures Shows(w.(claims := map[])) && keys == w.claims.Keys
    {
      hide I.Sound;
      keys := fetches.CancelIf(_ => true);
      assert fetches.claims == map[];
    }

    method FetchAll(ids: set<string>, ghost w: G.World)
      requires Shows(w) && w.latched == {}
      modifies fetches`claims
      ensures Shows(Asked(w, ids))
      ensures forall g :: g in old(fetches.claims) ==> g in fetches.claims && fetches.claims[g] == old(fetches.claims)[g]
      ensures forall g :: g in fetches.claims && g !in old(fetches.claims) ==> fresh(fetches.claims[g])
    {
      hide Shows, Asked, G.FetchGrid;
      var todo := ids;
      assert ids - todo == {};
      AskedNone(w);
      while todo != {}
        invariant todo <= ids && Shows(Asked(w, ids - todo))
        invariant forall g :: g in old(fetches.claims) ==> g in fetches.claims && fetches.claims[g] == old(fetches.claims)[g]
        invariant forall g :: g in fetches.claims && g !in old(fetches.claims) ==> fresh(fetches.claims[g])
        decreases |todo|
      {
        var id :| id in todo;
        AskedMore(w, ids - todo, id);
        assert ids - todo + {id} == ids - (todo - {id});
        var asks := FetchGrid(id, Asked(w, ids - todo));
        todo := todo - {id};
      }
      assert ids - todo == ids;
    }
  }

  /** These grids asked for where no read is in flight. */
  ghost function Asked(w: G.World, ids: set<string>): G.World
  {
    w.(claims := map g | g in w.claims.Keys + ids && (g in w.claims || g != "") ::
      if g in w.claims then w.claims[g] else G.Read(G.Asked, false))
  }

  lemma AskedNone(w: G.World)
    ensures Asked(w, {}) == w
  {
    assert Asked(w, {}).claims == w.claims;
  }

  lemma AskedMore(w: G.World, ids: set<string>, id: string)
    requires w.latched == {}
    ensures G.FetchGrid(Asked(w, ids), id) == Asked(w, ids + {id})
    ensures Asked(w, ids).latched == {}
  {
    assert G.FetchGrid(Asked(w, ids), id).claims == Asked(w, ids + {id}).claims;
  }

  lemma AskedKeys(w: G.World, ids: set<string>)
    ensures Asked(w, ids).claims.Keys == w.claims.Keys + (ids - {""})
    ensures Asked(w, ids) == w.(claims := Asked(w, ids).claims)
  {
  }

  /** Asked for from nothing in flight, these grids are a resync's. */
  lemma Anew(w: G.World, none: G.World, ids: set<string>)
    requires none == w.(latched := {}, claims := map[])
    requires ids - {""} == w.claims.Keys + w.latched + w.client.grids.Keys - {""}
    ensures Asked(none, ids) == G.Resync(w).(behind := w.behind, early := w.early)
  {
    var a, r := Asked(none, ids).claims, G.Resync(w).claims;
    forall g ensures g in a <==> g in r {
      assert g in ids - {""} <==> g in ids && g != "";
      assert g in w.claims.Keys + w.latched + w.client.grids.Keys - {""} <==> (g in w.claims || g in w.latched || g in w.client.grids) && g != "";
    }
    assert a == r;
  }
}
