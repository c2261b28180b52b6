/** client/rasterprev/rasterprev.go and client/resload/resload.go: rasters by tile and width,
    loaded asynchronously and revoked by hand. A handle's id stands for the object; documents
    and error notices are not part of this model. */
module RasterCache {
  import opened Options

  /** A raster's identity. */
  datatype Key = Key(tile: string, bytes: nat, bucket: int, org: bool, theme: string)

  datatype Slot = Slot(tile: string, bucket: int)

  datatype Handle = Handle(id: nat, truthy: bool)

  datatype Entry = Entry(res: Option<Handle>, ident: Key, failed: bool, failIdent: Key, gen: nat,
    loading: Key, inFlight: bool, prev: Option<Handle>, prevKey: Key)

  const NOKEY: Key := Key("", 0, 0, false, "")
  const BLANK: Entry := Entry(None, NOKEY, false, NOKEY, 0, NOKEY, false, None, NOKEY)

  function SlotOf(k: Key): Slot
  {
    Slot(k.tile, k.bucket)
  }

  predicate Usable(h: Option<Handle>)
  {
    h.Some? && h.value.truthy
  }

  predicate Ready(e: Entry)
  {
    Usable(e.res)
  }

  predicate OnlyBytesDiffer(a: Key, b: Key)
  {
    a.(bytes := b.bytes) == b
  }

  /** Another width of the same document. */
  predicate OnlyBucketDiffers(a: Key, b: Key)
  {
    a.(bucket := b.bucket) == b
  }

  function Abs(x: int): (d: int)
    ensures d >= 0 && (d == x || d == -x)
  {
    if x < 0 then -x else x
  }

  predicate Closer(a: int, b: int, want: int)
  {
    Abs(a - want) < Abs(b - want) || (Abs(a - want) == Abs(b - want) && a < b)
  }

  // ---------------------------------------------------------------- who owns a handle

  /** A place that can own a handle. */
  datatype Place = Place(slot: Slot, isPrev: bool)

  type Entries = map<Slot, Entry>

  function At(entries: Entries, p: Place): Option<Handle>
  {
    if p.slot !in entries then None
    else if p.isPrev then entries[p.slot].prev else entries[p.slot].res
  }

  /** The usable handle at a place. */
  predicate Owns(entries: Entries, p: Place, id: nat)
  {
    Usable(At(entries, p)) && At(entries, p).value.id == id
  }

  ghost predicate Owned(entries: Entries, id: nat)
  {
    exists p :: Owns(entries, p, id)
  }

  /** Every usable handle ever delivered is owned at exactly one place, or revoked: never both
      and never neither. */
  ghost predicate Accounted(entries: Entries, delivered: set<nat>, revoked: set<nat>)
  {
    && revoked <= delivered
    && (forall id :: id in delivered && id !in revoked ==> Owned(entries, id))
    && (forall p, id :: Owns(entries, p, id) ==> id in delivered && id !in revoked)
    && (forall p, q, id :: Owns(entries, p, id) && Owns(entries, q, id) ==> p == q)
  }

  /** An entry answers for the key of its slot and its newest load, shows what was made for
      that key, and keeps the picture before it only while the load is out. */
  ghost predicate EntryOk(s: Slot, e: Entry, loads: map<nat, Key>, made: map<nat, Key>)
  {
    && SlotOf(e.ident) == s && e.gen in loads && loads[e.gen] == e.ident
    && (Ready(e) ==> e.res.value.id in made && made[e.res.value.id] == e.ident)
    && (e.prev.Some? ==>
          && e.prev.value.truthy && e.inFlight && e.loading == e.ident
          && e.prev.value.id in made && made[e.prev.value.id] == e.prevKey && OnlyBytesDiffer(e.prevKey, e.ident))
  }

  /** No two entries wait for one load. */
  ghost predicate OneLoadEach(entries: Entries)
  {
    forall s, t :: s in entries && t in entries && entries[s].gen == entries[t].gen ==> s == t
  }

  /** The very document, at this width or another, or its tile's other bytes at this width. */
  predicate OfDocument(m: Key, k: Key)
  {
    m.tile == k.tile && m.org == k.org && m.theme == k.theme && (m.bytes == k.bytes || m.bucket == k.bucket)
  }

  /** The slot answers for k and waits for it, keeping only a picture of the document's other
      bytes: the one it showed, or else the one it kept already. */
  predicate Started(was: Entry, e: Entry, k: Key)
  {
    && e.ident == e.loading == k && e.inFlight && !e.failed && e.res.None?
    && (if Ready(was) && was.ident.(bytes := k.bytes) == k then e.prev == was.res && e.prevKey == was.ident
        else if was.prev.Some? && was.prevKey.(bytes := k.bytes) == k then e.prev == was.prev && e.prevKey == was.prevKey
        else e.prev.None?)
  }

  class Cache {
    var entries: Entries
    /** Process-wide: a generation is never given twice. */
    var nextGen: nat

    /** The loads begun, by generation; the handles delivered and revoked; and what each was
        made for. */
    ghost var loads: map<nat, Key>
    ghost var delivered: set<nat>
    ghost var revoked: set<nat>
    ghost var made: map<nat, Key>

    ghost predicate Valid()
      reads this
    {
      && Accounted(entries, delivered, revoked) && OneLoadEach(entries)
      && (forall s :: s in entries ==> EntryOk(s, entries[s], loads, made))
      && (forall g :: g in loads ==> 1 <= g <= nextGen)
    }

    constructor ()
      ensures Valid() && entries == map[] && delivered == {} && loads == map[]
    {
      entries, nextGen := map[], 0;
      loads, delivered, revoked, made := map[], {}, {}, map[];
    }

    /** Revokes a place's handle and forgets it. */
    method Clear(p: Place)
      requires p.slot in entries && Accounted(entries, delivered, revoked)
      modifies this`entries, this`revoked
      ensures Accounted(entries, delivered, revoked)
      ensures entries == Cleared(old(entries), p) && old(revoked) <= revoked
    {
      ghost var was := entries;
      var h := if p.isPrev then entries[p.slot].prev else entries[p.slot].res;
      if h.Some? && h.value.truthy {
        revoked := revoked + {h.value.id};
      }
      if p.isPrev {
        entries := entries[p.slot := entries[p.slot].(prev := None)];
      } else {
        entries := entries[p.slot := entries[p.slot].(res := None)];
      }
      ClearAccounts(was, p, delivered, old(revoked));
    }

    /** Everything a slot holds is revoked and the slot forgotten. */
    method Forget(s: Slot)
      requires Valid() && s in entries
      modifies this`entries, this`revoked
      ensures Valid() && entries == old(entries) - {s} && old(revoked) <= revoked
    {
      hide Accounted, EntryOk, OneLoadEach;
      ghost var was := entries;
      Clear(Place(s, false));
      Clear(Place(s, true));
      EmptyAccounts(entries, s, delivered, revoked);
      entries := entries - {s};
      FewerLoads(was, entries);
    }

    /** A tile's rasters are released. */
    method Drop(tile: string)
      requires Valid()
      modifies this`entries, this`revoked
      ensures Valid()
      ensures forall s :: s in entries <==> s in old(entries) && s.tile != tile
      ensures forall s :: s in entries ==> entries[s] == old(entries)[s]
    {
      hide Accounted, EntryOk, OneLoadEach;
      ghost var was := entries;
      var todo := entries.Keys;
      while todo != {}
        invariant todo <= was.Keys && Valid()
        invariant forall s :: s in entries <==> s in was && (s in todo || s.tile != tile)
        invariant forall s :: s in entries ==> entries[s] == was[s]
        decreases |todo|
      {
        var s :| s in todo;
        todo := todo - {s};
        if s.tile == tile {
          Forget(s);
        }
      }
    }

    /** A ready raster of k's document at another width. */
    predicate Wide(s: Slot, k: Key)
      reads this
    {
      && s in entries && Ready(entries[s])
      && var m := entries[s].ident;
         m.tile == k.tile && m.bytes == k.bytes && m.org == k.org && m.theme == k.theme
    }

    /** What stands in for k: of the ready rasters of its document the nearest in width, the
        narrower of two as near; with none, the picture k's slot held before while k's load is
        out; and otherwise nothing. */
    ghost predicate StandsIn(k: Key, r: Option<Handle>, width: int)
      reads this
    {
      if exists s :: Wide(s, k) then
        exists s :: Wide(s, k) && r == entries[s].res && width == s.bucket && forall t :: Wide(t, k) ==>
          Abs(width - k.bucket) < Abs(t.bucket - k.bucket) || (Abs(width - k.bucket) == Abs(t.bucket - k.bucket) && width <= t.bucket)
      else
        var s := SlotOf(k);
        if s in entries && entries[s].prev.Some? && entries[s].inFlight && entries[s].loading == k then
          r == entries[s].prev && width == entries[s].prevKey.bucket
        else r == None
    }

    lemma WideIs(s: Slot, k: Key)
      requires Valid()
      ensures Wide(s, k) <==> s in entries && Ready(entries[s]) && OnlyBucketDiffers(entries[s].ident, k)
      ensures Wide(s, k) ==> entries[s].ident.bucket == s.bucket
    {
    }

    /** The ready raster nearest k's width among those identical in all else, the narrower
        winning a tie, or else the picture k's own slot held before k. What is answered was
        made for k but for its width, or for other bytes of the same document; it is owned,
        and so not revoked. */
    method StandIn(k: Key) returns (r: Option<Handle>, width: int)
      requires Valid()
      ensures r.Some? ==>
                && r.value.truthy && r.value.id in delivered && r.value.id !in revoked
                && r.value.id in made && made[r.value.id].bucket == width
                && OfDocument(made[r.value.id], k)
      ensures StandsIn(k, r, width)
    {
      hide Accounted, EntryOk, OneLoadEach, OnlyBucketDiffers, Closer, StandsIn, Wide;
      var best: Option<Slot> := None;
      var todo := entries.Keys;
      WideIn(k);
      while todo != {}
        invariant todo <= entries.Keys
        invariant best.Some? ==> Wide(best.value, k)
        invariant forall s :: Wide(s, k) && s !in todo ==> best.Some? && !Closer(s.bucket, best.value.bucket, k.bucket)
        decreases |todo|
      {
        var s :| s in todo;
        todo := todo - {s};
        WideIs(s, k);
        if best.Some? { WideIs(best.value, k); }
        var e := entries[s];
        if OnlyBucketDiffers(e.ident, k) && Ready(e) {
          if best.None? || Closer(e.ident.bucket, entries[best.value].ident.bucket, k.bucket) {
            NearerStill(k, best, s, todo);
            best := Some(s);
          }
        }
      }
      if best.Some? {
        NearestStands(k, best.value);
        return entries[best.value].res, entries[best.value].ident.bucket;
      }
      var s := SlotOf(k);
      PrevStands(k);
      if s in entries && entries[s].prev.Some? && entries[s].inFlight && entries[s].loading == k {
        return entries[s].prev, entries[s].prevKey.bucket;
      }
      return None, 0;
    }

    lemma WideIn(k: Key)
      ensures forall s :: Wide(s, k) ==> s in entries
    {
    }

    /** A nearer one yields to none that the last best did not yield to. */
    lemma NearerStill(k: Key, best: Option<Slot>, s: Slot, todo: set<Slot>)
      requires best.None? || Closer(s.bucket, best.value.bucket, k.bucket)
      requires forall t :: Wide(t, k) && t !in todo && t != s ==> best.Some? && !Closer(t.bucket, best.value.bucket, k.bucket)
      ensures forall t :: Wide(t, k) && t !in todo ==> !Closer(t.bucket, s.bucket, k.bucket)
    {
      hide Wide;
    }

    lemma NearestStands(k: Key, s: Slot)
      requires Valid() && Wide(s, k) && forall t :: Wide(t, k) ==> !Closer(t.bucket, s.bucket, k.bucket)
      ensures s in entries && Ready(entries[s]) && entries[s].ident.bucket == s.bucket
      ensures StandsIn(k, entries[s].res, s.bucket)
      ensures var h := entries[s].res.value;
              h.id in delivered && h.id !in revoked && h.id in made && made[h.id].bucket == s.bucket && OfDocument(made[h.id], k)
    {
      hide Accounted, OneLoadEach;
      assert EntryOk(s, entries[s], loads, made);
      OwnedAt(Place(s, false));
    }

    lemma PrevStands(k: Key)
      requires Valid()
      ensures var s := SlotOf(k);
              s in entries && entries[s].prev.Some? && entries[s].inFlight && entries[s].loading == k ==>
                var h := entries[s].prev.value;
                && h.truthy && h.id in delivered && h.id !in revoked && h.id in made
                && made[h.id].bucket == entries[s].prevKey.bucket && OfDocument(made[h.id], k)
      ensures (forall s :: !Wide(s, k)) ==>
                var s := SlotOf(k);
                if s in entries && entries[s].prev.Some? && entries[s].inFlight && entries[s].loading == k
                then StandsIn(k, entries[s].prev, entries[s].prevKey.bucket) else StandsIn(k, None, 0)
    {
      hide Accounted, OneLoadEach;
      var s := SlotOf(k);
      if s in entries && entries[s].prev.Some? && entries[s].inFlight && entries[s].loading == k {
        assert EntryOk(s, entries[s], loads, made);
        OwnedAt(Place(s, true));
      }
    }

    /** All of the cache's promises but what a slot's own entry answers for. */
    ghost predicate ValidBut(s: Slot)
      reads this
    {
      && Accounted(entries, delivered, revoked) && OneLoadEach(entries)
      && (forall t :: t in entries && t != s ==> EntryOk(t, entries[t], loads, made))
      && (forall g :: g in loads ==> 1 <= g <= nextGen)
    }

    /** Other widths whose bytes moved on are let go. */
    method LetGo(k: Key)
      requires Valid()
      modifies this`entries, this`revoked
      ensures Valid()
      ensures forall s :: s in entries <==>
                s in old(entries) && (s == SlotOf(k) || s.tile != k.tile || old(entries)[s].ident.bytes == k.bytes)
      ensures forall s :: s in entries ==> entries[s] == old(entries)[s]
    {
      hide Accounted, EntryOk, OneLoadEach;
      ghost var was := entries;
      var todo := entries.Keys;
      while todo != {}
        invariant todo <= was.Keys && Valid()
        invariant forall s :: s in entries <==>
                    s in was && (s in todo || s == SlotOf(k) || s.tile != k.tile || was[s].ident.bytes == k.bytes)
        invariant forall s :: s in entries ==> entries[s] == was[s]
        decreases |todo|
      {
        var s :| s in todo;
        todo := todo - {s};
        if s != SlotOf(k) && s.tile == k.tile && entries[s].ident.bytes != k.bytes {
          Forget(s);
        }
      }
    }

    /** The slot's last picture of the same document stands in until the new one lands or
        fails; any other is let go. */
    method Retain(k: Key)
      requires ValidBut(SlotOf(k)) && SlotOf(k) in entries
      modifies this`entries, this`revoked
      ensures ValidBut(SlotOf(k))
      ensures entries == old(entries)[SlotOf(k) := Retained(old(entries)[SlotOf(k)], k)]
    {
      hide Accounted, EntryOk, OneLoadEach;
      var s := SlotOf(k);
      ghost var was := entries;
      if Ready(entries[s]) && OnlyBytesDiffer(entries[s].ident, k) {
        Clear(Place(s, true));
        MoveAccounts(entries, s, delivered, revoked);
        var e := entries[s];
        entries := entries[s := e.(prev := e.res, prevKey := e.ident, res := None)];
      } else if entries[s].prev.Some? && OnlyBytesDiffer(entries[s].prevKey, k) {
        assert entries[s := entries[s]] == entries;
      } else {
        Clear(Place(s, true));
      }
      FewerLoads(was, entries);
    }

    /** The slot answers for k from here, under a load of its own. */
    method Begin(k: Key) returns (gen: nat)
      requires ValidBut(SlotOf(k)) && SlotOf(k) in entries
      requires entries[SlotOf(k)].prev.Some? ==>
                 var e := entries[SlotOf(k)];
                 e.prev.value.truthy && e.prev.value.id in made && made[e.prev.value.id] == e.prevKey && OnlyBytesDiffer(e.prevKey, k)
      modifies this`entries, this`revoked, this`nextGen, this`loads
      ensures Valid() && gen == nextGen == old(nextGen) + 1 && loads == old(loads)[gen := k]
      ensures entries.Keys == old(entries).Keys && entries[SlotOf(k)].ident == k && entries[SlotOf(k)].gen == gen
      ensures entries == old(entries)[SlotOf(k) := entries[SlotOf(k)]]
      ensures var e := entries[SlotOf(k)];
              e.prev == old(entries)[SlotOf(k)].prev && e.prevKey == old(entries)[SlotOf(k)].prevKey
              && e.res.None? && e.inFlight && e.loading == k && !e.failed
    {
      hide Accounted;
      var s := SlotOf(k);
      Clear(Place(s, false));
      nextGen := nextGen + 1;
      gen := nextGen;
      SameAccounts(entries, s, entries[s].(ident := k, failed := false, gen := gen, loading := k, inFlight := true), delivered, revoked);
      entries := entries[s := entries[s].(ident := k, failed := false, gen := gen, loading := k, inFlight := true)];
      loads := loads[gen := k];
    }

    /** k's raster, or what stands in for it, and the load begun for it on a miss. built says
        the tile's bytes have loaded. */
    method Ensure(k: Key, built: bool) returns (r: Option<Handle>, width: int, begun: Option<nat>)
      requires Valid()
      modifies this`entries, this`revoked, this`nextGen, this`loads
      ensures Valid() && delivered == old(delivered) && made == old(made)
      ensures r.Some? ==>
                && r.value.truthy && r.value.id in delivered && r.value.id !in revoked
                && r.value.id in made && made[r.value.id].bucket == width
                && OfDocument(made[r.value.id], k)
      ensures var s := SlotOf(k);
              if s in old(entries) && old(entries)[s].ident == k && Ready(old(entries)[s]) then
                r == old(entries)[s].res && width == k.bucket
              else if s in old(entries) && old(entries)[s].ident == k && old(entries)[s].failed && old(entries)[s].failIdent == k then
                r == None
              else StandsIn(k, r, width)
      ensures begun.Some? ==>
                && (forall t :: t != SlotOf(k) ==>
                      (t in entries <==> t in old(entries) && (t.tile != k.tile || old(entries)[t].ident.bytes == k.bytes))
                      && (t in entries ==> entries[t] == old(entries)[t]))
                && SlotOf(k) in entries && Started(if SlotOf(k) in old(entries) then old(entries)[SlotOf(k)] else BLANK, entries[SlotOf(k)], k)
      ensures var s := SlotOf(k);
              begun.Some? <==> built && !(s in old(entries) && old(entries)[s].ident == k)
      ensures begun.Some? ==> begun.value !in old(loads) && loads == old(loads)[begun.value := k]
      ensures begun.None? ==> entries == old(entries) && loads == old(loads)
    {
      hide Accounted, EntryOk, OneLoadEach;
      var s := SlotOf(k);
      begun := None;
      if s in entries && entries[s].ident == k {
        if Ready(entries[s]) {
          EntryAt(s);
          OwnedAt(Place(s, false));
          return entries[s].res, k.bucket, None;
        }
        if entries[s].failed && entries[s].failIdent == k {
          return None, 0, None;
        }
        r, width := StandIn(k);
        return;
      }
      if !built {
        r, width := StandIn(k);
        return;
      }
      LetGo(k);
      if s !in entries {
        BlankAccounts(entries, s, delivered, revoked);
        BlankLoad(entries, s, loads, made);
        entries := entries[s := BLANK];
      } else {
        EntryAt(s);
      }
      RetainedPrev(entries[s], k, loads, made, s);
      Retain(k);
      var gen := Begin(k);
      begun := Some(gen);
      r, width := StandIn(k);
    }

    /** What an entry answers for. */
    lemma EntryAt(s: Slot)
      requires Valid() && s in entries
      ensures EntryOk(s, entries[s], loads, made)
      ensures entries[s].gen in loads && loads[entries[s].gen] == entries[s].ident
      ensures Ready(entries[s]) ==> entries[s].res.value.id in made && made[entries[s].res.value.id] == entries[s].ident
    {
    }

    /** A raster nobody waits for is revoked on arrival. */
    method Discard(k: Key, h: Handle)
      requires Valid() && h.id !in delivered
      modifies this`delivered, this`revoked, this`made
      ensures Valid() && (h.truthy ==> h.id in revoked)
      ensures delivered == if h.truthy then old(delivered) + {h.id} else old(delivered)
    {
      hide Accounted, OneLoadEach, EntryOk;
      if h.truthy {
        RevokedAccounts(entries, delivered, revoked, h.id);
        StillMade(h.id, k);
        delivered, revoked, made := delivered + {h.id}, revoked + {h.id}, made[h.id := k];
      }
    }

    /** A raster takes its slot, whose last handles are revoked. */
    method Install(k: Key, h: Handle)
      requires Valid() && h.id !in delivered && SlotOf(k) in entries
      requires entries[SlotOf(k)].gen in loads && loads[entries[SlotOf(k)].gen] == k
      modifies this`entries, this`revoked, this`delivered, this`made
      ensures Valid() && h.id !in revoked
      ensures delivered == if h.truthy then old(delivered) + {h.id} else old(delivered)
      ensures entries == old(entries)[SlotOf(k) :=
                old(entries)[SlotOf(k)].(res := Some(h), ident := k, failed := false, inFlight := false, prev := None)]
    {
      hide Accounted, OneLoadEach, EntryOk;
      var s := SlotOf(k);
      ghost var was := entries;
      StillMade(h.id, k);
      EntryAt(s);
      Clear(Place(s, false));
      Clear(Place(s, true));
      assert entries == was[s := was[s].(res := None, prev := None)];
      NotRevoked(entries, delivered, revoked, h.id);
      InstallAccounts(entries, s, delivered, revoked, h, k);
      entries := entries[s := entries[s].(res := Some(h), ident := k, failed := false, inFlight := false)];
      ghost var mades := if h.truthy then made[h.id := k] else made;
      InstalledOk(s, was[s], entries[s], loads, made, mades);
      if h.truthy {
        delivered := delivered + {h.id};
        made := made[h.id := k];
      }
      FewerLoads(was, entries);
    }

    /** A load's raster comes, in whatever order and however late: it is installed if the load
        is still the slot's newest, and revoked otherwise. */
    method LoadReady(gen: nat, k: Key, h: Handle) returns (installed: bool)
      requires Valid() && gen in loads && loads[gen] == k && h.id !in delivered
      modifies this`entries, this`revoked, this`delivered, this`made
      ensures Valid()
      ensures delivered == if h.truthy then old(delivered) + {h.id} else old(delivered)
      ensures installed <==> SlotOf(k) in old(entries) && old(entries)[SlotOf(k)].gen == gen
      ensures h.truthy ==> (h.id in revoked <==> !installed)
      ensures installed ==>
                entries == old(entries)[SlotOf(k) :=
                  old(entries)[SlotOf(k)].(res := Some(h), ident := k, failed := false, inFlight := false, prev := None)]
      ensures !installed ==> entries == old(entries)
    {
      hide Accounted, OneLoadEach, EntryOk;
      var s := SlotOf(k);
      if s !in entries || entries[s].gen != gen {
        Discard(k, h);
        return false;
      }
      Install(k, h);
      return true;
    }

    /** A fresh handle made for a key changes nothing of what the entries show. */
    lemma StillMade(id: nat, k: Key)
      requires Valid() && id !in delivered
      ensures forall s :: s in entries ==> EntryOk(s, entries[s], loads, made[id := k])
    {
      forall s | s in entries
        ensures EntryOk(s, entries[s], loads, made[id := k])
      {
        assert EntryOk(s, entries[s], loads, made);
        if Ready(entries[s]) { OwnedAt(Place(s, false)); }
        if entries[s].prev.Some? { OwnedAt(Place(s, true)); }
      }
    }

    /** A load fails: the newest one settles its key, any other says nothing. */
    method LoadFailed(gen: nat, k: Key) returns (settled: bool)
      requires Valid() && gen in loads && loads[gen] == k
      modifies this`entries, this`revoked
      ensures Valid() && old(revoked) <= revoked
      ensures settled <==> SlotOf(k) in old(entries) && old(entries)[SlotOf(k)].gen == gen
      ensures settled ==>
                && entries == old(entries)[SlotOf(k) :=
                     old(entries)[SlotOf(k)].(failed := true, failIdent := k, inFlight := false, prev := None)]
                && entries[SlotOf(k)].ident == k
      ensures !settled ==> entries == old(entries)
    {
      hide Accounted, OneLoadEach;
      var s := SlotOf(k);
      if s !in entries || entries[s].gen != gen {
        return false;
      }
      ghost var was := entries;
      Clear(Place(s, true));
      SameAccounts(entries, s, entries[s].(failed := true, failIdent := k, inFlight := false), delivered, revoked);
      entries := entries[s := entries[s].(failed := true, failIdent := k, inFlight := false)];
      FewerLoads(was, entries);
      return true;
    }

    /** A usable handle in place was delivered and is not revoked. */
    lemma OwnedAt(p: Place)
      requires Accounted(entries, delivered, revoked) && Usable(At(entries, p))
      ensures At(entries, p).value.id in delivered && At(entries, p).value.id !in revoked
    {
      assert Owns(entries, p, At(entries, p).value.id);
    }
  }

  function Cleared(entries: Entries, p: Place): Entries
    requires p.slot in entries
  {
    var e := entries[p.slot];
    entries[p.slot := if p.isPrev then e.(prev := None) else e.(res := None)]
  }

  lemma ClearAccounts(entries: Entries, p: Place, delivered: set<nat>, revoked: set<nat>)
    requires p.slot in entries && Accounted(entries, delivered, revoked)
    ensures Accounted(Cleared(entries, p), delivered, if Usable(At(entries, p)) then revoked + {At(entries, p).value.id} else revoked)
  {
    var r := Cleared(entries, p);
    assert forall q, id :: Owns(r, q, id) <==> q != p && Owns(entries, q, id);
    forall id | id in delivered && id !in revoked && !(Usable(At(entries, p)) && At(entries, p).value.id == id)
      ensures Owned(r, id)
    {
      var q :| Owns(entries, q, id);
      assert Owns(r, q, id);
    }
    if Usable(At(entries, p)) {
      assert Owns(entries, p, At(entries, p).value.id);
    }
  }

  lemma EmptyAccounts(entries: Entries, s: Slot, delivered: set<nat>, revoked: set<nat>)
    requires s in entries && entries[s].res.None? && entries[s].prev.None? && Accounted(entries, delivered, revoked)
    ensures Accounted(entries - {s}, delivered, revoked)
  {
    var r := entries - {s};
    assert forall q, id :: Owns(r, q, id) <==> Owns(entries, q, id);
    forall id | id in delivered && id !in revoked ensures Owned(r, id) {
      var q :| Owns(entries, q, id);
      assert Owns(r, q, id);
    }
  }

  lemma FewerLoads(was: Entries, entries: Entries)
    requires OneLoadEach(was) && forall s :: s in entries ==> s in was && entries[s].gen == was[s].gen
    ensures OneLoadEach(entries)
  {
  }

  function Retained(e: Entry, k: Key): Entry
  {
    if Ready(e) && OnlyBytesDiffer(e.ident, k) then e.(prev := e.res, prevKey := e.ident, res := None)
    else if e.prev.Some? && OnlyBytesDiffer(e.prevKey, k) then e
    else e.(prev := None)
  }

  /** What is retained is a picture of other bytes of the very document k is of. */
  lemma RetainedPrev(e: Entry, k: Key, loads: map<nat, Key>, made: map<nat, Key>, s: Slot)
    requires e == BLANK || EntryOk(s, e, loads, made)
    ensures Retained(e, k).prev.Some? ==>
              var r := Retained(e, k);
              r.prev.value.truthy && r.prev.value.id in made && made[r.prev.value.id] == r.prevKey && OnlyBytesDiffer(r.prevKey, k)
  {
  }

  lemma InstalledOk(s: Slot, was: Entry, e: Entry, loads: map<nat, Key>, made: map<nat, Key>, mades: map<nat, Key>)
    requires EntryOk(s, was, loads, made) && e.gen == was.gen && e.ident == was.ident && e.prev.None?
    requires Ready(e) ==> e.res.value.id in mades && mades[e.res.value.id] == e.ident
    ensures EntryOk(s, e, loads, mades)
  {
  }

  lemma NotRevoked(entries: Entries, delivered: set<nat>, revoked: set<nat>, id: nat)
    requires Accounted(entries, delivered, revoked) && id !in delivered
    ensures id !in revoked
  {
  }

  lemma MoveAccounts(entries: Entries, s: Slot, delivered: set<nat>, revoked: set<nat>)
    requires s in entries && entries[s].prev.None? && Accounted(entries, delivered, revoked)
    ensures var e := entries[s];
            Accounted(entries[s := e.(prev := e.res, prevKey := e.ident, res := None)], delivered, revoked)
  {
    var e := entries[s];
    var r := entries[s := e.(prev := e.res, prevKey := e.ident, res := None)];
    assert forall q, id :: Owns(r, q, id) <==>
             if q == Place(s, true) then Owns(entries, Place(s, false), id)
             else q != Place(s, false) && Owns(entries, q, id);
    forall id | id in delivered && id !in revoked ensures Owned(r, id) {
      var q :| Owns(entries, q, id);
      assert Owns(r, if q == Place(s, false) then Place(s, true) else q, id);
    }
  }

  lemma SameAccounts(entries: Entries, s: Slot, e: Entry, delivered: set<nat>, revoked: set<nat>)
    requires s in entries && e.res == entries[s].res && e.prev == entries[s].prev && Accounted(entries, delivered, revoked)
    ensures Accounted(entries[s := e], delivered, revoked)
  {
    var r := entries[s := e];
    assert forall q, id :: Owns(r, q, id) <==> Owns(entries, q, id);
    forall id | id in delivered && id !in revoked ensures Owned(r, id) {
      var q :| Owns(entries, q, id);
      assert Owns(r, q, id);
    }
  }

  lemma BlankAccounts(entries: Entries, s: Slot, delivered: set<nat>, revoked: set<nat>)
    requires s !in entries && Accounted(entries, delivered, revoked)
    ensures Accounted(entries[s := BLANK], delivered, revoked)
  {
    var r := entries[s := BLANK];
    assert forall q, id :: Owns(r, q, id) <==> Owns(entries, q, id);
    forall id | id in delivered && id !in revoked ensures Owned(r, id) {
      var q :| Owns(entries, q, id);
      assert Owns(r, q, id);
    }
  }

  /** Generations start at one, so a new entry waits for no load that was begun. */
  lemma BlankLoad(entries: Entries, s: Slot, loads: map<nat, Key>, made: map<nat, Key>)
    requires s !in entries && OneLoadEach(entries) && 0 !in loads
    requires forall t :: t in entries ==> EntryOk(t, entries[t], loads, made)
    ensures OneLoadEach(entries[s := BLANK])
  {
    assert forall t :: t in entries ==> entries[t].gen != 0;
  }

  lemma RevokedAccounts(entries: Entries, delivered: set<nat>, revoked: set<nat>, id: nat)
    requires Accounted(entries, delivered, revoked) && id !in delivered
    ensures Accounted(entries, delivered + {id}, revoked + {id})
  {
  }

  lemma InstallAccounts(entries: Entries, s: Slot, delivered: set<nat>, revoked: set<nat>, h: Handle, k: Key)
    requires s in entries && entries[s].res.None? && Accounted(entries, delivered, revoked) && h.id !in delivered
    ensures Accounted(entries[s := entries[s].(res := Some(h), ident := k, failed := false, inFlight := false)],
              if h.truthy then delivered + {h.id} else delivered, revoked)
  {
    var r := entries[s := entries[s].(res := Some(h), ident := k, failed := false, inFlight := false)];
    assert forall q, id :: Owns(r, q, id) <==> Owns(entries, q, id) || (q == Place(s, false) && h.truthy && id == h.id);
    forall id | id in delivered && id !in revoked ensures Owned(r, id) {
      var q :| Owns(entries, q, id);
      assert Owns(r, q, id);
    }
    if h.truthy {
      assert Owns(r, Place(s, false), h.id);
    }
  }

  // ---------------------------------------------------------------- widths

  const FIRST := 64
  const LIMIT := 65536

  /** The steps from a width up, each an eighth wider than the last. */
  function Steps(b: nat): (steps: seq<nat>)
    requires b >= FIRST
    decreases if b < LIMIT then LIMIT - b else 0
  {
    if b >= LIMIT then [b]
    else
      WiderStep(b);
      [b] + Steps(b * 9 / 8)
  }

  lemma WiderStep(b: nat)
    requires b >= FIRST
    ensures b < b * 9 / 8 && 8 * (b * 9 / 8) <= 9 * b
  {
  }

  function Buckets(): seq<nat>
  {
    Steps(FIRST)
  }

  /** The table from a width up, built step by step. */
  method BuildSteps(first: nat) returns (out: seq<nat>)
    requires first >= FIRST
    ensures out == Steps(first)
  {
    hide Steps;
    out := [first];
    var b := first;
    assert [] + Steps(first) == Steps(first);
    while b < LIMIT
      invariant b >= FIRST && |out| > 0 && out[|out| - 1] == b
      invariant out[..|out| - 1] + Steps(b) == Steps(first)
      decreases if b < LIMIT then LIMIT - b else 0
    {
      ghost var was := out;
      WiderStep(b);
      StepsFrom(b);
      b := b * 9 / 8;
      out := out + [b];
      assert out[..|out| - 1] == was;
      assert was == was[..|was| - 1] + [was[|was| - 1]];
    }
    StepsFrom(b);
    assert out == out[..|out| - 1] + [b];
  }

  lemma StepsFrom(b: nat)
    requires b >= FIRST
    ensures b < LIMIT ==> b * 9 / 8 >= FIRST && Steps(b) == [b] + Steps(b * 9 / 8)
    ensures b >= LIMIT ==> Steps(b) == [b]
  {
    if b < LIMIT { WiderStep(b); }
  }

  lemma {:induction false} StepsRise(b: nat, i: nat, j: nat)
    requires b >= FIRST && i < j < |Steps(b)|
    ensures Steps(b)[i] < Steps(b)[j] && Steps(b)[0] == b
    decreases j
  {
    if b < LIMIT {
      WiderStep(b);
      var rest := Steps(b * 9 / 8);
      assert Steps(b) == [b] + rest;
      if i > 0 {
        StepsRise(b * 9 / 8, i - 1, j - 1);
      } else if j > 1 {
        StepsRise(b * 9 / 8, 0, j - 1);
      } else {
        assert rest[0] == b * 9 / 8;
      }
    }
  }

  lemma {:induction false} NextStep(b: nat, i: nat)
    requires b >= FIRST && i + 1 < |Steps(b)|
    ensures 8 * Steps(b)[i + 1] <= 9 * Steps(b)[i]
    decreases i
  {
    if b < LIMIT {
      WiderStep(b);
      var rest := Steps(b * 9 / 8);
      assert Steps(b) == [b] + rest;
      if i > 0 {
        NextStep(b * 9 / 8, i - 1);
      } else {
        assert rest[0] == b * 9 / 8;
      }
    }
  }

  /** The first of the sorted widths that is at least w, searched by halves. */
  method Search(buckets: seq<nat>, w: real) returns (i: nat)
    requires forall j, k :: 0 <= j < k < |buckets| ==> buckets[j] < buckets[k]
    ensures i <= |buckets|
    ensures forall j :: 0 <= j < i ==> buckets[j] as real < w
    ensures forall j :: i <= j < |buckets| ==> buckets[j] as real >= w
  {
    i := 0;
    var hi := |buckets|;
    while i < hi
      invariant 0 <= i <= hi <= |buckets|
      invariant forall j :: 0 <= j < i ==> buckets[j] as real < w
      invariant forall j :: hi <= j < |buckets| ==> buckets[j] as real >= w
    {
      var mid := (i + hi) / 2;
      if buckets[mid] as real < w {
        i := mid + 1;
      } else {
        hi := mid;
      }
    }
  }

  /** The widest step that does not clip a box: at most its width once the box is at least the
      first step wide, with no step between them. */
  method Bucket(w: real) returns (b: nat)
    ensures b in Buckets()
    ensures w >= FIRST as real ==> b as real <= w && forall s :: s in Buckets() && s as real <= w ==> s <= b
    ensures w < FIRST as real ==> b == FIRST
  {
    hide Steps;
    var buckets := BuildSteps(FIRST);
    StepsFrom(FIRST);
    forall j, k | 0 <= j < k < |buckets| ensures buckets[j] < buckets[k] {
      StepsRise(FIRST, j, k);
    }
    assert buckets[0] == FIRST;
    var i := Search(buckets, w);
    if i < |buckets| && buckets[i] as real == w {
      return buckets[i];
    }
    return if i > 0 then buckets[i - 1] else buckets[0];
  }

  /** The margin a step leaves in a box is under a ninth of it, up to an eighth past the last
      step, and no further. */
  lemma MarginIsSmall(w: real, b: nat)
    requires w >= FIRST as real && b in Buckets() && b as real <= w
    requires forall s :: s in Buckets() && s as real <= w ==> s <= b
    ensures Buckets() != []
    ensures var last := Buckets()[|Buckets()| - 1];
            w - b as real < w / 9.0 <==> w < 9.0 * last as real / 8.0
  {
    hide Steps;
    StepMargin(FIRST, w, b);
  }

  lemma StepMargin(first: nat, w: real, b: nat)
    requires first >= FIRST && b in Steps(first) && b as real <= w
    requires forall s :: s in Steps(first) && s as real <= w ==> s <= b
    ensures var last := Steps(first)[|Steps(first)| - 1];
            w - b as real < w / 9.0 <==> w < 9.0 * last as real / 8.0
  {
    hide Steps;
    var steps := Steps(first);
    var i :| 0 <= i < |steps| && steps[i] == b;
    var last := steps[|steps| - 1];
    if i > 0 { StepsRise(first, 0, i); } else { StepsFrom(first); }
    if i + 1 < |steps| {
      NextStep(first, i);
      var next := steps[i + 1];
      StepsRise(first, i, i + 1);
      assert next in steps;
      assert next as real > w;
      if i + 1 < |steps| - 1 { StepsRise(first, i + 1, |steps| - 1); }
      Margin(w, b as real, next as real, last as real);
    } else {
      LastMargin(w, b as real);
    }
  }

  lemma LastMargin(w: real, last: real)
    ensures w - last < w / 9.0 <==> w < 9.0 * last / 8.0
  {
  }

  lemma Margin(w: real, b: real, next: real, last: real)
    requires 0.0 < b <= w < next <= last && 8.0 * next <= 9.0 * b
    ensures w - b < w / 9.0 && w < 9.0 * last / 8.0
  {
  }
}
