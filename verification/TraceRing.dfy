/** client/trace/trace.go and client/trace/pump.go: the ring of records a client keeps until
    the node has them, and the one post that may be out. A record's wire bytes are not part of
    this model; a batch is the records in it. */
module TraceRing {
  import opened Numerals

  datatype Record = Record(src: string, kind: string, msg: string, kv: map<string, string>, ct: int)

  const DEFAULT_CAPACITY: nat := 2000

  function DropRecord(n: nat, ct: int): Record
  {
    Record("trace", "drop", "records dropped before the node saw them", map["n" := Itoa(n)], ct)
  }

  /** The record of losses reads back as their number. */
  lemma DropsReadBack(n: nat, ct: int)
    ensures var d := DropRecord(n, ct);
            && d.src == "trace" && d.kind == "drop" && d.ct == ct && d.kv.Keys == {"n"}
            && (forall c :: c in d.kv["n"] ==> IsDigit(c)) && Value(d.kv["n"]) == n
  {
    ItoaValue(n);
  }

  function Max(a: nat, b: nat): nat
  {
    if a > b then a else b
  }

  /** A slot of the ring, i records on from first. */
  function Slot(first: nat, i: nat, cap: nat): nat
    requires first < cap && i <= cap
  {
    if first + i < cap then first + i else first + i - cap
  }

  lemma SlotIsMod(first: nat, i: nat, cap: nat)
    requires first < cap && i <= cap
    ensures (first + i) % cap == Slot(first, i, cap)
  {
    if first + i >= cap {
      ModOnce(first + i - cap, cap);
    } else {
      ModNone(first + i, cap);
    }
  }

  lemma ModNone(x: nat, m: nat)
    requires x < m
    ensures x % m == x
  {
  }

  lemma ModOnce(x: nat, m: nat)
    requires x < m
    ensures (x + m) % m == x
  {
  }

  /** The serials from lo up to hi. */
  ghost function Range(lo: nat, hi: nat): (r: set<nat>)
    ensures forall s :: s in r <==> lo <= s < hi
    decreases hi
  {
    if hi <= lo then {} else Range(lo, hi - 1) + {hi - 1}
  }

  class Client {
    const ring: array<Record>
    var first: nat
    var count: nat
    var base: nat
    var acked: nat
    var out: nat
    var dropped: nat
    var lastCt: int

    /** Every record ever emitted, by serial. */
    ghost var log: seq<Record>
    /** The serials of the batches the node kept. */
    ghost var kept: set<nat>
    /** The serials evicted before any batch carrying them was kept, and how many of those
        losses a record has told. */
    ghost var lost: set<nat>
    ghost var told: nat

    /** The ring holds the last count records of the log, oldest at first; what is owed is
        [acked, end of the log); everything before it is kept or counted as lost; and nothing
        kept is owed. */
    ghost predicate Valid()
      reads this, ring
    {
      && 0 < ring.Length && first < ring.Length && count <= ring.Length
      && base + count == |log|
      && (forall i :: 0 <= i < count ==> ring[Slot(first, i, ring.Length)] == log[base + i])
      && base <= acked <= |log| && out <= |log|
      && (forall s: nat :: s < acked ==> s in kept || s in lost)
      && (forall s :: s in kept ==> s < acked)
      && (forall s :: s in lost ==> s < base)
      && told + dropped == |lost|
    }

    constructor (capacity: int)
      ensures Valid() && log == [] && kept == {} && lost == {} && fresh(ring)
      ensures ring.Length == if capacity < 1 then DEFAULT_CAPACITY else capacity
    {
      var cap: nat := if capacity < 1 then DEFAULT_CAPACITY else capacity;
      ring := new Record[cap](_ => Record("", "", "", map[], 0));
      first, count, base, acked, out, dropped, lastCt := 0, 0, 0, 0, 0, 0, 0;
      log, kept, lost, told := [], {}, {}, 0;
    }

    /** The oldest record makes room; one the node never kept is a loss the next batch tells. */
    method Evict()
      requires Valid() && count == ring.Length
      modifies this`first, this`count, this`base, this`acked, this`dropped, this`lost
      ensures Valid() && count + 1 == old(count)
      ensures acked == Max(old(acked), old(base) + 1)
      ensures lost == if old(acked) == old(base) then old(lost) + {old(base)} else old(lost)
    {
      if acked <= base {
        dropped := dropped + 1;
        acked := base + 1;
        lost := lost + {base};
      }
      SlotIsMod(first, 1, ring.Length);
      ghost var cap, was := ring.Length, first;
      first := (first + 1) % ring.Length;
      base := base + 1;
      count := count - 1;
      forall i | 0 <= i < count
        ensures ring[Slot(first, i, cap)] == log[base + i]
      {
        assert Slot(first, i, cap) == Slot(was, i + 1, cap);
      }
    }

    /** One record appended, and nothing said of it. */
    method Append(r: Record)
      requires Valid()
      modifies this`first, this`count, this`base, this`acked, this`dropped, this`lost, this`log, ring
      ensures Valid() && log == old(log) + [r] && acked < |log|
      ensures lost == if old(count) == ring.Length && old(acked) == old(base) then old(lost) + {old(base)} else old(lost)
      ensures acked == if old(count) == ring.Length then Max(old(acked), old(base) + 1) else old(acked)
    {
      if count == ring.Length {
        Evict();
      }
      SlotIsMod(first, count, ring.Length);
      ghost var at := Slot(first, count, ring.Length);
      ring[(first + count) % ring.Length] := r;
      log := log + [r];
      count := count + 1;
      forall i | 0 <= i < count
        ensures ring[Slot(first, i, ring.Length)] == log[base + i]
      {
        if i < count - 1 { assert Slot(first, i, ring.Length) != at; }
      }
    }

    method Emit(r: Record)
      requires Valid()
      modifies this`first, this`count, this`base, this`acked, this`dropped, this`lost, this`log, this`lastCt, ring
      ensures Valid() && log == old(log) + [r] && lastCt == r.ct && Pending() > 0
      ensures old(lost) <= lost && old(acked) <= acked
    {
      lastCt := r.ct;
      Append(r);
    }

    /** How many records the node has not acknowledged. */
    function Pending(): int
      reads this
    {
      base + count - acked
    }

    /** The records held from a serial on, in order. */
    method BatchFrom(serial: nat) returns (recs: seq<Record>, end: nat)
      requires Valid()
      ensures end == |log|
      ensures recs == if Max(serial, base) >= end then [] else log[Max(serial, base)..]
    {
      end := base + count;
      var from := Max(serial, base);
      recs := [];
      if from >= end {
        return;
      }
      var s := from;
      while s < end
        invariant from <= s <= end && recs == log[from..s]
      {
        SlotIsMod(first, s - base, ring.Length);
        recs := recs + [ring[(first + (s - base)) % ring.Length]];
        s := s + 1;
      }
    }

    /** The evictions since the last batch become one record, which may itself evict another;
        that loss rides the next batch. */
    method TellDrops()
      requires Valid()
      modifies this`first, this`count, this`base, this`acked, this`dropped, this`lost, this`log, this`told, ring
      ensures Valid() && told == old(told) + old(dropped)
      ensures log == if old(dropped) > 0 then old(log) + [DropRecord(old(dropped), lastCt)] else old(log)
      ensures old(dropped) > 0 ==> acked < |log|
      ensures old(dropped) == 0 ==> acked == old(acked)
      ensures old(lost) <= lost && old(acked) <= acked
    {
      hide Slot;
      if dropped > 0 {
        var n := dropped;
        dropped := 0;
        told := told + n;
        Append(DropRecord(n, lastCt));
      }
    }

    /** Every record the node has not acknowledged, in order, after one that tells the losses
        since the last batch; none of a batch the node kept is among them. */
    method PendingBatch() returns (recs: seq<Record>, end: nat)
      requires Valid()
      modifies this`first, this`count, this`base, this`acked, this`dropped, this`lost, this`log, this`out, this`told, ring
      ensures Valid() && end == |log| && recs == log[acked..]
      ensures log == if old(dropped) > 0 then old(log) + [DropRecord(old(dropped), lastCt)] else old(log)
      ensures forall s :: s in kept ==> s < acked
      ensures kept == old(kept) && old(lost) <= lost && old(acked) <= acked
      ensures told == old(told) + old(dropped)
      ensures recs == [] <==> old(Pending()) <= 0 && old(dropped) == 0
      ensures out == if recs == [] then old(out) else end
      ensures old(out) <= out
    {
      hide Slot;
      TellDrops();
      recs, end := BatchFrom(acked);
      if |recs| == 0 {
        return;
      }
      out := end;
    }

    /** The node kept the batch of serials from up to end. */
    method Ack(ghost from: nat, end: nat)
      requires Valid() && from <= acked && end <= |log|
      modifies this`acked, this`kept
      ensures Valid() && acked == Max(old(acked), end) && kept == old(kept) + Range(from, end)
    {
      kept := kept + Range(from, end);
      if end > acked {
        acked := end;
      }
    }

    /** Every record since the last batch handed out. */
    method UnsentBatch() returns (recs: seq<Record>)
      requires Valid()
      ensures recs == log[Max(acked, out)..]
    {
      var end;
      recs, end := BatchFrom(Max(acked, out));
    }
  }

  /** No record slips: each one emitted is in a batch the node kept, or counted as lost, or is
      still in the ring and owed, to be in the next batch. */
  lemma NothingSlips(c: Client, s: nat)
    requires c.Valid() && s < |c.log|
    ensures s in c.kept || s in c.lost ||
            (c.acked <= s && c.base <= s && s - c.base < c.count && c.ring[Slot(c.first, s - c.base, c.ring.Length)] == c.log[s])
  {
    if s >= c.acked {
      assert c.ring[Slot(c.first, s - c.base, c.ring.Length)] == c.log[c.base + (s - c.base)];
    }
  }

  // ---------------------------------------------------------------- one post at a time

  const MS := 1_000_000
  const FLUSH_MS := 1000
  const FLUSH_BATCH := 200

  /** A full batch, or one that has waited long enough; nothing owed is nothing to post. */
  predicate NeedFlush(pending: int, since: int)
  {
    pending > 0 && (pending >= FLUSH_BATCH || since >= FLUSH_MS * MS)
  }

  /** Whether a post is out, how the last went, and when it started, in nanoseconds. */
  class Pump {
    var inFlight: bool
    var failed: bool
    var last: int
    /** Where the post that is out ends, and where it started. */
    var end: nat
    ghost var from: nat

    /** What a post out carries was owed when it left, and is behind what is handed out. */
    ghost predicate Valid(c: Client)
      reads this, c, c.ring
    {
      c.Valid() && (inFlight ==> from <= c.acked && from < end <= c.out)
    }

    constructor (now: int)
      ensures !inFlight && !failed && last == now
    {
      inFlight, failed, last, end := false, false, now, 0;
    }

    /** After a post the node did not keep, the next waits for the clock. */
    predicate Due(pending: int, now: int)
      reads this
    {
      !(failed && now - last < FLUSH_MS * MS) && NeedFlush(pending, now - last)
    }

    /** Nothing owed is never due; a second after the last post started anything is; sooner only
        a full batch, and that not after a post the node did not keep. */
    lemma DueWhen(pending: int, now: int)
      ensures Due(pending, now) <==>
                pending > 0 && (now - last >= 1_000_000_000 || (pending >= 200 && !failed))
    {
    }

    /** Takes the batch: everything owed, and one is out now unless there was none. */
    method Take(c: Client, now: int) returns (batch: seq<Record>)
      requires Valid(c) && !inFlight
      modifies this, c, c.ring
      ensures Valid(c) && inFlight == (batch != [])
      ensures batch != [] ==> batch == c.log[from..end] && end == |c.log| && last == now
      ensures batch == [] ==> last == old(last) && c.Pending() <= 0
      ensures batch == [] <==> old(c.Pending()) <= 0 && old(c.dropped) == 0
      ensures c.kept == old(c.kept) && failed == old(failed)
      ensures forall s :: s in c.kept ==> s < from || batch == []
    {
      var e;
      batch, e := c.PendingBatch();
      if |batch| == 0 {
        return;
      }
      inFlight := true;
      last := now;
      from := c.acked;
      end := e;
    }

    /** A post when one is due. */
    method Start(c: Client, now: int) returns (batch: seq<Record>)
      requires Valid(c)
      modifies this, c, c.ring
      ensures Valid(c) && c.kept == old(c.kept)
      ensures batch != [] <==> !old(inFlight) && old(Due(c.Pending(), now))
      ensures batch != [] ==> inFlight && last == now && batch == c.log[from..end] && forall s :: s in c.kept ==> s < from
      ensures batch == [] ==> inFlight == old(inFlight) && last == old(last) && failed == old(failed) && c.Pending() == old(c.Pending())
    {
      batch := [];
      if inFlight || !Due(c.Pending(), now) {
        return;
      }
      batch := Take(c, now);
    }

    /** A post whether or not one is due; it yields to one already out. */
    method Force(c: Client, now: int) returns (batch: seq<Record>)
      requires Valid(c)
      modifies this, c, c.ring
      ensures Valid(c) && c.kept == old(c.kept)
      ensures old(inFlight) ==> batch == [] && inFlight && c.Pending() == old(c.Pending())
      ensures batch != [] ==> inFlight && batch == c.log[from..end] && forall s :: s in c.kept ==> s < from
      ensures last == if batch != [] then now else old(last)
      ensures batch == [] && !old(inFlight) ==> !inFlight && c.Pending() <= 0
    {
      batch := [];
      if inFlight {
        return;
      }
      batch := Take(c, now);
    }

    /** The node's answer. A failure acknowledges nothing. */
    method Done(c: Client, keeps: bool)
      requires Valid(c) && inFlight
      modifies this`inFlight, this`failed, c`acked, c`kept
      ensures Valid(c) && !inFlight && failed == !keeps
      ensures c.kept == if keeps then old(c.kept) + Range(from, end) else old(c.kept)
      ensures c.acked == if keeps then Max(old(c.acked), end) else old(c.acked)
    {
      inFlight := false;
      failed := !keeps;
      if keeps {
        c.Ack(from, end);
      }
    }

    /** The page's last batch: everything owed less what a post still out carries, so nothing
        kept, and nothing that post may yet have kept, is in it. */
    method Unload(c: Client) returns (batch: seq<Record>, ghost start: nat)
      requires Valid(c)
      modifies c, c.ring
      ensures c.Valid() && batch == if start <= |c.log| then c.log[start..] else []
      ensures forall s :: s in c.kept ==> s < start
      ensures inFlight ==> end <= start
      ensures c.kept == old(c.kept)
    {
      if inFlight {
        batch := c.UnsentBatch();
        start := Max(c.acked, c.out);
        return;
      }
      var e;
      batch, e := c.PendingBatch();
      start := c.acked;
    }

    /** How long until a post is due: to the flush clock, or a millisecond when that is nearer
        or past; false when none is owed or one is out. */
    method Wait(c: Client, now: int) returns (wait: int, owed: bool)
      ensures owed <==> !inFlight && c.Pending() > 0
      ensures owed ==> wait >= MS && now + wait >= last + FLUSH_MS * MS && (wait == MS || now + wait == last + FLUSH_MS * MS)
    {
      if inFlight || c.Pending() <= 0 {
        return 0, false;
      }
      wait := last + FLUSH_MS * MS - now;
      if wait < MS {
        wait := MS;
      }
      owed := true;
    }
  }
}
