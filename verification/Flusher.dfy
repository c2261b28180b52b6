/** client/debounce/debounce.go and client/trace/flusher.go: the timer that coalesces, and the
    flush loop that must never leave a record waiting on an emit that may not come. */
module Flusher {
  import opened TraceRing

  datatype Mode = Throttle | Settle

  /** One deferred run. Times are milliseconds. */
  class Debounce {
    const mode: Mode
    var pending: bool
    var due: int

    /** The firings handed to the scheduler and not yet come, and when the last may come. */
    ghost var scheduled: nat
    ghost var at: int

    /** A run is waiting exactly when one firing is scheduled. */
    ghost predicate Valid()
      reads this
    {
      scheduled == if pending then 1 else 0
    }

    constructor (mode: Mode)
      ensures Valid() && !pending && this.mode == mode
    {
      this.mode, pending, due, scheduled, at := mode, false, 0, 0, 0;
    }

    /** Defers a run, or leaves it to the one waiting. */
    method Arm(now: int, ms: int) returns (mine: bool)
      requires Valid()
      modifies this
      ensures Valid() && pending && due == now + ms && mine == !old(pending)
      ensures at == if mine then now + ms else old(at)
    {
      due := now + ms;
      if pending {
        return false;
      }
      pending := true;
      scheduled, at := scheduled + 1, now + ms;
      return true;
    }

    /** The scheduled firing comes. A settle waits out a window that has moved; otherwise the
        run is due, and an arm made from it opens a fresh window. */
    method Fire(now: int) returns (run: bool)
      requires Valid() && pending
      modifies this
      ensures Valid() && run == !(mode == Settle && old(due) - now >= 1)
      ensures pending == !run && due == old(due)
      ensures !run ==> at == due
    {
      scheduled := scheduled - 1;
      var rest := due - now;
      if mode == Settle && rest >= 1 {
        scheduled, at := scheduled + 1, now + rest;
        return false;
      }
      pending := false;
      return true;
    }
  }

  /** The flush loop: the ring, the pump and its one timer. now is in nanoseconds. */
  class Loop {
    const c: Client
    const pump: Pump
    const timer: Debounce
    var stopped: bool

    ghost predicate Valid()
      reads this, c, c.ring, pump, timer
    {
      pump.Valid(c) && timer.Valid() && timer.mode == Throttle
    }

    /** What is owed has a post out or a firing to come. */
    ghost predicate Live()
      reads this, c, c.ring, pump, timer
    {
      !stopped && c.Pending() > 0 ==> pump.inFlight || timer.pending
    }

    /** A firing to come is less than a millisecond past the flush clock. */
    ghost predicate Timely()
      reads this, pump, timer
    {
      timer.pending ==> timer.at * MS < pump.last + FLUSH_MS * MS + MS
    }

    constructor (c: Client, now: int)
      requires c.Valid() && c.log == []
      ensures Valid() && Live() && Timely() && this.c == c && fresh(pump) && fresh(timer) && !stopped
    {
      this.c := c;
      pump := new Pump(now);
      timer := new Debounce(Throttle);
      stopped := false;
    }

    /** Posts when a post is due, and otherwise arms the timer for when one will be: not before
        the flush clock, nor, on a clock that does not run back, a millisecond past it. */
    method Kick(now: int) returns (batch: seq<Record>)
      requires Valid()
      modifies pump, c, c.ring, timer
      ensures Valid() && Live()
      ensures stopped ==> batch == [] && timer.pending == old(timer.pending) && pump.inFlight == old(pump.inFlight)
      ensures !stopped ==> (batch != [] <==> !old(pump.inFlight) && old(pump.Due(c.Pending(), now)))
      ensures batch != [] ==> pump.inFlight && batch == c.log[pump.from..pump.end]
      ensures batch == [] ==> pump.last == old(pump.last) && pump.inFlight == old(pump.inFlight)
      ensures !stopped && batch == [] && !pump.inFlight && c.Pending() > 0 && !old(timer.pending) ==>
                timer.pending && now + (timer.at - now / MS) * MS >= pump.last + FLUSH_MS * MS
      ensures old(Timely()) && now >= old(pump.last) ==> Timely() && pump.last <= now
    {
      batch := [];
      if stopped {
        return;
      }
      batch := pump.Start(c, now);
      if batch != [] {
        return;
      }
      var wait, owed := pump.Wait(c, now);
      if owed {
        var ms := (wait + MS - 1) / MS;
        var mine := timer.Arm(now / MS, ms);
        CeilIsEnough(wait);
        CeilIsNear(now, wait);
      }
    }

    /** A record, and the kick it gives the loop unless the loop was stopped. */
    method Emit(r: Record, now: int) returns (batch: seq<Record>)
      requires Valid()
      modifies pump, c, c.ring, timer
      ensures Valid() && Live()
      ensures old(Timely()) && now >= old(pump.last) ==> Timely() && pump.last <= now
      ensures stopped ==> batch == []
    {
      c.Emit(r);
      batch := [];
      if !stopped {
        batch := Kick(now);
      }
    }

    /** The timer's firing: on the flush clock whatever is owed is posted, by this firing or
        by the post already out. */
    method TimerFires(now: int) returns (batch: seq<Record>)
      requires Valid() && timer.pending
      modifies pump, c, c.ring, timer
      ensures Valid() && Live()
      ensures now >= old(pump.last) ==> Timely() && pump.last <= now
      ensures !stopped && old(c.Pending()) > 0 && now >= old(pump.last) + FLUSH_MS * MS ==> pump.inFlight
      ensures !stopped && old(c.Pending()) > 0 && now >= old(pump.last) + FLUSH_MS * MS && !old(pump.inFlight) ==> batch != []
    {
      batch := [];
      var run := timer.Fire(now / MS);
      if run {
        batch := Kick(now);
      }
    }

    /** A post is answered, and the loop looks again. */
    method Answered(keeps: bool, now: int) returns (batch: seq<Record>)
      requires Valid() && pump.inFlight
      modifies pump, c, c.ring, timer
      ensures Valid() && Live()
      ensures old(Timely()) && now >= old(pump.last) ==> Timely() && pump.last <= now
      ensures stopped ==> batch == [] && !pump.inFlight
    {
      pump.Done(c, keeps);
      batch := Kick(now);
    }

    /** The dump's post, due or not. */
    method Force(now: int) returns (batch: seq<Record>)
      requires Valid()
      modifies pump, c, c.ring
      ensures Valid() && (old(Live()) ==> Live())
      ensures old(Timely()) && now >= old(pump.last) ==> Timely() && pump.last <= now
      ensures batch != [] ==> pump.inFlight && batch == c.log[pump.from..pump.end]
    {
      batch := pump.Force(c, now);
    }

    /** The page unloads: no post starts any more. */
    method Stop()
      requires Valid()
      modifies this`stopped
      ensures Valid() && Live() && stopped && (old(Timely()) ==> Timely())
    {
      stopped := true;
    }

    /** The unload beacon, after Stop: none of what a post still out carries. */
    method Unload() returns (batch: seq<Record>, ghost start: nat)
      requires Valid() && stopped
      modifies c, c.ring
      ensures c.Valid() && stopped && Live()
      ensures batch == if start <= |c.log| then c.log[start..] else []
      ensures (forall s :: s in c.kept ==> s < start) && (pump.inFlight ==> pump.end <= start)
    {
      batch, start := pump.Unload(c);
    }
  }

  /** A whole number of milliseconds that covers the wait. */
  lemma CeilIsEnough(wait: int)
    ensures (wait + MS - 1) / MS * MS >= wait
  {
  }

  /** Rounding the wait up and the clock down ends within a millisecond of the wait's end. */
  lemma CeilIsNear(now: int, wait: int)
    ensures (now / MS + (wait + MS - 1) / MS) * MS < now + wait + MS
  {
  }
}
