/** client/outbox/chain.go: content writes serialized per key. The class is the queue's state
    and its critical sections; a World is the goroutines interleaving over it. */
module SaveQueue {
  import opened Options

  /** A write, or a hook (After) that hears how the last write went. */
  datatype Task = Task(id: nat, hook: bool)

  type Chains = map<string, seq<Task>>

  function Of(chains: Chains, key: string): seq<Task>
  {
    if key in chains then chains[key] else []
  }

  function Count(holds: map<string, int>, key: string): int
  {
    if key in holds then holds[key] else 0
  }

  /** The queue's maps. */
  datatype State = State(busy: set<string>, pending: Chains, holds: map<string, int>, waiting: Chains)

  // ---------------------------------------------------------------- critical sections

  /** A task joins a busy chain's line; on an idle chain it starts at once. */
  function Added(s: State, key: string, t: Task): State
  {
    if key in s.busy then s.(pending := s.pending[key := Of(s.pending, key) + [t]])
    else s.(busy := s.busy + {key})
  }

  /** The task a chain runs next; with none the chain is idle. */
  function Next(s: State, key: string): (State, Option<Task>)
  {
    var line := Of(s.pending, key);
    if line == [] then (s.(busy := s.busy - {key}, pending := s.pending - {key}), None)
    else (s.(pending := s.pending[key := line[1..]]), Some(line[0]))
  }

  function Held(s: State, key: string): State
  {
    s.(holds := s.holds[key := Count(s.holds, key) + 1])
  }

  /** A hold ends; the last one frees what waited for it. */
  function Released(s: State, key: string): (State, seq<Task>)
  {
    var n := Count(s.holds, key) - 1;
    if n == 0 then (s.(holds := s.holds - {key}, waiting := s.waiting - {key}), Of(s.waiting, key))
    else (s.(holds := s.holds[key := n]), [])
  }

  /** A task that follows the holders' writes waits while any holds. */
  function Checked(s: State, key: string, t: Task): (State, bool)
  {
    if Count(s.holds, key) > 0 then (s.(waiting := s.waiting[key := Of(s.waiting, key) + [t]]), false)
    else (s, true)
  }

  class Queue {
    var busy: set<string>
    var pending: Chains
    var holds: map<string, int>
    var waiting: Chains

    ghost function Is(): State
      reads this
    {
      State(busy, pending, holds, waiting)
    }

    constructor ()
      ensures Is() == State({}, map[], map[], map[])
    {
      busy, pending, holds, waiting := {}, map[], map[], map[];
    }

    /** add's section; starts says a goroutine is to run the task. */
    method Add(key: string, t: Task) returns (starts: bool)
      modifies this`busy, this`pending
      ensures Is() == Added(old(Is()), key, t) && starts == (key !in old(busy))
    {
      if key in busy {
        pending := pending[key := (if key in pending then pending[key] else []) + [t]];
        return false;
      }
      busy := busy + {key};
      return true;
    }

    /** run's section, between two tasks. */
    method TakeNext(key: string) returns (t: Option<Task>)
      modifies this`busy, this`pending
      ensures (Is(), t) == Next(old(Is()), key)
    {
      var line := if key in pending then pending[key] else [];
      if |line| == 0 {
        busy := busy - {key};
        pending := pending - {key};
        return None;
      }
      pending := pending[key := line[1..]];
      return Some(line[0]);
    }

    method Hold(key: string)
      modifies this`holds
      ensures Is() == Held(old(Is()), key)
    {
      holds := holds[key := (if key in holds then holds[key] else 0) + 1];
    }

    /** release's section; ready is added by the releaser, task by task, afterwards. */
    method Release(key: string) returns (ready: seq<Task>)
      modifies this`holds, this`waiting
      ensures (Is(), ready) == Released(old(Is()), key)
    {
      var n := (if key in holds then holds[key] else 0) - 1;
      ready := [];
      if n == 0 {
        holds := holds - {key};
        ready := if key in waiting then waiting[key] else [];
        waiting := waiting - {key};
      } else {
        holds := holds[key := n];
      }
    }

    /** EnqueueAfterHolds' section; now says the caller is to add the task itself. */
    method CheckHolds(key: string, t: Task) returns (now: bool)
      modifies this`waiting
      ensures (Is(), now) == Checked(old(Is()), key, t)
    {
      if key in holds && holds[key] > 0 {
        waiting := waiting[key := (if key in waiting then waiting[key] else []) + [t]];
        return false;
      }
      return true;
    }
  }

  // ---------------------------------------------------------------- goroutines

  /** How one task of a busy run went. */
  datatype Ran = Ran(task: Task, landed: bool)

  /** A goroutine of run: the task in hand, what it was told, whether it has ended and how, and
      the tasks of this busy run before it. */
  datatype Runner = Runner(key: string, task: Task, prev: bool, ended: Option<bool>, past: seq<Ran>)

  /** A releaser with freed tasks still to add, or a caller past its holds check; before is all
      the chain had been given when no hold was left. */
  datatype Adder = Adder(key: string, tasks: seq<Task>, before: seq<Task>)

  /** added and started keep a run's history: each key's tasks in the order add took them, and
      in the order they started. */
  datatype World = World(q: State, runners: map<nat, Runner>, next: nat, live: map<nat, string>, nextHold: nat,
    adders: map<nat, Adder>, nextAdder: nat, added: Chains, started: Chains)

  const IDLE: World := World(State({}, map[], map[], map[]), map[], 0, map[], 0, map[], 0, map[], map[])

  datatype Act =
    | Enqueues(key: string, task: Task)
    | Ends(runner: nat, landed: bool)
    | TakesNext(runner: nat)
    | Holds(key: string)
    | Releases(hold: nat)
    | EnqueuesAfterHolds(key: string, task: Task)
    | AddsOne(adder: nat)

  /** add, with the goroutine it may start. */
  function Enqueue(w: World, key: string, t: Task): World
  {
    var r := w.(q := Added(w.q, key, t), added := w.added[key := Of(w.added, key) + [t]]);
    if key in w.q.busy then r
    else
      r.(runners := r.runners[r.next := Runner(key, t, true, None, [])], next := r.next + 1,
         started := r.started[key := Of(r.started, key) + [t]])
  }

  /** A hook hears how the last write went and passes it on; a write answers for itself. */
  function Landed(r: Runner, landed: bool): bool
  {
    if r.task.hook then r.prev else landed
  }

  function TakeNext(w: World, g: nat): World
    requires g in w.runners && w.runners[g].ended.Some?
  {
    var r := w.runners[g];
    var (q, t) := Next(w.q, r.key);
    match t
    case None => w.(q := q, runners := w.runners - {g})
    case Some(task) =>
      w.(q := q, started := w.started[r.key := Of(w.started, r.key) + [task]],
         runners := w.runners[g := Runner(r.key, task, r.ended.value, None, r.past + [Ran(r.task, r.ended.value)])])
  }

  function Do(w: World, a: Act): World
  {
    match a
    case Enqueues(key, t) => Enqueue(w, key, t)
    case Ends(g, landed) =>
      if g in w.runners && w.runners[g].ended.None? then
        w.(runners := w.runners[g := w.runners[g].(ended := Some(Landed(w.runners[g], landed)))])
      else w
    case TakesNext(g) => if g in w.runners && w.runners[g].ended.Some? then TakeNext(w, g) else w
    case Holds(key) => w.(q := Held(w.q, key), live := w.live[w.nextHold := key], nextHold := w.nextHold + 1)
    case Releases(h) =>
      if h !in w.live then w
      else
        var key := w.live[h];
        var (q, ready) := Released(w.q, key);
        w.(q := q, live := w.live - {h}, adders := w.adders[w.nextAdder := Adder(key, ready, Of(w.added, key))],
           nextAdder := w.nextAdder + 1)
    case EnqueuesAfterHolds(key, t) =>
      var (q, now) := Checked(w.q, key, t);
      if now then
        w.(q := q, adders := w.adders[w.nextAdder := Adder(key, [t], Of(w.added, key))], nextAdder := w.nextAdder + 1)
      else w.(q := q)
    case AddsOne(i) =>
      if i in w.adders && w.adders[i].tasks != [] then
        var ad := w.adders[i];
        Enqueue(w.(adders := w.adders[i := ad.(tasks := ad.tasks[1..])]), ad.key, ad.tasks[0])
      else w
  }

  function Run(acts: seq<Act>): World
  {
    if acts == [] then IDLE else Do(Run(acts[..|acts| - 1]), acts[|acts| - 1])
  }

  // ---------------------------------------------------------------- what every interleaving keeps

  /** How the last write of these went; true with none. */
  function LastWrite(past: seq<Ran>): bool
  {
    if past == [] then true
    else
      var r := past[|past| - 1];
      if r.task.hook then LastWrite(past[..|past| - 1]) else r.landed
  }

  function Tasks(past: seq<Ran>): seq<Task>
  {
    seq(|past|, i requires 0 <= i < |past| => past[i].task)
  }

  /** A goroutine was told how the last write of its run went, a hook in hand passes it on, and
      its run's tasks are the last the chain has started. */
  ghost predicate RunnerOk(w: World, r: Runner)
  {
    && r.prev == LastWrite(r.past)
    && (r.ended.Some? && r.task.hook ==> r.ended.value == r.prev)
    && var run := Tasks(r.past) + [r.task];
       var s := Of(w.started, r.key);
       |run| <= |s| && s[|s| - |run|..] == run
  }

  ghost predicate HasRunner(runners: map<nat, Runner>, key: string)
  {
    exists g :: g in runners && runners[g].key == key
  }

  /** A chain is busy exactly while one goroutine runs it, an idle one has no line, and what
      was added is what has started and then what is in line. */
  ghost predicate ChainOk(w: World, key: string)
  {
    ChainWith(key in w.q.busy, HasRunner(w.runners, key), Of(w.added, key), Of(w.started, key), Of(w.q.pending, key))
  }

  predicate ChainWith(busy: bool, runs: bool, added: seq<Task>, started: seq<Task>, line: seq<Task>)
  {
    (busy <==> runs) && (!busy ==> line == []) && added == started + line
  }

  ghost predicate OneEach(runners: map<nat, Runner>)
  {
    forall g, h :: g in runners && h in runners && runners[g].key == runners[h].key ==> g == h
  }

  ghost predicate RunsOk(w: World)
  {
    && (forall g :: g in w.runners ==> g < w.next)
    && OneEach(w.runners)
    && (forall key :: ChainOk(w, key))
    && (forall g :: g in w.runners ==> RunnerOk(w, w.runners[g]))
  }

  lemma RunnerAdded(runners: map<nat, Runner>, g: nat, r: Runner, key: string)
    requires g !in runners || runners[g].key == r.key
    ensures HasRunner(runners[g := r], key) <==> HasRunner(runners, key) || key == r.key
  {
    var after := runners[g := r];
    if key == r.key {
      assert g in after && after[g].key == key;
    } else if HasRunner(runners, key) {
      var h :| h in runners && runners[h].key == key;
      assert h in after && after[h].key == key;
    }
  }

  lemma LineGrows(added: seq<Task>, started: seq<Task>, line: seq<Task>, t: Task)
    ensures ChainWith(true, true, added, started, line) ==> ChainWith(true, true, added + [t], started, line + [t])
    ensures ChainWith(false, false, added, started, line) ==> ChainWith(true, true, added + [t], started + [t], line)
    ensures line != [] && ChainWith(true, true, added, started, line) ==>
              ChainWith(true, true, added, started + [line[0]], line[1..])
    ensures line == [] && ChainWith(true, true, added, started, line) ==> ChainWith(false, false, added, started, line)
  {
    if line != [] {
      assert started + [line[0]] + line[1..] == started + line;
    }
    assert started + (line + [t]) == started + line + [t];
  }

  /** What one add does to a chain. */
  lemma EnqueueParts(w: World, key: string, t: Task, k: string)
    requires w.next !in w.runners
    ensures var r := Enqueue(w, key, t);
            && (k != key ==> Of(r.added, k) == Of(w.added, k) && Of(r.started, k) == Of(w.started, k) && Of(r.q.pending, k) == Of(w.q.pending, k))
            && (k == key ==> Of(r.added, k) == Of(w.added, k) + [t])
            && (k == key && k in w.q.busy ==> Of(r.started, k) == Of(w.started, k) && Of(r.q.pending, k) == Of(w.q.pending, k) + [t])
            && (k == key && k !in w.q.busy ==> Of(r.started, k) == Of(w.started, k) + [t] && Of(r.q.pending, k) == Of(w.q.pending, k))
            && (k in r.q.busy <==> k in w.q.busy || k == key)
            && (HasRunner(r.runners, k) <==> HasRunner(w.runners, k) || (k == key && key !in w.q.busy))
  {
    hide HasRunner;
    RunnerAdded(w.runners, w.next, Runner(key, t, true, None, []), k);
  }

  lemma EnqueueChain(w: World, key: string, t: Task, k: string)
    requires ChainOk(w, k) && w.next !in w.runners
    ensures ChainOk(Enqueue(w, key, t), k)
  {
    hide HasRunner, ChainWith, Of, Enqueue;
    EnqueueParts(w, key, t, k);
    ChainParts(w, k);
    if k == key {
      LineGrows(Of(w.added, k), Of(w.started, k), Of(w.q.pending, k), t);
    }
  }

  lemma OfSet(chains: Chains, key: string, line: seq<Task>, k: string)
    ensures Of(chains[key := line], k) == if k == key then line else Of(chains, k)
  {
  }

  lemma ChainParts(w: World, k: string)
    requires ChainOk(w, k)
    ensures k in w.q.busy <==> HasRunner(w.runners, k)
    ensures k !in w.q.busy ==> Of(w.q.pending, k) == []
  {
  }

  lemma EnqueueKeeps(w: World, key: string, t: Task)
    requires RunsOk(w)
    ensures RunsOk(Enqueue(w, key, t))
  {
    hide LastWrite, Tasks, ChainOk, RunnerOk;
    var r := Enqueue(w, key, t);
    forall k
      ensures ChainOk(r, k)
    {
      EnqueueChain(w, key, t, k);
    }
    if key !in w.q.busy {
      NoRunner(w, key);
    }
    forall g | g in r.runners
      ensures RunnerOk(r, r.runners[g])
    {
      if g == w.next {
        NewRunner(r, r.runners[g], Of(w.started, key));
      } else {
        RunnerSame(w, r, w.runners[g], w.runners[g]);
      }
    }
  }

  lemma NoRunner(w: World, key: string)
    requires ChainOk(w, key) && key !in w.q.busy
    ensures forall g :: g in w.runners ==> w.runners[g].key != key
  {
  }

  /** A goroutine whose chain started nothing meanwhile. */
  lemma RunnerSame(w: World, v: World, r: Runner, r': Runner)
    requires RunnerOk(w, r) && Of(v.started, r.key) == Of(w.started, r.key)
    requires r' == r || (r' == r.(ended := r'.ended) && (r'.ended.Some? && r.task.hook ==> r'.ended.value == r.prev))
    ensures RunnerOk(v, r')
  {
  }

  lemma NewRunner(w: World, r: Runner, before: seq<Task>)
    requires r.past == [] && r.prev && r.ended.None? && Of(w.started, r.key) == before + [r.task]
    ensures RunnerOk(w, r)
  {
    assert Tasks(r.past) + [r.task] == [r.task];
  }

  lemma EndKeeps(w: World, g: nat, landed: bool)
    requires RunsOk(w) && g in w.runners && w.runners[g].ended.None?
    ensures RunsOk(Do(w, Ends(g, landed)))
  {
    hide LastWrite, Tasks, ChainOk, RunnerOk;
    var r := Do(w, Ends(g, landed));
    forall k
      ensures ChainOk(r, k)
    {
      ChainSame(w, r, g, k);
    }
    forall h | h in r.runners
      ensures RunnerOk(r, r.runners[h])
    {
      RunnerSame(w, r, w.runners[h], r.runners[h]);
    }
  }

  lemma ChainSame(w: World, r: World, g: nat, k: string)
    requires ChainOk(w, k) && g in w.runners && g in r.runners && r.runners[g].key == w.runners[g].key
    requires r == w.(runners := w.runners[g := r.runners[g]])
    ensures ChainOk(r, k)
  {
    hide HasRunner;
    RunnerAdded(w.runners, g, r.runners[g], k);
    if k == w.runners[g].key {
      assert HasRunner(w.runners, k) by { HasIt(w.runners, g); }
    }
  }

  lemma HasIt(runners: map<nat, Runner>, g: nat)
    requires g in runners
    ensures HasRunner(runners, runners[g].key)
  {
  }

  lemma RunnerGone(runners: map<nat, Runner>, g: nat, k: string)
    requires g in runners && OneEach(runners)
    ensures HasRunner(runners - {g}, k) <==> HasRunner(runners, k) && k != runners[g].key
  {
    var r := runners - {g};
    if HasRunner(runners, k) && k != runners[g].key {
      var h :| h in runners && runners[h].key == k;
      assert h in r && r[h].key == k;
    }
    if HasRunner(r, k) {
      var h :| h in r && r[h].key == k;
      assert h in runners && h != g;
    }
  }

  lemma NextChain(w: World, g: nat, k: string)
    requires ChainOk(w, k) && OneEach(w.runners) && g in w.runners && w.runners[g].ended.Some?
    ensures ChainOk(TakeNext(w, g), k)
  {
    hide HasRunner, ChainWith, OneEach;
    var r, v := w.runners[g], TakeNext(w, g);
    ChainParts(w, k);
    HasIt(w.runners, g);
    RunnerGone(w.runners, g, k);
    if Of(w.q.pending, r.key) != [] {
      RunnerAdded(w.runners, g, v.runners[g], k);
    }
    if k == r.key {
      LineGrows(Of(w.added, k), Of(w.started, k), Of(w.q.pending, k), r.task);
    }
  }

  /** A hook passes on what it was told, so the last write of a run is what the next hears. */
  lemma NextRunner(w: World, v: World, r: Runner, task: Task)
    requires RunnerOk(w, r) && r.ended.Some? && Of(v.started, r.key) == Of(w.started, r.key) + [task]
    ensures RunnerOk(v, Runner(r.key, task, r.ended.value, None, r.past + [Ran(r.task, r.ended.value)]))
  {
    var past := r.past + [Ran(r.task, r.ended.value)];
    assert past[..|past| - 1] == r.past;
    assert Tasks(past) == Tasks(r.past) + [r.task];
    var run, s := Tasks(r.past) + [r.task], Of(w.started, r.key);
    assert (s + [task])[|s| + 1 - (|run| + 1)..] == s[|s| - |run|..] + [task];
  }

  lemma OfEach(w: World, g: nat)
    requires g in w.runners && w.runners[g].ended.Some?
    ensures var v, key := TakeNext(w, g), w.runners[g].key;
            && (forall k :: k != key ==> Of(v.started, k) == Of(w.started, k))
            && (g in v.runners ==>
                  Of(v.started, key) == Of(w.started, key) + [v.runners[g].task] &&
                  v.runners[g] == Runner(key, v.runners[g].task, w.runners[g].ended.value, None,
                    w.runners[g].past + [Ran(w.runners[g].task, w.runners[g].ended.value)]))
            && v.next == w.next && (forall h :: h in v.runners && h != g ==> h in w.runners && v.runners[h] == w.runners[h])
  {
  }

  lemma NextKeeps(w: World, g: nat)
    requires RunsOk(w) && g in w.runners && w.runners[g].ended.Some?
    ensures RunsOk(TakeNext(w, g))
  {
    hide LastWrite, Tasks, ChainOk, RunnerOk, Of, TakeNext;
    var r, v := w.runners[g], TakeNext(w, g);
    OfEach(w, g);
    forall k
      ensures ChainOk(v, k)
    {
      NextChain(w, g, k);
    }
    forall h | h in v.runners
      ensures RunnerOk(v, v.runners[h])
    {
      if h == g {
        NextRunner(w, v, r, v.runners[g].task);
      } else {
        RunnerSame(w, v, w.runners[h], w.runners[h]);
      }
    }
  }

  // ---------------------------------------------------------------- holds

  /** The live holds of a key. */
  function LiveOf(live: map<nat, string>, key: string): set<nat>
  {
    set h | h in live && live[h] == key
  }

  /** The count is the live holds, and tasks wait only while there are some. */
  ghost predicate HoldsOk(w: World, key: string)
  {
    && Count(w.q.holds, key) == |LiveOf(w.live, key)|
    && (Of(w.q.waiting, key) != [] ==> Count(w.q.holds, key) > 0)
  }

  /** A task still to be added comes after all the chain had when no hold was left. */
  ghost predicate AddersOk(w: World)
  {
    && (forall i :: i in w.adders ==> i < w.nextAdder && w.adders[i].before <= Of(w.added, w.adders[i].key))
    && (forall h :: h in w.live ==> h < w.nextHold)
  }

  ghost predicate Inv(w: World)
  {
    RunsOk(w) && AddersOk(w) && forall key :: HoldsOk(w, key)
  }

  lemma HoldTaken(live: map<nat, string>, h: nat, key: string, k: string)
    requires h !in live
    ensures |LiveOf(live[h := key], k)| == |LiveOf(live, k)| + if k == key then 1 else 0
  {
    if k == key {
      assert LiveOf(live[h := key], k) == LiveOf(live, k) + {h};
    } else {
      assert LiveOf(live[h := key], k) == LiveOf(live, k);
    }
  }

  lemma HoldDropped(live: map<nat, string>, h: nat, k: string)
    requires h in live
    ensures |LiveOf(live - {h}, k)| == |LiveOf(live, k)| - if k == live[h] then 1 else 0
  {
    if k == live[h] {
      assert h in LiveOf(live, k);
      assert LiveOf(live - {h}, k) == LiveOf(live, k) - {h};
    } else {
      assert LiveOf(live - {h}, k) == LiveOf(live, k);
    }
  }

  lemma RunsApart(w: World, v: World)
    requires RunsOk(w) && v.runners == w.runners && v.next == w.next && v.added == w.added && v.started == w.started
    requires v.q.busy == w.q.busy && v.q.pending == w.q.pending
    ensures RunsOk(v)
  {
    hide LastWrite, Tasks, HasRunner;
    forall k ensures ChainOk(v, k) {
      assert ChainOk(w, k);
    }
    forall g | g in v.runners ensures RunnerOk(v, v.runners[g]) {
      assert RunnerOk(w, w.runners[g]);
    }
  }

  lemma EnqueueHolds(w: World, key: string, t: Task)
    requires AddersOk(w) && forall k :: HoldsOk(w, k)
    ensures AddersOk(Enqueue(w, key, t)) && forall k :: HoldsOk(Enqueue(w, key, t), k)
  {
    hide LiveOf;
    var r := Enqueue(w, key, t);
    forall k ensures HoldsOk(r, k) { assert HoldsOk(w, k); }
  }

  lemma ReleaseKeeps(w: World, h: nat)
    requires Inv(w) && h in w.live
    ensures Inv(Do(w, Releases(h)))
  {
    hide RunsOk, LiveOf;
    var r := Do(w, Releases(h));
    RunsApart(w, r);
    forall k ensures HoldsOk(r, k) {
      assert HoldsOk(w, k);
      HoldDropped(w.live, h, k);
      LiveCounts(w.live, k);
    }
  }

  lemma LiveCounts(live: map<nat, string>, k: string)
    ensures |LiveOf(live, k)| >= 0
  {
  }

  lemma HoldKeeps(w: World, key: string)
    requires Inv(w)
    ensures Inv(Do(w, Holds(key)))
  {
    hide RunsOk, LiveOf;
    var r := Do(w, Holds(key));
    RunsApart(w, r);
    forall k ensures HoldsOk(r, k) {
      assert HoldsOk(w, k);
      HoldTaken(w.live, w.nextHold, key, k);
    }
  }

  lemma CheckHoldsKept(w: World, key: string, t: Task, k: string)
    requires HoldsOk(w, k)
    ensures HoldsOk(Do(w, EnqueuesAfterHolds(key, t)), k)
  {
    hide LiveOf, Of, Count;
    OfSet(w.q.waiting, key, Of(w.q.waiting, key) + [t], k);
  }

  lemma CheckAdders(w: World, key: string, t: Task)
    requires AddersOk(w)
    ensures AddersOk(Do(w, EnqueuesAfterHolds(key, t)))
  {
    hide Of, Count;
  }

  lemma CheckApart(w: World, key: string, t: Task)
    ensures var v := Do(w, EnqueuesAfterHolds(key, t));
            && v.runners == w.runners && v.next == w.next && v.added == w.added && v.started == w.started
            && v.q.busy == w.q.busy && v.q.pending == w.q.pending
  {
    hide Of, Count, Enqueue, TakeNext, Released, Held;
  }

  lemma CheckKeeps(w: World, key: string, t: Task)
    requires Inv(w)
    ensures Inv(Do(w, EnqueuesAfterHolds(key, t)))
  {
    hide RunsOk, HoldsOk, AddersOk, Do;
    var r := Do(w, EnqueuesAfterHolds(key, t));
    CheckApart(w, key, t);
    RunsApart(w, r);
    CheckAdders(w, key, t);
    forall k ensures HoldsOk(r, k) {
      CheckHoldsKept(w, key, t, k);
    }
  }

  lemma TakeNextHolds(w: World, g: nat)
    requires g in w.runners && w.runners[g].ended.Some? && AddersOk(w) && forall k :: HoldsOk(w, k)
    ensures AddersOk(TakeNext(w, g)) && forall k :: HoldsOk(TakeNext(w, g), k)
  {
    hide LiveOf;
    var r := TakeNext(w, g);
    forall k ensures HoldsOk(r, k) { assert HoldsOk(w, k); }
  }

  lemma AddOneKeeps(w: World, i: nat)
    requires Inv(w) && i in w.adders && w.adders[i].tasks != []
    ensures Inv(Do(w, AddsOne(i)))
  {
    hide RunsOk, LiveOf, Enqueue;
    var ad := w.adders[i];
    var v := w.(adders := w.adders[i := ad.(tasks := ad.tasks[1..])]);
    RunsApart(w, v);
    forall k ensures HoldsOk(v, k) { assert HoldsOk(w, k); }
    EnqueueKeeps(v, ad.key, ad.tasks[0]);
    EnqueueHolds(v, ad.key, ad.tasks[0]);
  }

  lemma EndHolds(w: World, g: nat, landed: bool)
    requires g in w.runners && w.runners[g].ended.None? && AddersOk(w) && forall k :: HoldsOk(w, k)
    ensures AddersOk(Do(w, Ends(g, landed))) && forall k :: HoldsOk(Do(w, Ends(g, landed)), k)
  {
    hide LiveOf;
    var r := Do(w, Ends(g, landed));
    forall k ensures HoldsOk(r, k) { assert HoldsOk(w, k); }
  }

  lemma StepKeeps(w: World, a: Act)
    requires Inv(w)
    ensures Inv(Do(w, a))
  {
    hide RunsOk, AddersOk, HoldsOk, Enqueue, TakeNext;
    match a
    case Enqueues(key, t) =>
      EnqueueKeeps(w, key, t);
      EnqueueHolds(w, key, t);
    case Ends(g, landed) =>
      if g in w.runners && w.runners[g].ended.None? {
        EndKeeps(w, g, landed);
        EndHolds(w, g, landed);
      }
    case TakesNext(g) =>
      if g in w.runners && w.runners[g].ended.Some? {
        NextKeeps(w, g);
        TakeNextHolds(w, g);
      }
    case Holds(key) => HoldKeeps(w, key);
    case Releases(h) => if h in w.live { ReleaseKeeps(w, h); }
    case EnqueuesAfterHolds(key, t) => CheckKeeps(w, key, t);
    case AddsOne(i) => if i in w.adders && w.adders[i].tasks != [] { AddOneKeeps(w, i); }
  }

  lemma {:induction false} RunKeeps(acts: seq<Act>)
    ensures Inv(Run(acts))
  {
    hide Do, Inv;
    if acts == [] {
      IdleKept();
    } else {
      RunKeeps(acts[..|acts| - 1]);
      StepKeeps(Run(acts[..|acts| - 1]), acts[|acts| - 1]);
    }
  }

  lemma IdleKept()
    ensures Inv(IDLE)
  {
  }

  // ---------------------------------------------------------------- the queue's promises

  /** In every interleaving one task of a key runs at a time, tasks start in the order they were
      added, and a busy chain forgets none: what has not started is in line. */
  lemma {:induction false} OneAtATimeInOrder(acts: seq<Act>, key: string)
    ensures var w := Run(acts);
            && OneEach(w.runners)
            && (key in w.q.busy <==> HasRunner(w.runners, key))
            && Of(w.added, key) == Of(w.started, key) + Of(w.q.pending, key)
            && (key !in w.q.busy ==> Of(w.started, key) == Of(w.added, key))
  {
    hide Run, HasRunner;
    RunKeeps(acts);
    assert ChainOk(Run(acts), key);
  }

  /** A hook hears how the last write before it in its busy run went, true with none, whatever
      hooks ran between; and that run is the tail of what the chain has started. */
  lemma {:induction false} HookHearsLastWrite(acts: seq<Act>, g: nat)
    requires g in Run(acts).runners
    ensures var w, r := Run(acts), Run(acts).runners[g];
            && r.prev == LastWrite(r.past)
            && var run, s := Tasks(r.past) + [r.task], Of(w.started, r.key);
               |run| <= |s| && s[|s| - |run|..] == run
  {
    hide Run, LastWrite, Tasks;
    RunKeeps(acts);
    assert RunnerOk(Run(acts), Run(acts).runners[g]);
  }

  /** A task waits for holds only while there is one, and once freed is added after everything
      the chain was given before the last hold was released. */
  lemma {:induction false} WaitersAreHeld(acts: seq<Act>, key: string, i: nat)
    ensures var w := Run(acts);
            && (Of(w.q.waiting, key) != [] ==> exists h :: h in w.live && w.live[h] == key)
            && (i in w.adders && w.adders[i].tasks != [] ==>
                  var ad, r := w.adders[i], Do(w, AddsOne(i));
                  && ad.before <= Of(w.added, ad.key)
                  && Of(r.added, ad.key) == Of(w.added, ad.key) + [ad.tasks[0]])
  {
    hide Run, RunsOk;
    RunKeeps(acts);
    var w := Run(acts);
    assert HoldsOk(w, key);
    if Of(w.q.waiting, key) != [] {
      assert LiveOf(w.live, key) != {};
      var h :| h in LiveOf(w.live, key);
      assert h in w.live && w.live[h] == key;
    }
  }

  /** What the last release frees is every task that waited, in order, and what it is to follow
      is all the chain had been given by then. */
  lemma LastReleaseFrees(acts: seq<Act>, h: nat)
    requires h in Run(acts).live
    ensures var w, r := Run(acts), Do(Run(acts), Releases(h));
            var key := w.live[h];
            && w.nextAdder in r.adders && r.adders[w.nextAdder].before == Of(w.added, key)
            && r.adders[w.nextAdder].tasks ==
                 (if forall o :: o in w.live && w.live[o] == key ==> o == h then Of(w.q.waiting, key) else [])
            && (r.adders[w.nextAdder].tasks != [] ==> Of(r.q.waiting, key) == [])
  {
    hide Run, RunsOk;
    RunKeeps(acts);
    var w := Run(acts);
    var key := w.live[h];
    assert HoldsOk(w, key);
    OnlyHold(w.live, h);
  }

  lemma OnlyHold(live: map<nat, string>, h: nat)
    requires h in live
    ensures |LiveOf(live, live[h])| == 1 <==> forall o :: o in live && live[o] == live[h] ==> o == h
  {
    var s := LiveOf(live, live[h]);
    assert h in s;
    if forall o :: o in live && live[o] == live[h] ==> o == h {
      assert s == {h};
    }
    if |s| == 1 {
      forall o | o in live && live[o] == live[h] ensures o == h {
        assert o in s;
        assert |s - {h}| == 0;
        assert o !in s - {h};
      }
    }
  }

  /** A write that ends answers for itself, a hook for the last write before it. */
  lemma EndAnswers(acts: seq<Act>, g: nat, landed: bool)
    requires g in Run(acts).runners && Run(acts).runners[g].ended.None?
    ensures var w, r := Run(acts).runners[g], Do(Run(acts), Ends(g, landed)).runners[g];
            r == w.(ended := Some(if w.task.hook then LastWrite(w.past) else landed))
  {
    hide Run, LastWrite, Tasks;
    RunKeeps(acts);
    assert RunnerOk(Run(acts), Run(acts).runners[g]);
  }

  // ---------------------------------------------------------------- holders first

  /** The act hands the queue this task. */
  predicate Brings(a: Act, t: Task)
  {
    (a.Enqueues? || a.EnqueuesAfterHolds?) && a.task == t
  }

  /** No chain has been given the task and nobody is about to; it may wait, on key alone. */
  ghost predicate Unadded(w: World, key: string, t: Task, waits: bool)
  {
    && (forall k :: t !in Of(w.added, k))
    && (forall i :: i in w.adders ==> t !in w.adders[i].tasks)
    && (forall k :: t in Of(w.q.waiting, k) ==> k == key && waits)
  }

  lemma EnqueueUnadded(w: World, k: string, x: Task, key: string, t: Task, waits: bool)
    requires Unadded(w, key, t, waits) && x != t
    ensures Unadded(Enqueue(w, k, x), key, t, waits)
  {
    var r := Enqueue(w, k, x);
    forall j ensures t !in Of(r.added, j) {
      OfSet(w.added, k, Of(w.added, k) + [x], j);
    }
  }

  /** A release while another hold of the key lives frees none of its waiting tasks. */
  lemma ReleaseUnadded(w: World, o: nat, key: string, t: Task, h: nat)
    requires Inv(w) && Unadded(w, key, t, true) && o in w.live && h != o && h in w.live && w.live[h] == key
    ensures Unadded(Do(w, Releases(o)), key, t, true)
  {
    hide RunsOk;
    var k, r := w.live[o], Do(w, Releases(o));
    assert HoldsOk(w, k);
    OnlyHold(w.live, o);
    if k == key {
      assert w.live[h] == w.live[o];
    }
    assert t !in Released(w.q, k).1;
    forall j ensures t in Of(r.q.waiting, j) ==> j == key {
      assert t in Of(w.q.waiting, j) ==> j == key;
    }
  }

  /** Until the task's own act it is nowhere; from then, while hold h lives, it waits. */
  lemma StepUnadded(w: World, a: Act, key: string, t: Task, h: nat, waits: bool)
    requires Inv(w) && Unadded(w, key, t, waits) && !Brings(a, t)
    requires waits ==> h in w.live && w.live[h] == key && h in Do(w, a).live
    ensures Unadded(Do(w, a), key, t, waits)
  {
    hide RunsOk, HoldsOk, Of, Enqueue, Unadded, Checked, Released, Held, Added, Next, TakeNext;
    match a
    case Enqueues(k, x) => EnqueueUnadded(w, k, x, key, t, waits);
    case Releases(o) =>
      if o in w.live {
        if waits {
          ReleaseUnadded(w, o, key, t, h);
        } else {
          ReleaseNowhere(w, o, key, t);
        }
      }
    case EnqueuesAfterHolds(k, x) => CheckUnadded(w, k, x, key, t, waits);
    case AddsOne(i) => if i in w.adders && w.adders[i].tasks != [] { AddUnadded(w, i, key, t, waits); }
    case TakesNext(g) => if g in w.runners && w.runners[g].ended.Some? { TakeUnadded(w, TakeNext(w, g), g, key, t, waits); }
    case Ends(g, landed) => SameUnadded(w, Do(w, a), key, t, waits);
    case Holds(k) => HoldUnadded(w, k, key, t, waits);
  }

  lemma SameUnadded(w: World, r: World, key: string, t: Task, waits: bool)
    requires Unadded(w, key, t, waits) && r.added == w.added && r.adders == w.adders && r.q.waiting == w.q.waiting
    ensures Unadded(r, key, t, waits)
  {
  }

  lemma HoldUnadded(w: World, k: string, key: string, t: Task, waits: bool)
    requires Unadded(w, key, t, waits)
    ensures Unadded(Do(w, Holds(k)), key, t, waits)
  {
    SameUnadded(w, Do(w, Holds(k)), key, t, waits);
  }

  lemma TakeUnadded(w: World, r: World, g: nat, key: string, t: Task, waits: bool)
    requires Unadded(w, key, t, waits) && g in w.runners && w.runners[g].ended.Some? && r == TakeNext(w, g)
    ensures Unadded(r, key, t, waits)
  {
    SameUnadded(w, r, key, t, waits);
  }

  lemma CheckUnadded(w: World, k: string, x: Task, key: string, t: Task, waits: bool)
    requires Unadded(w, key, t, waits) && x != t
    ensures Unadded(Do(w, EnqueuesAfterHolds(k, x)), key, t, waits)
  {
    forall j ensures t in Of(Do(w, EnqueuesAfterHolds(k, x)).q.waiting, j) ==> t in Of(w.q.waiting, j) {
      OfSet(w.q.waiting, k, Of(w.q.waiting, k) + [x], j);
    }
  }

  lemma AddUnadded(w: World, i: nat, key: string, t: Task, waits: bool)
    requires Unadded(w, key, t, waits) && i in w.adders && w.adders[i].tasks != []
    ensures Unadded(Do(w, AddsOne(i)), key, t, waits)
  {
    hide Of, Enqueue;
    var ad := w.adders[i];
    assert ad.tasks[0] in ad.tasks;
    var v := w.(adders := w.adders[i := ad.(tasks := ad.tasks[1..])]);
    assert Unadded(v, key, t, waits);
    EnqueueUnadded(v, ad.key, ad.tasks[0], key, t, waits);
  }

  lemma ReleaseNowhere(w: World, o: nat, key: string, t: Task)
    requires Unadded(w, key, t, false) && o in w.live
    ensures Unadded(Do(w, Releases(o)), key, t, false)
  {
    var k, r := w.live[o], Do(w, Releases(o));
    assert t !in Of(w.q.waiting, k);
    forall j ensures t !in Of(r.q.waiting, j) {
      assert t !in Of(w.q.waiting, j);
    }
  }

  lemma BringsToWait(w: World, key: string, t: Task, h: nat)
    requires Inv(w) && Unadded(w, key, t, false) && h in w.live && w.live[h] == key
    ensures Unadded(Do(w, EnqueuesAfterHolds(key, t)), key, t, true)
    ensures Do(w, EnqueuesAfterHolds(key, t)).live == w.live
  {
    hide RunsOk;
    var r := Do(w, EnqueuesAfterHolds(key, t));
    assert HoldsOk(w, key);
    assert h in LiveOf(w.live, key);
    assert Count(w.q.holds, key) > 0;
    forall j ensures t in Of(r.q.waiting, j) ==> j == key {
      OfSet(w.q.waiting, key, Of(w.q.waiting, key) + [t], j);
    }
  }

  /** A hold's number is never given again. */
  lemma StillLive(w: World, a: Act, h: nat)
    ensures h < w.nextHold && h in Do(w, a).live ==> h in w.live && Do(w, a).live[h] == w.live[h]
    ensures Do(w, a).nextHold >= w.nextHold
  {
    hide Checked, Released, Held, Added, Next;
  }

  lemma {:induction false} LiveBefore(acts: seq<Act>, i: nat, h: nat)
    requires i <= |acts| && h in Run(acts[..i]).live && h in Run(acts).live
    ensures h < Run(acts).nextHold && Run(acts).live[h] == Run(acts[..i]).live[h]
    ensures forall k :: i <= k <= |acts| ==> h in Run(acts[..k]).live && Run(acts[..k]).live[h] == Run(acts[..i]).live[h]
  {
    hide Do, RunsOk;
    assert acts[..|acts|] == acts;
    if i < |acts| {
      var n := |acts| - 1;
      NumberedHold(acts[..i], h);
      LaterNumber(acts[..n], i);
      assert acts[..n][..i] == acts[..i];
      StillLive(Run(acts[..n]), acts[n], h);
      LiveBefore(acts[..n], i, h);
      forall k | i <= k <= |acts|
        ensures h in Run(acts[..k]).live && Run(acts[..k]).live[h] == Run(acts[..i]).live[h]
      {
        if k <= n { assert acts[..n][..k] == acts[..k]; }
      }
    }
    NumberedHold(acts, h);
  }

  lemma NumberedHold(acts: seq<Act>, h: nat)
    requires h in Run(acts).live
    ensures h < Run(acts).nextHold
  {
    hide Run, RunsOk;
    RunKeeps(acts);
  }

  lemma {:induction false} LaterNumber(acts: seq<Act>, i: nat)
    requires i <= |acts|
    ensures Run(acts[..i]).nextHold <= Run(acts).nextHold
  {
    hide Do;
    if i == |acts| {
      assert acts[..i] == acts;
    } else {
      var n := |acts| - 1;
      LaterNumber(acts[..n], i);
      assert acts[..n][..i] == acts[..i];
      StillLive(Run(acts[..n]), acts[n], 0);
    }
  }

  /** What a chain has been given it keeps. */
  lemma {:induction false} AddedStays(acts: seq<Act>, j: nat, key: string)
    requires j <= |acts|
    ensures Of(Run(acts[..j]).added, key) <= Of(Run(acts).added, key)
  {
    hide Do, Of;
    if j == |acts| {
      assert acts[..j] == acts;
    } else {
      var n := |acts| - 1;
      AddedStays(acts[..n], j, key);
      assert acts[..n][..j] == acts[..j];
      AddedMore(Run(acts[..n]), acts[n], key);
    }
  }

  lemma AddedMore(w: World, a: Act, key: string)
    ensures Of(w.added, key) <= Of(Do(w, a).added, key)
  {
    hide Checked, Released, Held, Added, Next;
  }

  /** The queue has the task: given to the chain, or waiting for holds, or about to be added. */
  ghost predicate Knows(w: World, key: string, t: Task)
  {
    t in Of(w.added, key) || t in Of(w.q.waiting, key) || exists i :: i in w.adders && w.adders[i].key == key && t in w.adders[i].tasks
  }

  lemma EnqueueKnows(w: World, k: string, x: Task, key: string, t: Task)
    requires AddersOk(w)
    ensures Knows(w, key, t) ==> Knows(Enqueue(w, k, x), key, t)
    ensures Knows(Enqueue(w, k, x), k, x)
  {
    var r := Enqueue(w, k, x);
    OfSet(w.added, k, Of(w.added, k) + [x], key);
    if t !in Of(w.added, key) && t !in Of(w.q.waiting, key) && Knows(w, key, t) {
      var i :| i in w.adders && w.adders[i].key == key && t in w.adders[i].tasks;
      assert i in r.adders && r.adders[i] == w.adders[i];
    }
  }

  lemma ReleaseKnows(w: World, o: nat, key: string, t: Task)
    requires AddersOk(w) && o in w.live && Knows(w, key, t)
    ensures Knows(Do(w, Releases(o)), key, t)
  {
    hide Count;
    var k, r := w.live[o], Do(w, Releases(o));
    assert w.nextAdder !in w.adders;
    assert forall i :: i in w.adders ==> i in r.adders && r.adders[i] == w.adders[i];
    assert r.adders[w.nextAdder].key == k;
  }

  lemma CheckKnows(w: World, k: string, x: Task, key: string, t: Task)
    requires AddersOk(w)
    ensures Knows(w, key, t) ==> Knows(Do(w, EnqueuesAfterHolds(k, x)), key, t)
    ensures Knows(Do(w, EnqueuesAfterHolds(k, x)), k, x)
  {
    hide Count, Of, Knows;
    var r := Do(w, EnqueuesAfterHolds(k, x));
    if Checked(w.q, k, x).1 {
      NewAdderKnows(w, r, k, x, key, t);
    } else {
      WaitingKnows(w, r, k, x, key, t);
    }
  }

  lemma NewAdderKnows(w: World, r: World, k: string, x: Task, key: string, t: Task)
    requires AddersOk(w) && r.added == w.added && r.q.waiting == w.q.waiting
    requires exists ran :: r.adders == w.adders[w.nextAdder := Adder(k, [x], ran)]
    ensures Knows(w, key, t) ==> Knows(r, key, t)
    ensures Knows(r, k, x)
  {
    hide Of;
    assert w.nextAdder !in w.adders;
    assert forall i :: i in w.adders ==> i in r.adders && r.adders[i] == w.adders[i];
    assert r.adders[w.nextAdder].key == k && x in r.adders[w.nextAdder].tasks;
  }

  lemma WaitingKnows(w: World, r: World, k: string, x: Task, key: string, t: Task)
    requires r.added == w.added && r.adders == w.adders && r.q.waiting == w.q.waiting[k := Of(w.q.waiting, k) + [x]]
    ensures Knows(w, key, t) ==> Knows(r, key, t)
    ensures Knows(r, k, x)
  {
    OfSet(w.q.waiting, k, Of(w.q.waiting, k) + [x], key);
  }

  lemma AddKnows(w: World, i: nat, key: string, t: Task)
    requires AddersOk(w) && i in w.adders && w.adders[i].tasks != [] && Knows(w, key, t)
    ensures Knows(Do(w, AddsOne(i)), key, t)
  {
    hide Of, Enqueue;
    var ad := w.adders[i];
    var v := w.(adders := w.adders[i := ad.(tasks := ad.tasks[1..])]);
    EnqueueKnows(v, ad.key, ad.tasks[0], key, t);
    if t !in Of(w.added, key) && t !in Of(w.q.waiting, key) {
      var j :| j in w.adders && w.adders[j].key == key && t in w.adders[j].tasks;
      if j != i {
        assert v.adders[j] == w.adders[j];
      } else if t != ad.tasks[0] {
        assert t in v.adders[i].tasks;
      }
    }
  }

  lemma StepKnows(w: World, a: Act, key: string, t: Task)
    requires Inv(w)
    ensures Knows(w, key, t) ==> Knows(Do(w, a), key, t)
    ensures Brings(a, t) && a.key == key ==> Knows(Do(w, a), key, t)
  {
    hide RunsOk, HoldsOk, AddersOk, Of, Enqueue, Knows, Checked, Released, Held, Added, Next, TakeNext;
    match a
    case Enqueues(k, x) => EnqueueKnows(w, k, x, key, t);
    case Releases(o) => if o in w.live && Knows(w, key, t) { ReleaseKnows(w, o, key, t); }
    case EnqueuesAfterHolds(k, x) => CheckKnows(w, k, x, key, t);
    case AddsOne(i) => if i in w.adders && w.adders[i].tasks != [] && Knows(w, key, t) { AddKnows(w, i, key, t); }
    case TakesNext(g) => if g in w.runners && w.runners[g].ended.Some? { TakeKnows(w, TakeNext(w, g), g, key, t); }
    case Ends(g, landed) => SameKnows(w, Do(w, a), key, t);
    case Holds(k) => HoldKnows(w, k, key, t);
  }

  lemma SameKnows(w: World, r: World, key: string, t: Task)
    requires r.added == w.added && r.adders == w.adders && r.q.waiting == w.q.waiting
    ensures Knows(w, key, t) ==> Knows(r, key, t)
  {
  }

  lemma HoldKnows(w: World, k: string, key: string, t: Task)
    ensures Knows(w, key, t) ==> Knows(Do(w, Holds(k)), key, t)
  {
    SameKnows(w, Do(w, Holds(k)), key, t);
  }

  lemma TakeKnows(w: World, r: World, g: nat, key: string, t: Task)
    requires g in w.runners && w.runners[g].ended.Some? && r == TakeNext(w, g)
    ensures Knows(w, key, t) ==> Knows(r, key, t)
  {
    SameKnows(w, r, key, t);
  }

  /** No hold of the key is alive, and nobody is about to give its chain a task. */
  ghost predicate AllGiven(w: World, key: string) {
    && (forall h :: h in w.live ==> w.live[h] != key)
    && forall j :: j in w.adders && w.adders[j].key == key ==> w.adders[j].tasks == []
  }

  /** No task is lost: once brought it has been given to its chain, or waits while some hold of its
      key lives, or is about to be added; and once nobody is about to add, no hold of the key
      lives and the chain is idle, it has started. */
  lemma {:induction false} NoneIsLost(acts: seq<Act>, i: nat, key: string, t: Task)
    requires i < |acts| && Brings(acts[i], t) && acts[i].key == key
    ensures var w := Run(acts);
            && Knows(w, key, t)
            && (AllGiven(w, key) && key !in w.q.busy ==> t in Of(w.started, key))
  {
    hide Do, Inv, Knows;
    var n := |acts| - 1;
    RunKeeps(acts[..n]);
    if i < n {
      NoneIsLost(acts[..n], i, key, t);
    }
    StepKnows(Run(acts[..n]), acts[n], key, t);
    OneAtATimeInOrder(acts, key);
    WaitersAreHeld(acts, key, 0);
    KnownEnds(Run(acts), key, t);
  }

  lemma KnownEnds(w: World, key: string, t: Task)
    requires Knows(w, key, t)
    ensures Of(w.q.waiting, key) == [] && (forall j :: j in w.adders && w.adders[j].key == key ==> w.adders[j].tasks == []) ==>
              t in Of(w.added, key)
  {
  }

  /** Brought at step i with hold h of its key live, and never else, the task has been given to
      no chain as long as h lives. */
  lemma {:induction false} WaitsWhileHeld(acts: seq<Act>, i: nat, key: string, t: Task, h: nat)
    requires i < |acts| ==> acts[i] == EnqueuesAfterHolds(key, t)
    requires forall k :: 0 <= k < |acts| && k != i ==> !Brings(acts[k], t)
    requires i < |acts| ==> h in Run(acts[..i]).live && Run(acts[..i]).live[h] == key && h in Run(acts).live
    ensures Unadded(Run(acts), key, t, i < |acts|)
  {
    hide Do, Unadded, Inv;
    if acts == [] {
      NothingYet(key, t);
    } else {
      var n := |acts| - 1;
      var w := Run(acts[..n]);
      RunKeeps(acts[..n]);
      if i < |acts| {
        LiveBefore(acts, i, h);
        assert acts[..n][..i] == acts[..i];
      }
      WaitsWhileHeld(acts[..n], i, key, t, h);
      if i == n {
        BringsToWait(w, key, t, h);
      } else {
        StepUnadded(w, acts[n], key, t, h, i < n);
      }
    }
  }

  lemma NothingYet(key: string, t: Task)
    ensures Unadded(IDLE, key, t, false)
  {
  }

  /** A task that waits for holds follows its holders' writes: brought at step i while hold h of
      its key lives, wherever it starts in whatever run, everything the chain was given while h
      still lived, at step j or before, has started before it and in that order. */
  lemma {:induction false} HoldersComeFirst(acts: seq<Act>, i: nat, j: nat, key: string, t: Task, h: nat, p: nat)
    requires i <= j <= |acts| && i < |acts| && acts[i] == EnqueuesAfterHolds(key, t)
    requires forall k :: 0 <= k < j && k != i ==> !Brings(acts[k], t)
    requires h in Run(acts[..i]).live && Run(acts[..i]).live[h] == key && h in Run(acts[..j]).live
    requires p < |Of(Run(acts).started, key)| && Of(Run(acts).started, key)[p] == t
    ensures Of(Run(acts[..j]).added, key) <= Of(Run(acts).started, key)[..p]
  {
    hide Run, Do, Inv;
    assert acts[..j][..i] == acts[..i];
    WaitsWhileHeld(acts[..j], i, key, t, h);
    var given := Of(Run(acts[..j]).added, key);
    assert t !in given;
    AddedStays(acts, j, key);
    OneAtATimeInOrder(acts, key);
    var s := Of(Run(acts).started, key);
    assert Of(Run(acts).added, key)[p] == t;
    assert forall q :: 0 <= q < |given| ==> given[q] in given && given[q] == Of(Run(acts).added, key)[q];
  }
}
