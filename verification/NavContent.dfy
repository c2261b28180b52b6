/** client/nav/level.go: what a level is opened with. A run keeps, beside the machine's state,
    what each level was entered by, asked for and answered, and the levels installed; what is
    installed is then read off what was answered. */
module NavContent {
  import opened Options
  import opened NavLevel

  datatype Ask = Ask(id: string, layout: bool)

  /** What a level was told: the door it was entered by, whether its row was held then, the rows
      it was given, the layout it read, and what it asked for, in order. */
  datatype Log = Log(door: string, boot: bool, held: bool, rows: seq<Tile>, body: Option<Answer>, asked: seq<Ask>)

  /** The door was a link: the level is the link's target, one hop on. */
  predicate Hops(lg: Log)
  {
    lg.rows != [] && lg.rows[0].leafLink
  }

  function OwnId(lg: Log): string
  {
    if Hops(lg) then lg.rows[0].contentId else lg.door
  }

  /** The row the level opens by, once it is known. */
  function Opens(lg: Log): Option<Tile>
  {
    var k := if Hops(lg) then 1 else 0;
    if k < |lg.rows| then Some(lg.rows[k]) else None
  }

  /** A reload does not open a row that is no workspace. */
  predicate Refuses(lg: Log)
  {
    lg.boot && Opens(lg).Some? && !Opens(lg).value.workspace
  }

  /** The row says there is a layout to read. */
  predicate Arranged(lg: Log)
  {
    Opens(lg).Some? && !Refuses(lg) && Opens(lg).value.blob != 0
  }

  /** All the level opens with has been answered. */
  predicate Complete(lg: Log)
  {
    Opens(lg).Some? && !Refuses(lg) && (Arranged(lg) ==> lg.body.Some?)
  }

  /** The door's row, unless it was held; then a link's target's; then the layout. */
  function Asks(lg: Log): seq<Ask>
  {
    (if lg.held then [] else [Ask(lg.door, false)]) +
    (if Hops(lg) then [Ask(lg.rows[0].contentId, false)] else []) +
    (if Arranged(lg) then [Ask(OwnId(lg), true)] else [])
  }

  /** The level is what its log says. */
  ghost predicate Matches(ld: Level, lg: Log)
  {
    && ld.boot == lg.boot && ld.followed == Hops(lg) && ld.tileId == OwnId(lg)
    && |lg.rows| <= (if Hops(lg) then 2 else 1) && lg.asked == Asks(lg)
    && ld.tile == (if Refuses(lg) then None else Opens(lg))
    && ld.capture == (!ld.boot && ld.tile.Some? && !Arranged(lg))
    && match lg.body
       case Some(a) =>
         && Arranged(lg) && ld.data == a.data && ld.basis == a.version
         && ld.readOnly == !a.decodes && ld.tree == Some(if a.decodes then Decoded(a.data) else Fallback)
       case None =>
         && ld.data == "" && !ld.readOnly && ld.basis == (if ld.tile.Some? then ld.tile.value.version else 0)
         && ld.tree == (if ld.boot && ld.tile.Some? && !Arranged(lg) then Some(Fallback) else None)
  }

  // ---------------------------------------------------------------- effects

  function AsksIn(es: seq<Effect>): seq<Ask>
  {
    if es == [] then []
    else
      var e := es[|es| - 1];
      AsksIn(es[..|es| - 1]) + if e.Await? then [Ask(e.id, e.layout)] else []
  }

  function LevelsIn(es: seq<Effect>): seq<Level>
  {
    if es == [] then []
    else
      var e := es[|es| - 1];
      LevelsIn(es[..|es| - 1]) + if e.InstallLevel? then [e.level] else []
  }

  /** The panes whose own place is put back. */
  function PlacesIn(es: seq<Effect>): seq<string>
  {
    if es == [] then []
    else
      var e := es[|es| - 1];
      PlacesIn(es[..|es| - 1]) + if e.InstallPlace? then [e.pane] else []
  }

  lemma {:induction false} ReadConcat(a: seq<Effect>, b: seq<Effect>)
    ensures AsksIn(a + b) == AsksIn(a) + AsksIn(b)
    ensures LevelsIn(a + b) == LevelsIn(a) + LevelsIn(b)
    ensures PlacesIn(a + b) == PlacesIn(a) + PlacesIn(b)
  {
    if b == [] {
      assert a + b == a;
    } else {
      ReadConcat(a, b[..|b| - 1]);
      assert (a + b)[..|a + b| - 1] == a + b[..|b| - 1];
    }
  }

  lemma ReadOne(e: Effect)
    ensures AsksIn([e]) == if e.Await? then [Ask(e.id, e.layout)] else []
    ensures LevelsIn([e]) == if e.InstallLevel? then [e.level] else []
    ensures PlacesIn([e]) == if e.InstallPlace? then [e.pane] else []
  {
    assert [e][..0] == [];
    assert AsksIn([e][..0]) == [] && LevelsIn([e][..0]) == [] && PlacesIn([e][..0]) == [];
  }

  /** The effects of a step ask for and show these. */
  ghost predicate Reads(es: seq<Effect>, asks: seq<Ask>, levels: seq<Level>, places: seq<string>)
  {
    AsksIn(es) == asks && LevelsIn(es) == levels && PlacesIn(es) == places
  }

  lemma ReadsMore(e: Effect, es: seq<Effect>)
    requires !e.Await? && !e.InstallLevel? && !e.InstallPlace?
    ensures Reads([e] + es, AsksIn(es), LevelsIn(es), PlacesIn(es))
  {
    ReadOne(e);
    ReadConcat([e], es);
  }

  lemma ReadsNone()
    ensures Reads([], [], [], [])
  {
  }

  lemma SwapReads(s: State, ld: Level)
    ensures Reads(InstallData(s, ld).effects, [], [ld], [])
  {
    var es := InstallData(s, ld).effects;
    var tail := [InstallLevel(ld)] + [RefreshOverlay, ScheduleUrl];
    assert es == [CancelTransition] + ([CloseMenu] + ([FlushLayout] + tail));
    ReadsNone();
    ReadsMore(ScheduleUrl, []);
    ReadsMore(RefreshOverlay, [ScheduleUrl]);
    assert [ScheduleUrl] + [] == [ScheduleUrl] && [RefreshOverlay] + [ScheduleUrl] == [RefreshOverlay, ScheduleUrl];
    ReadOne(InstallLevel(ld));
    ReadConcat([InstallLevel(ld)], [RefreshOverlay, ScheduleUrl]);
    ReadsMore(FlushLayout, tail);
    ReadsMore(CloseMenu, [FlushLayout] + tail);
    ReadsMore(CancelTransition, [CloseMenu] + ([FlushLayout] + tail));
  }

  // ---------------------------------------------------------------- one step of a level

  /** A report to a join: its last arm puts the origin pane's place back and, unless one failed,
      installs the join's level; an earlier one does nothing to be seen. */
  lemma ReportReads(s: State, bid: nat, failed: bool)
    requires bid in s.barriers ==> s.barriers[bid].level in s.levels
    ensures var out := Reports(s, bid, failed);
            && out.s == s.(barriers := out.s.barriers)
            && if bid !in s.barriers then out.s.barriers == s.barriers && Reads(out.effects, [], [], [])
               else
                 var b, ld := s.barriers[bid], s.levels[s.barriers[bid].level];
                 if b.arms > 1 then
                   && out.s.barriers == s.barriers[bid := b.(failed := b.failed || failed, arms := b.arms - 1)]
                   && Reads(out.effects, [], [], [])
                 else
                   && out.s.barriers == s.barriers - {bid}
                   && Reads(out.effects, [], if b.failed || failed then [] else [ld], [ld.pane])
  {
    hide AsksIn, LevelsIn, PlacesIn, InstallData;
    JoinedState(s, bid, failed);
    ReadsNone();
    if bid in s.barriers && s.barriers[bid].arms <= 1 {
      var ld := s.levels[s.barriers[bid].level];
      var r := Arrive(s, bid, failed).0;
      var swap := if s.barriers[bid].failed || failed then [] else InstallData(r, ld).effects;
      SwapReads(r, ld);
      ReadOne(InstallPlace(ld.pane));
      ReadConcat([InstallPlace(ld.pane)], swap);
    }
  }

  /** What a level does with what it was told: it waits on for what it asks, or is done. */
  ghost predicate Goes(s: State, out: Out, l: nat, lg: Log, asks: seq<Ask>)
    requires l in s.levels
  {
    && l in out.s.levels && out.s.levels == s.levels[l := out.s.levels[l]]
    && Matches(out.s.levels[l], lg) && out.s.levels[l].barrier == s.levels[l].barrier && out.s.levels[l].pane == s.levels[l].pane && out.s.levels[l].boot == s.levels[l].boot
    && if asks != [] then WaitsFor(s, out, l, lg) && Reads(out.effects, asks, [], [])
       else out.s.conts == s.conts && Settles(s, out, l, lg)
  }

  ghost predicate WaitsFor(s: State, out: Out, l: nat, lg: Log)
  {
    && s.next + 1 !in s.conts && s.next + 1 in out.s.conts && out.s.barriers == s.barriers
    && out.s.conts == s.conts[s.next + 1 := out.s.conts[s.next + 1]]
    && Awaits(out.s.conts[s.next + 1], l, lg)
  }

  /** The continuation waits for what is still to be answered. */
  predicate Awaits(c: Cont, l: nat, lg: Log)
  {
    && c.level == Some(l) && lg.body.None?
    && ((c.step == AwaitTile && Opens(lg).None?) || (c.step == AwaitBody && Arranged(lg)))
  }

  /** The level is installed, or its join told, whether all was answered. */
  ghost predicate Settles(s: State, out: Out, l: nat, lg: Log)
    requires l in s.levels && l in out.s.levels
  {
    var ld := out.s.levels[l];
    if ld.boot then out.s.barriers == s.barriers && Reads(out.effects, [], if Complete(lg) then [ld] else [], [])
    else exists failed: bool :: SettlesWith(s, out, ld, lg, failed)
  }

  ghost predicate SettlesWith(s: State, out: Out, ld: Level, lg: Log, failed: bool)
  {
    (failed || Complete(lg)) &&
    if ld.barrier !in s.barriers then out.s.barriers == s.barriers && Reads(out.effects, [], [], [])
    else
      var b := s.barriers[ld.barrier];
      if b.arms > 1 then
        out.s.barriers == s.barriers[ld.barrier := b.(failed := b.failed || failed, arms := b.arms - 1)] && Reads(out.effects, [], [], [])
      else
        out.s.barriers == s.barriers - {ld.barrier} &&
        Reads(out.effects, [], if b.failed || failed then [] else [ld], [ld.pane])
  }

  /** A level whose fetch is in hand is its join's. */
  ghost predicate Holds(s: State, l: nat)
  {
    && Numbered(s) && l in s.levels
    && (s.levels[l].barrier in s.barriers ==> s.barriers[s.levels[l].barrier].level == l)
  }

  lemma ReadySettles(s: State, l: nat, lg: Log)
    requires Holds(s, l) && Matches(s.levels[l], lg) && Complete(lg)
    ensures Goes(s, Ready(s, l), l, lg, [])
  {
    hide Matches, Reads, Complete;
    assert s.levels == s.levels[l := s.levels[l]];
    if s.levels[l].boot {
      SwapReads(s, s.levels[l]);
      InstallState(s, s.levels[l]);
    } else {
      ReportReads(s, s.levels[l].barrier, false);
      assert SettlesWith(s, Ready(s, l), s.levels[l], lg, false);
    }
  }

  lemma FailsSettles(s: State, l: nat, what: string, lg: Log)
    requires Holds(s, l) && Matches(s.levels[l], lg) && !Complete(lg)
    ensures Goes(s, Fails(s, l, what), l, lg, [])
  {
    hide Matches, Complete, AsksIn, LevelsIn, PlacesIn, Reports;
    assert s.levels == s.levels[l := s.levels[l]];
    var report := Report("rpc:" + what);
    if s.levels[l].boot {
      ReadOne(report);
    } else {
      ReportReads(s, s.levels[l].barrier, true);
      ReadsMore(report, Reports(s, s.levels[l].barrier, true).effects);
      assert SettlesWith(s, Fails(s, l, what), s.levels[l], lg, true);
    }
  }

  lemma WaitGoes(s: State, l: nat, step: StepKind, lg: Log, ask: Ask)
    requires Holds(s, l) && Matches(s.levels[l], lg) && ask == Ask(s.levels[l].tileId, step == AwaitBody) && lg.body.None?
    requires (step == AwaitTile && Opens(lg).None?) || (step == AwaitBody && Arranged(lg))
    ensures Goes(s, Out(Mint(s, Cont(step, s.levels[l].barrier, s.levels[l].pane, Some(l))),
                   [Await(s.next + 1, s.levels[l].tileId, step == AwaitBody)]), l, lg, [ask])
  {
    hide Matches;
    assert s.levels == s.levels[l := s.levels[l]];
    ReadOne(Await(s.next + 1, s.levels[l].tileId, step == AwaitBody));
  }

  /** What is done by a level that has learnt something is done by the level. */
  lemma LearntGoes(s: State, l: nat, ld: Level, out: Out, lg: Log, asks: seq<Ask>)
    requires l in s.levels && ld.barrier == s.levels[l].barrier && ld.pane == s.levels[l].pane && ld.boot == s.levels[l].boot
    requires Goes(s.(levels := s.levels[l := ld]), out, l, lg, asks)
    ensures Goes(s, out, l, lg, asks)
  {
    hide Matches, Reads, SettlesWith;
    assert s.levels[l := ld][l := out.s.levels[l]] == s.levels[l := out.s.levels[l]];
    if asks == [] && !out.s.levels[l].boot {
      var failed :| SettlesWith(s.(levels := s.levels[l := ld]), out, out.s.levels[l], lg, failed);
      assert SettlesWith(s, out, out.s.levels[l], lg, failed) by { SettlesAlike(s, l, ld, out, out.s.levels[l], lg, failed); }
    }
  }

  lemma SettlesAlike(s: State, l: nat, ld: Level, out: Out, after: Level, lg: Log, failed: bool)
    requires SettlesWith(s.(levels := s.levels[l := ld]), out, after, lg, failed)
    ensures SettlesWith(s, out, after, lg, failed)
  {
    hide Reads;
  }

  /** The log after a row, with what it made the level ask for. */
  function Told(was: Log, t: Tile): Log
  {
    var lg := was.(rows := was.rows + [t]);
    lg.(asked := Asks(lg))
  }

  /** What a level makes of a row. */
  function Learns(ld: Level, t: Tile): Level
  {
    if t.leafLink && !ld.followed then ld.(followed := true, tileId := t.contentId)
    else if ld.boot && !t.workspace then ld
    else
      var seen := ld.(tile := Some(t), basis := t.version);
      if t.blob != 0 then seen else if ld.boot then seen.(tree := Some(Fallback)) else seen.(capture := true)
  }

  lemma RowMatches(ld: Level, was: Log, t: Tile)
    requires Matches(ld, was) && Opens(was).None? && was.body.None?
    ensures var lg := Told(was, t);
            && Matches(Learns(ld, t), lg) && lg.body.None?
            && if t.leafLink && !ld.followed then Opens(lg).None? && lg.asked == was.asked + [Ask(t.contentId, false)]
               else if ld.boot && !t.workspace then Refuses(lg) && lg.asked == was.asked
               else if t.blob == 0 then Complete(lg) && lg.asked == was.asked
               else Arranged(lg) && lg.asked == was.asked + [Ask(ld.tileId, true)]
  {
    assert was.rows == [] || (|was.rows| == 1 && was.rows[0].leafLink);
    RowAsks(ld, was, t);
  }

  /** A row: one hop along a link, or the row the level opens by. */
  lemma RowGoes(s: State, l: nat, t: Tile, was: Log)
    requires Holds(s, l) && Matches(s.levels[l], was) && Opens(was).None? && was.body.None?
    ensures var lg := Told(was, t);
            was.asked <= lg.asked && Goes(s, Row(s, l, t), l, lg, lg.asked[|was.asked|..])
  {
    hide Goes, Ready, Matches, Opens, Complete, Arranged, Refuses, Told;
    var ld, lg := s.levels[l], Told(was, t);
    RowMatches(ld, was, t);
    var known := Learns(ld, t);
    var v := s.(levels := s.levels[l := known]);
    assert (was.asked + [Ask(t.contentId, false)])[|was.asked|..] == [Ask(t.contentId, false)];
    assert (was.asked + [Ask(ld.tileId, true)])[|was.asked|..] == [Ask(ld.tileId, true)];
    if t.leafLink && !ld.followed {
      WaitGoes(v, l, AwaitTile, lg, Ask(t.contentId, false));
      assert Goes(v, Row(s, l, t), l, lg, [Ask(t.contentId, false)]);
    } else if ld.boot && !t.workspace {
      assert s.levels == v.levels;
      assert was.asked[|was.asked|..] == [];
      RefusalGoes(s, l, lg);
      assert Goes(v, Row(s, l, t), l, lg, []);
    } else if t.blob == 0 {
      assert was.asked[|was.asked|..] == [];
      ReadySettles(v, l, lg);
      assert Goes(v, Row(s, l, t), l, lg, []);
    } else {
      WaitGoes(v, l, AwaitBody, lg, Ask(ld.tileId, true));
      assert Goes(v, Row(s, l, t), l, lg, [Ask(ld.tileId, true)]);
    }
    LearntGoes(s, l, known, Row(s, l, t), lg, lg.asked[|was.asked|..]);
  }

  /** The one thing a row has asked for. */
  lemma RowAsks(ld: Level, was: Log, t: Tile)
    requires Matches(ld, was) && Opens(was).None?
    ensures var lg := was.(rows := was.rows + [t]);
            Asks(lg) == was.asked +
              (if t.leafLink && !ld.followed then [Ask(t.contentId, false)]
               else if (ld.boot && !t.workspace) || t.blob == 0 then [] else [Ask(ld.tileId, true)])
  {
    var lg := was.(rows := was.rows + [t]);
    assert was.rows == [] || (|was.rows| == 1 && was.rows[0].leafLink);
  }

  lemma RefusalGoes(s: State, l: nat, lg: Log)
    requires Holds(s, l) && Matches(s.levels[l], lg) && s.levels[l].boot && Refuses(lg)
    ensures Goes(s, Out(s, [Report("layout:" + s.levels[l].tileId)]), l, lg, [])
  {
    hide Matches;
    assert s.levels == s.levels[l := s.levels[l]];
    ReadOne(Report("layout:" + s.levels[l].tileId));
  }

  /** A layout read, or not. */
  lemma BodyGoes(s: State, l: nat, a: Answer, was: Log)
    requires Holds(s, l) && Matches(s.levels[l], was) && Arranged(was) && was.body.None?
    ensures Goes(s, Body(s, l, a), l, if a.ok then was.(body := Some(a)) else was, [])
  {
    hide Goes, Ready, Fails, AsksIn, LevelsIn, PlacesIn;
    if !a.ok {
      FailsSettles(s, l, "ReadContent", was);
    } else {
      var lg := was.(body := Some(a));
      var ld := s.levels[l].(data := a.data, basis := a.version,
        tree := Some(if a.decodes then Decoded(a.data) else Fallback), readOnly := !a.decodes);
      var v := s.(levels := s.levels[l := ld]);
      ReadySettles(v, l, lg);
      LearntGoes(s, l, ld, Ready(v, l), lg, []);
      if !a.decodes {
        ReportedGoes(s, Ready(v, l), l, lg, Report("layout:" + ld.tileId));
      } else {
        assert [] + Ready(v, l).effects == Ready(v, l).effects;
      }
    }
  }

  lemma ReportedGoes(s: State, out: Out, l: nat, lg: Log, e: Effect)
    requires l in s.levels && Goes(s, out, l, lg, []) && !e.Await? && !e.InstallLevel? && !e.InstallPlace?
    ensures Goes(s, Out(out.s, [e] + out.effects), l, lg, [])
  {
    hide Matches, AsksIn, LevelsIn, PlacesIn, Complete;
    ReadsMore(e, out.effects);
    if !out.s.levels[l].boot {
      var failed :| SettlesWith(s, out, out.s.levels[l], lg, failed);
      assert SettlesWith(s, Out(out.s, [e] + out.effects), out.s.levels[l], lg, failed);
    }
  }

  // ---------------------------------------------------------------- runs

  /** A run with what its levels were told, and the levels installed, in order. */
  datatype Seen = Seen(w: World, logs: map<nat, Log>, shown: seq<Level>)

  ghost function EffectsOf(s: State, act: Act): seq<Effect>
    requires Inv(s)
  {
    match act
    case Entered(pane, door, held) => Enter(s, pane, door, held).effects
    case Booted(tileId) => Boot(s, tileId).effects
    case Landed(tok) => Land(s, tok).effects
    case Resumed(tok, a) => Resume(s, tok, a).effects
    case _ => []
  }

  /** What an answer tells a level, by what it awaited. */
  function Answers(lg: Log, step: StepKind, a: Answer): Log
  {
    if step == AwaitTile && a.ok && a.tile.Some? then lg.(rows := lg.rows + [a.tile.value])
    else if step == AwaitBody && a.ok then lg.(body := Some(a))
    else lg
  }

  ghost function See(v: Seen, act: Act): Seen
    requires Inv(v.w.s)
  {
    var s, es := v.w.s, EffectsOf(v.w.s, act);
    var logs :=
      match act
      case Entered(_, door, held) =>
        var row := held.Some? && held.value.id == door.id;
        v.logs[s.slots := Log(door.id, false, row, if row then [held.value] else [], None, AsksIn(es))]
      case Booted(tileId) => v.logs[s.slots := Log(tileId, true, false, [], None, AsksIn(es))]
      case Resumed(tok, a) =>
        if tok in s.conts && s.conts[tok].level.Some? && s.conts[tok].level.value in v.logs then
          var l := s.conts[tok].level.value;
          var lg := Answers(v.logs[l], s.conts[tok].step, a);
          v.logs[l := lg.(asked := lg.asked + AsksIn(es))]
        else v.logs
      case _ => v.logs;
    Seen(Do(v.w, act), logs, v.shown + LevelsIn(es))
  }

  /** A run watched from nothing, every token delivered by its own route. */
  ghost predicate Watched(acts: seq<Act>, v: Seen)
  {
    if acts == [] then v == Seen(World(START, map[], []), map[], [])
    else
      exists before :: Watched(acts[..|acts| - 1], before) && Inv(before.w.s) && Routed(before.w.s, acts[|acts| - 1]) &&
        v == See(before, acts[|acts| - 1])
  }

  /** An installed level is one of these, all of it answered. */
  ghost predicate Shown(levels: map<nat, Level>, logs: map<nat, Log>, ld: Level, but: Option<nat>)
  {
    exists l :: l in levels && l in logs && levels[l] == ld && Complete(logs[l]) && but != Some(l)
  }

  /** A join not failed whose fetch is over has a level all of which was answered. */
  ghost predicate Answered(s: State, logs: map<nat, Log>, b: nat)
    requires b in s.barriers
  {
    !s.barriers[b].failed && (forall t :: t in s.conts ==> s.conts[t].level != Some(s.barriers[b].level)) ==>
      s.barriers[b].level in logs && Complete(logs[s.barriers[b].level])
  }

  /** Every level but one is its log's, every continuation awaits what its level lacks, and every
      join but one is answered when its fetch is over. */
  ghost predicate Content(s: State, logs: map<nat, Log>, shown: seq<Level>, but: Option<nat>, join: nat)
  {
    && logs.Keys == s.levels.Keys
    && (forall l :: l in logs && but != Some(l) ==> Matches(s.levels[l], logs[l]))
    && (forall t :: t in s.conts && s.conts[t].level.Some? ==>
          s.conts[t].level.value in logs && Awaits(s.conts[t], s.conts[t].level.value, logs[s.conts[t].level.value]))
    && (forall b :: b in s.barriers && b != join ==> Answered(s, logs, b))
    && (forall ld :: ld in shown ==> Shown(s.levels, logs, ld, but))
  }

  lemma HandHolds(s: State, l: nat)
    requires FetchInHand(s, l)
    ensures Holds(s, l) && (s.levels[l].boot <==> s.levels[l].barrier == 0)
    ensures forall t :: t in s.conts ==> s.conts[t].level != Some(l)
    ensures forall b :: b in s.barriers && b != s.levels[l].barrier ==> s.barriers[b].level != l
    ensures 0 !in s.barriers
  {
    HandNumbered(s, l);
    forall b | b in s.barriers && b != s.levels[l].barrier ensures s.barriers[b].level != l {
      assert JoinOk(s, b);
    }
  }

  lemma ShownStays(levels: map<nat, Level>, logs: map<nat, Log>, ld: Level, l: nat, after: Level, lg: Log)
    requires Shown(levels, logs, ld, Some(l))
    ensures Shown(levels[l := after], logs[l := lg], ld, None)
  {
    var k :| k in levels && k in logs && levels[k] == ld && Complete(logs[k]) && Some(l) != Some(k);
    assert levels[l := after][k] == ld && logs[l := lg][k] == logs[k];
  }

  lemma ShownNow(levels: map<nat, Level>, logs: map<nat, Log>, l: nat)
    requires l in levels && l in logs && Complete(logs[l])
    ensures Shown(levels, logs, levels[l], None)
  {
  }

  /** A level that goes on, or settles, leaves everything its log's. */
  lemma GoesKeeps(s: State, logs: map<nat, Log>, shown: seq<Level>, out: Out, l: nat, lg: Log, asks: seq<Ask>)
    requires FetchInHand(s, l) && Content(s, logs, shown, Some(l), s.levels[l].barrier) && Goes(s, out, l, lg, asks)
    ensures Content(out.s, logs[l := lg], shown + LevelsIn(out.effects), None, 0)
  {
    hide FetchInHand, Matches, Complete, LevelsIn, AsksIn, PlacesIn, Awaits, Shown;
    HandHolds(s, l);
    GoesShows(s, out, l, lg, asks);
    var after, r := logs[l := lg], out.s;
    forall ld | ld in shown + LevelsIn(out.effects) ensures Shown(r.levels, after, ld, None) {
      if ld in shown {
        ShownStays(s.levels, logs, ld, l, r.levels[l], lg);
      } else {
        assert ld == r.levels[l];
        ShownNow(r.levels, after, l);
      }
    }
    forall b | b in r.barriers && b != 0 ensures Answered(r, after, b) {
      GoesAnswers(s, logs, shown, out, l, lg, asks, b);
    }
    forall t | t in r.conts && r.conts[t].level.Some?
      ensures r.conts[t].level.value in after && Awaits(r.conts[t], r.conts[t].level.value, after[r.conts[t].level.value])
    {
      if asks != [] { WaitsConts(s, out, l, lg); }
      if !(t in s.conts && r.conts[t] == s.conts[t]) {
        AwaitsOwn(r.conts[t], l, lg);
      }
    }
  }

  lemma AwaitsOwn(c: Cont, l: nat, lg: Log)
    requires Awaits(c, l, lg)
    ensures c.level == Some(l)
  {
  }

  lemma WaitsConts(s: State, out: Out, l: nat, lg: Log)
    requires WaitsFor(s, out, l, lg)
    ensures forall t :: t in out.s.conts ==> (t in s.conts && out.s.conts[t] == s.conts[t]) || Awaits(out.s.conts[t], l, lg)
  {
  }

  /** What a step shows is the level, complete. */
  lemma GoesShows(s: State, out: Out, l: nat, lg: Log, asks: seq<Ask>)
    requires l in s.levels && Goes(s, out, l, lg, asks)
    ensures forall ld :: ld in LevelsIn(out.effects) ==> ld == out.s.levels[l] && Complete(lg)
  {
    hide Matches, Complete, LevelsIn, AsksIn, PlacesIn;
    if asks == [] && !out.s.levels[l].boot {
      var failed :| SettlesWith(s, out, out.s.levels[l], lg, failed);
    }
  }

  lemma GoesAnswers(s: State, logs: map<nat, Log>, shown: seq<Level>, out: Out, l: nat, lg: Log, asks: seq<Ask>, b: nat)
    requires l in s.levels && Content(s, logs, shown, Some(l), s.levels[l].barrier)
    requires Goes(s, out, l, lg, asks) && b in out.s.barriers
    requires forall t :: t in s.conts ==> s.conts[t].level != Some(l)
    requires forall b :: b in s.barriers && b != s.levels[l].barrier ==> s.barriers[b].level != l
    requires s.levels[l].barrier in s.barriers ==> s.barriers[s.levels[l].barrier].level == l
    requires 0 !in s.barriers
    requires s.levels[l].boot <==> s.levels[l].barrier == 0
    ensures Answered(out.s, logs[l := lg], b)
  {
    hide Matches, Complete, LevelsIn, AsksIn, PlacesIn, Shown;
    if b != s.levels[l].barrier {
      assert b in s.barriers && out.s.barriers[b] == s.barriers[b] by { OtherJoin(s, out, l, lg, asks, b); }
      assert Answered(s, logs, b);
      if asks != [] { WaitsConts(s, out, l, lg); }
    } else if asks != [] {
      assert out.s.conts[s.next + 1].level == Some(l);
    } else {
      var failed :| SettlesWith(s, out, out.s.levels[l], lg, failed);
    }
  }

  lemma OtherJoin(s: State, out: Out, l: nat, lg: Log, asks: seq<Ask>, b: nat)
    requires l in s.levels && Goes(s, out, l, lg, asks) && b in out.s.barriers && b != s.levels[l].barrier
    ensures b in s.barriers && out.s.barriers[b] == s.barriers[b]
  {
    hide Matches, Complete, Reads;
    if asks == [] && !out.s.levels[l].boot {
      var failed :| SettlesWith(s, out, out.s.levels[l], lg, failed);
    }
  }

  lemma NotComplete(c: Cont, l: nat, lg: Log)
    requires Awaits(c, l, lg)
    ensures !Complete(lg) && c.level == Some(l) && lg.body.None?
    ensures if c.step == AwaitTile then Opens(lg).None? else c.step == AwaitBody && Arranged(lg)
  {
  }

  /** A fetch taken in hand: its level apart, everything is still its log's. */
  lemma TakenContent(s: State, logs: map<nat, Log>, shown: seq<Level>, tok: nat)
    requires Inv(s) && Content(s, logs, shown, None, 0) && tok in s.conts && s.conts[tok].level.Some?
    ensures var l := s.conts[tok].level.value;
            && l in s.levels && FetchInHand(Take(s, tok), l)
            && Content(Take(s, tok), logs, shown, Some(l), s.levels[l].barrier)
            && Matches(s.levels[l], logs[l]) && Awaits(s.conts[tok], l, logs[l])
  {
    hide Inv, FetchInHand, Matches, Complete, Awaits;
    var l, r := s.conts[tok].level.value, Take(s, tok);
    FetchTaken(s, tok);
    HandHolds(r, l);
    NotComplete(s.conts[tok], l, logs[l]);
    forall b | b in r.barriers && b != s.levels[l].barrier ensures Answered(r, logs, b) {
      assert b != 0 && Answered(s, logs, b);
      if forall t :: t in r.conts ==> r.conts[t].level != Some(s.barriers[b].level) {
        assert forall t :: t in s.conts ==> t == tok || t in r.conts;
      }
    }
  }

  lemma GoesAsks(s: State, out: Out, l: nat, lg: Log, asks: seq<Ask>)
    requires l in s.levels && Goes(s, out, l, lg, asks)
    ensures AsksIn(out.effects) == asks
  {
    hide Matches, Complete, AsksIn, LevelsIn, PlacesIn;
    if asks == [] && !out.s.levels[l].boot {
      var failed :| SettlesWith(s, out, out.s.levels[l], lg, failed);
    }
  }

  lemma ResumedContent(v: Seen, tok: nat, a: Answer)
    requires Inv(v.w.s) && Content(v.w.s, v.logs, v.shown, None, 0)
    requires tok in v.w.s.conts && v.w.s.conts[tok].level.Some?
    ensures var r := See(v, Resumed(tok, a)); Content(r.w.s, r.logs, r.shown, None, 0)
  {
    hide Inv, FetchInHand, Matches, Complete, Awaits, Goes, Content, AsksIn, LevelsIn, Row, Body, Fails, Told, Take;
    var s := v.w.s;
    var c := s.conts[tok];
    var l := c.level.value;
    TakenContent(s, v.logs, v.shown, tok);
    LogThere(s, v.logs, v.shown, tok);
    var r, was := Take(s, tok), v.logs[l];
    SameLevels(s, tok);
    HandHolds(r, l);
    NotComplete(c, l, was);
    InvNumbered(s);
    var out, lg := Resume(s, tok, a), Answers(was, c.step, a);
    if c.step == AwaitTile {
      if !a.ok || a.tile.None? {
        FailsSettles(r, l, "GetTile", was);
        GoesAsks(r, out, l, was, []);
        GoesKeeps(r, v.logs, v.shown, out, l, was, []);
        assert lg.(asked := lg.asked + []) == was;
      } else {
        RowGoes(r, l, a.tile.value, was);
        var told := Told(was, a.tile.value);
        GoesAsks(r, out, l, told, told.asked[|was.asked|..]);
        GoesKeeps(r, v.logs, v.shown, out, l, told, told.asked[|was.asked|..]);
        ToldIs(was, a.tile.value);
        assert lg.(asked := lg.asked + AsksIn(out.effects)) == told;
      }
    } else {
      BodyGoes(r, l, a, was);
      GoesAsks(r, out, l, lg, []);
      GoesKeeps(r, v.logs, v.shown, out, l, lg, []);
      assert lg.(asked := lg.asked + []) == lg;
    }
  }

  lemma ToldIs(was: Log, t: Tile)
    ensures Told(was, t) == was.(rows := was.rows + [t], asked := Told(was, t).asked)
  {
  }

  lemma LogThere(s: State, logs: map<nat, Log>, shown: seq<Level>, tok: nat)
    requires Content(s, logs, shown, None, 0) && tok in s.conts && s.conts[tok].level.Some?
    ensures s.conts[tok].level.value in logs
  {
  }

  lemma SameLevels(s: State, tok: nat)
    ensures Take(s, tok).levels == s.levels
  {
  }

  /** A level just entered, not yet told anything. */
  lemma NewContent(s: State, logs: map<nat, Log>, shown: seq<Level>, e: State, lg: Log)
    requires Inv(s) && Content(s, logs, shown, None, 0) && s.slots !in s.levels && s.slots in e.levels
    requires e.levels == s.levels[s.slots := e.levels[s.slots]]
    requires forall t :: t in e.conts && e.conts[t].level.Some? ==> t in s.conts && e.conts[t] == s.conts[t]
    requires forall t :: t in s.conts ==> t in e.conts && e.conts[t] == s.conts[t]
    requires forall b :: b in e.barriers && b != e.levels[s.slots].barrier ==> b in s.barriers && e.barriers[b] == s.barriers[b]
    ensures Content(e, logs[s.slots := lg], shown, Some(s.slots), e.levels[s.slots].barrier)
  {
    hide Matches, Complete, Awaits, JoinsOk, Owned;
    forall ld | ld in shown ensures Shown(e.levels, logs[s.slots := lg], ld, Some(s.slots)) {
      var k :| k in s.levels && k in logs && s.levels[k] == ld && Complete(logs[k]);
      assert e.levels[k] == ld;
    }
    forall b | b in e.barriers && b != e.levels[s.slots].barrier ensures Answered(e, logs[s.slots := lg], b) {
      assert b != 0 && Answered(s, logs, b);
    }
  }

  lemma EnteredContent(v: Seen, pane: string, door: Tile, held: Option<Tile>)
    requires Inv(v.w.s) && Content(v.w.s, v.logs, v.shown, None, 0)
    ensures var r := See(v, Entered(pane, door, held)); Content(r.w.s, r.logs, r.shown, None, 0)
  {
    hide Inv, FetchInHand, Content, AsksIn, LevelsIn, PlacesIn, Row;
    var s, l := v.w.s, v.w.s.slots;
    var e := Entering(s, pane, door);
    EnterInHand(s, pane, door);
    HandHolds(e, l);
    InvNumbered(s);
    var out := Enter(s, pane, door, held);
    var row := held.Some? && held.value.id == door.id;
    var fetch := if row then Row(e, l, held.value) else AwaitRow(e, l);
    var start := StartTransition(pane, e.next, door.blob == 0);
    assert out == Out(fetch.s, [start] + fetch.effects);
    ReadsMore(start, fetch.effects);
    if row {
      EnteredHeld(s, v.logs, v.shown, pane, door, held.value);
    } else {
      EnteredUnheld(s, v.logs, v.shown, pane, door);
    }
  }

  lemma EnteredHeld(s: State, logs: map<nat, Log>, shown: seq<Level>, pane: string, door: Tile, row: Tile)
    requires Inv(s) && Content(s, logs, shown, None, 0) && FetchInHand(Entering(s, pane, door), s.slots)
    requires Holds(Entering(s, pane, door), s.slots)
    ensures var fetch := Row(Entering(s, pane, door), s.slots, row);
            Content(fetch.s, logs[s.slots := Log(door.id, false, true, [row], None, AsksIn(fetch.effects))],
              shown + LevelsIn(fetch.effects), None, 0)
  {
    hide Inv, FetchInHand, Complete, Awaits, Goes, Content, AsksIn, LevelsIn, PlacesIn, Row, Told, Asks, Entering;
    var e, l, none := Entering(s, pane, door), s.slots, Log(door.id, false, true, [], None, []);
    EnteringApart(s, pane, door);
    NoAsks(none);
    NewContent(s, logs, shown, e, none);
    RowGoes(e, l, row, none);
    var told, fetch := Told(none, row), Row(e, l, row);
    ToldIs(none, row);
    GoesAsks(e, fetch, l, told, told.asked[|none.asked|..]);
    GoesKeeps(e, logs[l := none], shown, fetch, l, told, told.asked[|none.asked|..]);
    assert told == Log(door.id, false, true, [row], None, AsksIn(fetch.effects));
    assert logs[l := none][l := told] == logs[l := told];
  }

  lemma EnteredUnheld(s: State, logs: map<nat, Log>, shown: seq<Level>, pane: string, door: Tile)
    requires Inv(s) && Content(s, logs, shown, None, 0) && FetchInHand(Entering(s, pane, door), s.slots)
    requires Holds(Entering(s, pane, door), s.slots)
    ensures var fetch := AwaitRow(Entering(s, pane, door), s.slots);
            Content(fetch.s, logs[s.slots := Log(door.id, false, false, [], None, AsksIn(fetch.effects))],
              shown + LevelsIn(fetch.effects), None, 0)
  {
    hide Inv, FetchInHand, Complete, Awaits, Goes, Content, AsksIn, LevelsIn, PlacesIn, Asks, Entering;
    var e, l, lg := Entering(s, pane, door), s.slots, Log(door.id, false, false, [], None, [Ask(door.id, false)]);
    EnteringApart(s, pane, door);
    OneAsk(lg);
    NewContent(s, logs, shown, e, lg);
    WaitGoes(e, l, AwaitTile, lg, Ask(door.id, false));
    GoesAsks(e, AwaitRow(e, l), l, lg, [Ask(door.id, false)]);
    GoesKeeps(e, logs[l := lg], shown, AwaitRow(e, l), l, lg, [Ask(door.id, false)]);
    assert logs[l := lg][l := lg] == logs[l := lg];
  }

  lemma NoAsks(lg: Log)
    requires lg.rows == [] && lg.held
    ensures Asks(lg) == []
  {
  }

  lemma OneAsk(lg: Log)
    requires lg.rows == [] && !lg.held
    ensures Asks(lg) == [Ask(lg.door, false)]
  {
  }

  lemma EnteringApart(s: State, pane: string, door: Tile)
    requires Inv(s)
    ensures var e := Entering(s, pane, door);
            && s.slots !in s.levels && e.levels == s.levels[s.slots := e.levels[s.slots]]
            && e.levels[s.slots] == Level(false, pane, door.id, s.nextBarrier + 1, false, None, "", 0, None, false, false)
            && (forall t :: t in e.conts && e.conts[t].level.Some? ==> t in s.conts && e.conts[t] == s.conts[t])
            && (forall t :: t in s.conts ==> t in e.conts && e.conts[t] == s.conts[t])
            && (forall b :: b in e.barriers && b != s.nextBarrier + 1 ==> b in s.barriers && e.barriers[b] == s.barriers[b])
  {
    hide Owned, JoinsOk;
  }

  lemma BootedContent(v: Seen, tileId: string)
    requires Inv(v.w.s) && Content(v.w.s, v.logs, v.shown, None, 0)
    ensures var r := See(v, Booted(tileId)); Content(r.w.s, r.logs, r.shown, None, 0)
  {
    hide Inv, FetchInHand, Complete, Awaits, Goes, Content, AsksIn, LevelsIn, PlacesIn, Asks;
    var s, l := v.w.s, v.w.s.slots;
    var ld := Level(true, "", tileId, 0, false, None, "", 0, None, false, false);
    var e := s.(slots := s.slots + 1, levels := s.levels[s.slots := ld]);
    BootingHand(s, e);
    HandHolds(e, l);
    var lg := Log(tileId, true, false, [], None, [Ask(tileId, false)]);
    OneAsk(lg);
    NewContent(s, v.logs, v.shown, e, lg);
    WaitGoes(e, l, AwaitTile, lg, Ask(tileId, false));
    GoesAsks(e, Boot(s, tileId), l, lg, [Ask(tileId, false)]);
    GoesKeeps(e, v.logs[l := lg], v.shown, Boot(s, tileId), l, lg, [Ask(tileId, false)]);
    assert v.logs[l := lg][l := lg] == v.logs[l := lg];
  }

  lemma BootingHand(s: State, e: State)
    requires Inv(s) && s.slots in e.levels && e == s.(slots := s.slots + 1, levels := s.levels[s.slots := e.levels[s.slots]])
    requires e.levels[s.slots].boot && e.levels[s.slots].barrier == 0
    ensures FetchInHand(e, s.slots) && s.slots !in s.levels
  {
    hide JoinWith, Carried, Owned;
    OwnedNew(s.conts, s.levels, s.slots, e.levels[s.slots]);
    forall b | b in e.barriers ensures JoinOk(e, b) {
      assert JoinOk(s, b);
    }
    BootInHand(s, e);
  }

  /** The animation's report shows a level only when all of it was answered. */
  lemma LandedContent(v: Seen, tok: nat)
    requires Inv(v.w.s) && Content(v.w.s, v.logs, v.shown, None, 0) && Routed(v.w.s, Landed(tok))
    ensures var r := See(v, Landed(tok)); Content(r.w.s, r.logs, r.shown, None, 0)
  {
    hide Inv, Content, AsksIn, LevelsIn, PlacesIn, Reports;
    var s := v.w.s;
    InvNumbered(s);
    if tok !in s.conts {
      NothingRead();
      assert v.shown + [] == v.shown;
    } else {
      var r := Take(s, tok);
      AnimationHasNone(s, tok);
      TakenNone(s, v.logs, v.shown, tok);
      AnsweredJoin(s, v.logs, v.shown, tok);
      ReportedContent(r, v.logs, v.shown, s.conts[tok].barrier);
    }
  }

  /** When the last arm is an animation's, its join's level is answered. */
  lemma AnsweredJoin(s: State, logs: map<nat, Log>, shown: seq<Level>, tok: nat)
    requires Inv(s) && Content(s, logs, shown, None, 0) && tok in s.conts && s.conts[tok].step == Animated
    ensures var bid := s.conts[tok].barrier;
            bid in s.barriers && s.barriers[bid].arms <= 1 && !s.barriers[bid].failed ==>
              s.barriers[bid].level in logs && s.barriers[bid].level in s.levels && Complete(logs[s.barriers[bid].level])
  {
    hide Inv, Complete, Awaits, Matches;
    var bid := s.conts[tok].barrier;
    AnimationHasNone(s, tok);
    if bid in s.barriers && s.barriers[bid].arms <= 1 && !s.barriers[bid].failed {
      LastArm(s, tok);
      assert Answered(s, logs, bid);
    }
  }

  lemma ReportedContent(r: State, logs: map<nat, Log>, shown: seq<Level>, bid: nat)
    requires Content(r, logs, shown, None, 0) && forall b :: b in r.barriers ==> r.barriers[b].level in r.levels
    requires bid in r.barriers && r.barriers[bid].arms <= 1 && !r.barriers[bid].failed ==>
               r.barriers[bid].level in logs && Complete(logs[r.barriers[bid].level])
    ensures var out := Reports(r, bid, false); Content(out.s, logs, shown + LevelsIn(out.effects), None, 0)
  {
    hide Complete, Awaits, Matches, AsksIn, LevelsIn, PlacesIn, Reports, Shown;
    ReportReads(r, bid, false);
    var out := Reports(r, bid, false);
    if bid in r.barriers && r.barriers[bid].arms <= 1 && !r.barriers[bid].failed {
      ShownNow(r.levels, logs, r.barriers[bid].level);
    }
    forall b | b in out.s.barriers && b != 0 ensures Answered(out.s, logs, b) {
      assert Answered(r, logs, b);
    }
  }

  lemma AnimationHasNone(s: State, tok: nat)
    requires Inv(s) && tok in s.conts && s.conts[tok].step == Animated
    ensures s.conts[tok].level.None? && s.conts[tok].barrier != 0
  {
  }

  /** The last arm to report, an animation: nothing fetches for its join's level. */
  lemma LastArm(s: State, tok: nat)
    requires Inv(s) && tok in s.conts && s.conts[tok].step == Animated
    requires s.conts[tok].barrier in s.barriers && s.barriers[s.conts[tok].barrier].arms <= 1
    ensures forall t :: t in s.conts ==> s.conts[t].level != Some(s.barriers[s.conts[tok].barrier].level)
    ensures s.barriers[s.conts[tok].barrier].level in s.levels
  {
    hide Numbered;
    var bid := s.conts[tok].barrier;
    var m := Carried(s.conts, bid);
    OneOfEach(s, tok);
    JoinStands(s, bid);
    CarriedIs(s.conts, bid);
    OneLess(m, tok);
    assert (m - {tok}).Keys == {};
    assert forall t :: t in m && t != tok ==> t in (m - {tok}).Keys;
    forall t | t in s.conts && s.conts[t].level == Some(s.barriers[bid].level) ensures t == tok {
      assert SpeaksFor(s.conts[t], s.levels);
      assert t in m;
    }
    AnimationHasNone(s, tok);
  }

  lemma ForgotContent(s: State, logs: map<nat, Log>, shown: seq<Level>, pane: string)
    requires Inv(s) && Content(s, logs, shown, None, 0)
    ensures Content(Forget(s, pane), logs, shown, None, 0)
  {
    hide Complete, Awaits, Matches, Shown;
    var r := Forget(s, pane);
    forall b | b in r.barriers && b != 0 ensures Answered(r, logs, b) {
      ForgetLeaves(s, pane, b);
      assert b in s.barriers && r.barriers[b] == s.barriers[b];
      assert Answered(s, logs, b);
      FetchLeft(s, pane, b);
      AnsweredAlike(s, r, logs, b);
    }
  }

  lemma AnsweredAlike(s: State, r: State, logs: map<nat, Log>, b: nat)
    requires b in s.barriers && b in r.barriers && r.barriers[b] == s.barriers[b] && Answered(s, logs, b)
    requires forall t :: t in s.conts && s.conts[t].level == Some(s.barriers[b].level) ==>
               t in r.conts && r.conts[t] == s.conts[t]
    ensures Answered(r, logs, b)
  {
    hide Complete;
    if exists t :: t in s.conts && s.conts[t].level == Some(s.barriers[b].level) {
      var t :| t in s.conts && s.conts[t].level == Some(s.barriers[b].level);
      assert t in r.conts && r.conts[t].level == Some(r.barriers[b].level);
    }
  }

  /** A join left standing lost no continuation of its level. */
  lemma FetchLeft(s: State, pane: string, b: nat)
    requires Inv(s) && b in s.barriers && b in Forget(s, pane).barriers && b != 0
    ensures forall t :: t in s.conts && s.conts[t].level == Some(s.barriers[b].level) ==>
              t in Forget(s, pane).conts && Forget(s, pane).conts[t] == s.conts[t]
  {
    hide Forget;
    ForgetLeaves(s, pane, b);
    JoinStands(s, b);
    forall t | t in s.conts && s.conts[t].level == Some(s.barriers[b].level)
      ensures t in Forget(s, pane).conts && Forget(s, pane).conts[t] == s.conts[t]
    {
      assert SpeaksFor(s.conts[t], s.levels);
      assert t in Carried(s.conts, b);
    }
  }

  lemma SeeKeeps(v: Seen, act: Act)
    requires Inv(v.w.s) && Routed(v.w.s, act) && Content(v.w.s, v.logs, v.shown, None, 0)
    ensures var r := See(v, act); Content(r.w.s, r.logs, r.shown, None, 0)
  {
    hide Inv, Content, Routed;
    NothingRead();
    assert v.shown + [] == v.shown;
    match act
    case Entered(pane, door, held) => EnteredContent(v, pane, door, held);
    case Booted(tileId) => BootedContent(v, tileId);
    case Waited(pane) => WaitedContent(v.w.s, v.logs, v.shown, pane);
    case Landed(tok) => LandedContent(v, tok);
    case Resumed(tok, a) =>
      if tok in v.w.s.conts && v.w.s.conts[tok].level.Some? {
        ResumedContent(v, tok, a);
      } else if tok in v.w.s.conts {
        TakenNone(v.w.s, v.logs, v.shown, tok);
      }
    case Forgot(pane) => ForgotContent(v.w.s, v.logs, v.shown, pane);
  }

  lemma NothingRead()
    ensures LevelsIn([]) == [] && AsksIn([]) == []
  {
  }

  lemma WaitedContent(s: State, logs: map<nat, Log>, shown: seq<Level>, pane: string)
    requires Inv(s) && Content(s, logs, shown, None, 0)
    ensures Content(Mint(s, Cont(Other, 0, pane, None)), logs, shown, None, 0)
  {
    hide Complete, Awaits, Matches, Shown, Owned, JoinsOk;
    var r := Mint(s, Cont(Other, 0, pane, None));
    assert s.next + 1 !in s.conts;
    forall b | b in r.barriers && b != 0 ensures Answered(r, logs, b) {
      assert Answered(s, logs, b);
      AnsweredAlike(s, r, logs, b);
    }
  }

  lemma TakenNone(s: State, logs: map<nat, Log>, shown: seq<Level>, tok: nat)
    requires Content(s, logs, shown, None, 0) && tok in s.conts && s.conts[tok].level.None?
    ensures Content(Take(s, tok), logs, shown, None, 0)
  {
    hide Complete, Awaits, Matches, Shown;
    var r := Take(s, tok);
    forall b | b in r.barriers && b != 0 ensures Answered(r, logs, b) {
      assert Answered(s, logs, b);
      if forall t :: t in r.conts ==> r.conts[t].level != Some(s.barriers[b].level) {
        assert forall t :: t in s.conts ==> t == tok || t in r.conts;
      }
    }
  }

  lemma {:induction false} WatchedKeeps(acts: seq<Act>, v: Seen)
    requires Watched(acts, v)
    ensures Runs(acts, v.w) && Inv(v.w.s) && Content(v.w.s, v.logs, v.shown, None, 0)
  {
    hide Inv, Content, See;
    if acts == [] {
      StartContent();
    } else {
      var before :| Watched(acts[..|acts| - 1], before) && Inv(before.w.s) && Routed(before.w.s, acts[|acts| - 1]) &&
        v == See(before, acts[|acts| - 1]);
      WatchedKeeps(acts[..|acts| - 1], before);
      SeeKeeps(before, acts[|acts| - 1]);
      SeeDoes(before, acts[|acts| - 1]);
      RunKeeps(acts, v.w);
      KeptNumbered(v.w);
    }
  }

  lemma SeeDoes(v: Seen, act: Act)
    requires Inv(v.w.s)
    ensures See(v, act).w == Do(v.w, act)
  {
  }

  lemma StartContent()
    ensures Inv(START) && Content(START, map[], [], None, 0)
  {
  }

  /** Every run can be watched. */
  lemma {:induction false} RunIsWatched(acts: seq<Act>, w: World) returns (v: Seen)
    requires Runs(acts, w)
    ensures Watched(acts, v) && v.w == w
  {
    hide Inv, See, Do;
    if acts == [] {
      v := Seen(w, map[], []);
    } else {
      var k := |acts| - 1;
      var before :| Runs(acts[..k], before) && Inv(before.s) && Routed(before.s, acts[k]) && w == Do(before, acts[k]);
      var u := RunIsWatched(acts[..k], before);
      v := See(u, acts[k]);
      SeeDoes(u, acts[k]);
    }
  }

  /** A level opened by what its log says it was answered. The row it opens by is the door's,
      held or read, or, one link hop on, the link's target's, read under the target's id. It
      captures the window exactly when that row has no layout and it is no reload; otherwise its
      data, basis and tree are those of its layout, read under its own id, and it is read-only
      exactly when that did not decode. */
  ghost predicate OpenedBy(ld: Level, lg: Log)
  {
    var first := if lg.held then [] else [Ask(lg.door, false)];
    && ld.boot == lg.boot && lg.rows != []
    && (if lg.rows[0].leafLink then
          && |lg.rows| == 2 && ld.tileId == lg.rows[0].contentId && ld.tile == Some(lg.rows[1])
          && lg.asked == first + [Ask(ld.tileId, false)] + (if lg.rows[1].blob != 0 then [Ask(ld.tileId, true)] else [])
        else
          && |lg.rows| == 1 && ld.tileId == lg.door && ld.tile == Some(lg.rows[0])
          && lg.asked == first + (if lg.rows[0].blob != 0 then [Ask(ld.tileId, true)] else []))
    && (ld.boot ==> ld.tile.value.workspace)
    && (ld.capture <==> !ld.boot && ld.tile.value.blob == 0)
    && (if ld.tile.value.blob == 0 then
          lg.body.None? && ld.data == "" && !ld.readOnly && ld.basis == ld.tile.value.version
          && ld.tree == (if ld.boot then Some(Fallback) else None)
        else
          lg.body.Some? && ld.data == lg.body.value.data && ld.basis == lg.body.value.version
          && (ld.readOnly <==> !lg.body.value.decodes)
          && ld.tree == Some(if lg.body.value.decodes then Decoded(ld.data) else Fallback))
  }

  lemma MatchedOpens(ld: Level, lg: Log)
    requires Matches(ld, lg) && Complete(lg)
    ensures OpenedBy(ld, lg)
  {
    assert lg.rows != [];
    if Hops(lg) {
      assert Opens(lg) == Some(lg.rows[1]);
    } else {
      assert Opens(lg) == Some(lg.rows[0]);
    }
  }

  /** A level installed in any run, however its reads, rivals and panes interleaved, is opened by
      what it was answered. */
  lemma InstalledAsAnswered(acts: seq<Act>, v: Seen, ld: Level) returns (l: nat)
    requires Watched(acts, v) && ld in v.shown
    ensures l in v.logs && l in v.w.s.levels && v.w.s.levels[l] == ld && OpenedBy(ld, v.logs[l])
  {
    hide Inv, Watched, Awaits, Matches, Complete, OpenedBy;
    WatchedKeeps(acts, v);
    assert Shown(v.w.s.levels, v.logs, ld, None);
    l :| l in v.w.s.levels && l in v.logs && v.w.s.levels[l] == ld && Complete(v.logs[l]);
    assert Matches(ld, v.logs[l]);
    MatchedOpens(ld, v.logs[l]);
  }

  // ---------------------------------------------------------------- what the effects name

  /** Each read asked for is awaited by a live continuation of the level it is for, under the
      level's own id; and a transition lands on a live one of its pane. */
  ghost predicate Named(s: State, es: seq<Effect>)
  {
    forall e :: e in es ==>
      && (e.Await? ==>
            && e.token in s.conts && s.conts[e.token].step == (if e.layout then AwaitBody else AwaitTile)
            && s.conts[e.token].level.Some? && s.conts[e.token].level.value in s.levels
            && s.levels[s.conts[e.token].level.value].tileId == e.id)
      && (e.StartTransition? ==>
            e.land in s.conts && s.conts[e.land].step == Animated && s.conts[e.land].pane == e.pane)
  }

  /** Nothing to be awaited or landed. */
  predicate Idle(es: seq<Effect>)
  {
    forall e :: e in es ==> !e.Await? && !e.StartTransition?
  }

  lemma ReportsIdle(s: State, bid: nat, failed: bool)
    requires bid in s.barriers ==> s.barriers[bid].level in s.levels
    ensures Idle(Reports(s, bid, failed).effects)
  {
  }

  lemma ReadyIdle(s: State, l: nat)
    requires Holds(s, l)
    ensures Idle(Ready(s, l).effects)
  {
    hide Reports;
    ReportsIdle(s, s.levels[l].barrier, false);
  }

  lemma FailsIdle(s: State, l: nat, what: string)
    requires Holds(s, l)
    ensures Idle(Fails(s, l, what).effects)
  {
    hide Reports;
    ReportsIdle(s, s.levels[l].barrier, true);
  }

  lemma RowNames(s: State, l: nat, t: Tile)
    requires Holds(s, l)
    ensures Named(Row(s, l, t).s, Row(s, l, t).effects)
  {
    hide Ready;
    var ld := s.levels[l];
    if !(t.leafLink && !ld.followed) && !(ld.boot && !t.workspace) && t.blob == 0 {
      var seen := ld.(tile := Some(t), basis := t.version);
      ReadyIdle(s.(levels := s.levels[l := if ld.boot then seen.(tree := Some(Fallback)) else seen.(capture := true)]), l);
    }
  }

  lemma BodyNames(s: State, l: nat, a: Answer)
    requires Holds(s, l)
    ensures Named(Body(s, l, a).s, Body(s, l, a).effects)
  {
    hide Ready, Fails;
    if !a.ok {
      FailsIdle(s, l, "ReadContent");
    } else {
      ReadyIdle(s.(levels := s.levels[l := s.levels[l].(data := a.data, basis := a.version,
        tree := Some(if a.decodes then Decoded(a.data) else Fallback), readOnly := !a.decodes)]), l);
    }
  }

  /** A descent starts its pane's transition, expanding exactly when the door was never arranged,
      landing on the continuation that carries its new join. */
  lemma EnterNames(s: State, pane: string, door: Tile, held: Option<Tile>)
    requires Inv(s)
    ensures Numbered(s)
    ensures var out := Enter(s, pane, door, held);
            && Named(out.s, out.effects)
            && out.effects != [] && out.effects[0] == StartTransition(pane, s.next + 1, door.blob == 0)
            && s.next + 1 in out.s.conts && out.s.conts[s.next + 1] == Cont(Animated, s.nextBarrier + 1, pane, None)
  {
    hide Inv, FetchInHand, Row, Named;
    InvNumbered(s);
    var e, l := Entering(s, pane, door), s.slots;
    EnterInHand(s, pane, door);
    HandHolds(e, l);
    var row := held.Some? && held.value.id == door.id;
    var fetch := if row then Row(e, l, held.value) else AwaitRow(e, l);
    if row {
      RowNames(e, l, held.value);
      RowKeepsConts(e, l, held.value);
    } else {
      WaitNames(e, l);
    }
    NamedMore(fetch.s, StartTransition(pane, e.next, door.blob == 0), fetch.effects);
  }

  lemma RowKeepsConts(s: State, l: nat, t: Tile)
    requires Holds(s, l)
    ensures forall k :: k in s.conts && k <= s.next ==> k in Row(s, l, t).s.conts && Row(s, l, t).s.conts[k] == s.conts[k]
  {
    hide Reports, InstallData;
    ReportReads(s, s.levels[l].barrier, false);
    forall v: State | v == s.(levels := v.levels) && l in v.levels && v.levels[l].barrier == s.levels[l].barrier && Holds(v, l)
      ensures Ready(v, l).s.conts == s.conts
    {
      ReportReads(v, v.levels[l].barrier, false);
      InstallState(v, v.levels[l]);
    }
    Learnt(s, l, t);
  }

  lemma Learnt(s: State, l: nat, t: Tile)
    requires Holds(s, l)
    ensures var ld := s.levels[l];
            var seen := ld.(tile := Some(t), basis := t.version);
            Holds(s.(levels := s.levels[l := if ld.boot then seen.(tree := Some(Fallback)) else seen.(capture := true)]), l)
  {
  }

  lemma WaitNames(s: State, l: nat)
    requires Holds(s, l)
    ensures Named(AwaitRow(s, l).s, AwaitRow(s, l).effects)
    ensures forall k :: k in s.conts && k <= s.next ==> k in AwaitRow(s, l).s.conts && AwaitRow(s, l).s.conts[k] == s.conts[k]
  {
  }

  lemma NamedMore(s: State, e: Effect, es: seq<Effect>)
    requires Named(s, es) && e.StartTransition? && e.land in s.conts && s.conts[e.land].step == Animated && s.conts[e.land].pane == e.pane
    ensures Named(s, [e] + es)
  {
  }

  /** In every step of every run. */
  lemma EffectsAreNamed(s: State, act: Act)
    requires Inv(s) && Routed(s, act)
    ensures Named(Do(World(s, map[], []), act).s, EffectsOf(s, act))
  {
    hide Inv, FetchInHand, Row, Body, Fails, Reports, Enter;
    InvNumbered(s);
    match act
    case Entered(pane, door, held) => EnterNames(s, pane, door, held);
    case Booted(tileId) =>
    case Waited(pane) =>
    case Landed(tok) => if tok in s.conts { ReportsIdle(Take(s, tok), s.conts[tok].barrier, false); }
    case Resumed(tok, a) =>
      if tok in s.conts && s.conts[tok].level.Some? {
        var c, r, l := s.conts[tok], Take(s, tok), s.conts[tok].level.value;
        FetchTaken(s, tok);
        HandHolds(r, l);
        match c.step
        case AwaitTile => if !a.ok || a.tile.None? { FailsIdle(r, l, "GetTile"); } else { RowNames(r, l, a.tile.value); }
        case AwaitBody => BodyNames(r, l, a);
        case _ =>
      }
    case Forgot(pane) =>
  }
}
