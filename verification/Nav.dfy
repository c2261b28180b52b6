/** client/nav/nav.go and client/nav/level.go: the machine, whose methods update its maps of
    continuations, barriers and levels step by step and append effects. Each leaves what
    NavLevel says. */
module Nav {
  import opened Options
  import opened NavLevel

  class Machine {
    var next: nat
    var conts: map<nat, Cont>
    var nextBarrier: nat
    var barriers: map<nat, NavLevel.Barrier>
    var slots: nat
    var levels: map<nat, NavLevel.Level>

    ghost function Is(): State
      reads this
    {
      State(next, conts, nextBarrier, barriers, slots, levels)
    }

    /** Every live join's arms are its live continuations. */
    ghost predicate Valid()
      reads this
    {
      Inv(Is())
    }

    constructor ()
      ensures Valid() && Is() == START
    {
      next, conts, nextBarrier, barriers, slots, levels := 0, map[], 0, map[], 0, map[];
    }

    method MintToken(c: Cont) returns (tok: nat)
      modifies this`next, this`conts
      ensures Is() == Mint(old(Is()), c) && tok == next
    {
      next := next + 1;
      conts := conts[next := c];
      return next;
    }

    /** A newer barrier on the same pane supersedes the older one. */
    method ArmBarrier(pane: string, arms: int, l: nat) returns (bid: nat)
      modifies this`barriers, this`nextBarrier
      ensures Is() == MintBarrier(old(Is()), pane, arms, l) && bid == nextBarrier
    {
      ghost var was := barriers;
      ghost var left := OtherPanes(was, pane);
      var todo := barriers.Keys;
      while todo != {}
        invariant todo <= was.Keys && nextBarrier == old(nextBarrier)
        invariant forall b :: b in todo ==> b in barriers && barriers[b] == was[b]
        invariant forall b :: b !in todo ==> (b in barriers <==> b in left)
        invariant forall b :: b in barriers ==> b in was && barriers[b] == was[b]
        decreases |todo|
      {
        var b :| b in todo;
        todo := todo - {b};
        if barriers[b].pane == pane {
          barriers := barriers - {b};
        }
      }
      assert barriers == left;
      nextBarrier := nextBarrier + 1;
      barriers := barriers[nextBarrier := NavLevel.Barrier(pane, arms, false, l)];
      return nextBarrier;
    }

    /** A pane going away retires its continuations and any barrier they armed. */
    method ForgetPane(pane: string)
      requires Valid()
      modifies this`conts, this`barriers
      ensures Valid() && Is() == Forget(old(Is()), pane)
    {
      hide Inv, Forgetting, Forget, Numbered, Owned;
      ForgetKeeps(Is(), pane);
      InvNumbered(Is());
      ghost var s := Is();
      ForgetOnly(s, pane);
      var todo := conts.Keys;
      ForgettingStarts(s, pane);
      while todo != {}
        invariant todo <= s.conts.Keys
        invariant Forgetting(s, pane, todo, conts, barriers)
        decreases |todo|
      {
        var tok :| tok in todo;
        ForgettingStep(s, pane, todo, conts, barriers, tok);
        var c := conts[tok];
        todo := todo - {tok};
        if c.pane == pane {
          conts := conts - {tok};
          if c.barrier != 0 {
            barriers := barriers - {c.barrier};
          }
        }
      }
      ForgettingDone(s, pane, conts, barriers);
    }

    /** One arm reports; the barrier is answered to the last. */
    method ArriveAt(bid: nat, failed: bool) returns (done: Option<NavLevel.Barrier>)
      modifies this`barriers
      ensures (Is(), done) == Arrive(old(Is()), bid, failed)
    {
      if bid !in barriers {
        return None;
      }
      var b := barriers[bid];
      if failed {
        b := b.(failed := true);
      }
      b := b.(arms := b.arms - 1);
      if b.arms > 0 {
        barriers := barriers[bid := b];
        return None;
      }
      barriers := barriers - {bid};
      return Some(b);
    }

    method InstallLevel(b: NavLevel.Barrier) returns (effects: seq<Effect>)
      requires b.level in levels
      ensures effects == Joined(Is(), b).effects && Joined(Is(), b).s == Is()
    {
      var ld := levels[b.level];
      effects := [InstallPlace(ld.pane)];
      if b.failed {
        return;
      }
      effects := effects + [CancelTransition, CloseMenu, FlushLayout, Effect.InstallLevel(ld), RefreshOverlay, ScheduleUrl];
    }

    /** The arm's report, and the joined step when it was the last. */
    method ReportArm(bid: nat, failed: bool) returns (effects: seq<Effect>)
      requires bid in barriers ==> barriers[bid].level in levels
      modifies this`barriers
      ensures Out(Is(), effects) == Reports(old(Is()), bid, failed)
    {
      hide Joined;
      var done := ArriveAt(bid, failed);
      effects := [];
      if done.Some? {
        effects := InstallLevel(done.value);
      }
    }

    method LevelReady(l: nat) returns (effects: seq<Effect>)
      requires l in levels && forall b :: b in barriers ==> barriers[b].level in levels
      modifies this`barriers
      ensures Out(Is(), effects) == Ready(old(Is()), l)
    {
      hide Reports;
      if levels[l].boot {
        return [CancelTransition, CloseMenu, FlushLayout, Effect.InstallLevel(levels[l]), RefreshOverlay, ScheduleUrl];
      }
      effects := ReportArm(levels[l].barrier, false);
    }

    method LevelFailed(l: nat, what: string) returns (effects: seq<Effect>)
      requires l in levels && forall b :: b in barriers ==> barriers[b].level in levels
      modifies this`barriers
      ensures Out(Is(), effects) == Fails(old(Is()), l, what)
    {
      hide Reports;
      effects := [Report("rpc:" + what)];
      if levels[l].boot {
        return;
      }
      var more := ReportArm(levels[l].barrier, true);
      effects := effects + more;
    }

    method AwaitLevelTile(l: nat) returns (effects: seq<Effect>)
      requires l in levels
      modifies this`next, this`conts
      ensures Out(Is(), effects) == AwaitRow(old(Is()), l)
    {
      var ld := levels[l];
      var tok := MintToken(Cont(AwaitTile, ld.barrier, ld.pane, Some(l)));
      return [Await(tok, ld.tileId, false)];
    }

    method LevelRow(l: nat, t: Tile) returns (effects: seq<Effect>)
      requires l in levels && forall b :: b in barriers ==> barriers[b].level in levels
      modifies this`levels, this`next, this`conts, this`barriers
      ensures Out(Is(), effects) == Row(old(Is()), l, t)
    {
      hide Ready;
      if t.leafLink && !levels[l].followed {
        levels := levels[l := levels[l].(followed := true, tileId := t.contentId)];
        effects := AwaitLevelTile(l);
        return;
      }
      if levels[l].boot && !t.workspace {
        return [Report("layout:" + levels[l].tileId)];
      }
      var ld := levels[l].(tile := Some(t), basis := t.version);
      if t.blob == 0 {
        if ld.boot {
          ld := ld.(tree := Some(Fallback));
        } else {
          ld := ld.(capture := true);
        }
        levels := levels[l := ld];
        effects := LevelReady(l);
        return;
      }
      levels := levels[l := ld];
      var tok := MintToken(Cont(AwaitBody, ld.barrier, ld.pane, Some(l)));
      return [Await(tok, ld.tileId, true)];
    }

    method LevelBody(l: nat, a: Answer) returns (effects: seq<Effect>)
      requires l in levels && forall b :: b in barriers ==> barriers[b].level in levels
      modifies this`levels, this`barriers
      ensures Out(Is(), effects) == Body(old(Is()), l, a)
    {
      hide Ready, Fails;
      if !a.ok {
        effects := LevelFailed(l, "ReadContent");
        return;
      }
      effects := [];
      var ld := levels[l].(data := a.data, basis := a.version);
      if a.decodes {
        ld := ld.(tree := Some(Decoded(a.data)), readOnly := false);
      } else {
        effects := [Report("layout:" + ld.tileId)];
        ld := ld.(tree := Some(Fallback), readOnly := true);
      }
      levels := levels[l := ld];
      var more := LevelReady(l);
      effects := effects + more;
    }

    /** A descent: the animation arm and the fetch arm. */
    method EnterLevel(pane: string, door: Tile, held: Option<Tile>) returns (effects: seq<Effect>)
      requires Valid()
      modifies this
      ensures Valid() && Out(Is(), effects) == Enter(old(Is()), pane, door, held)
    {
      hide Inv, Row;
      EnterKeeps(Is(), pane, door, held);
      InvNumbered(Is());
      var l := slots;
      slots := slots + 1;
      var bid := ArmBarrier(pane, 2, l);
      levels := levels[l := NavLevel.Level(false, pane, door.id, bid, false, None, "", 0, None, false, false)];
      var tok := MintToken(Cont(Animated, bid, pane, None));
      effects := [StartTransition(pane, tok, door.blob == 0)];
      var more;
      if held.Some? && held.value.id == door.id {
        more := LevelRow(l, held.value);
      } else {
        more := AwaitLevelTile(l);
      }
      effects := effects + more;
    }

    method BootLevel(tileId: string) returns (effects: seq<Effect>)
      requires Valid()
      modifies this
      ensures Valid() && Out(Is(), effects) == Boot(old(Is()), tileId)
    {
      hide Inv;
      BootKeeps(Is(), tileId);
      var l := slots;
      slots := slots + 1;
      levels := levels[l := NavLevel.Level(true, "", tileId, 0, false, None, "", 0, None, false, false)];
      effects := AwaitLevelTile(l);
    }

    /** An awaited answer. A level's continuation is always waited for. */
    method ResumeToken(tok: nat, a: Answer) returns (effects: seq<Effect>)
      requires Valid() && (tok in conts ==> conts[tok].step != Animated)
      modifies this
      ensures Valid()
      ensures forall t :: t in old(conts) && old(conts)[t].level.Some? ==> old(conts)[t].level.value in old(levels)
      ensures forall b :: b in old(barriers) ==> old(barriers)[b].level in old(levels)
      ensures Out(Is(), effects) == Resume(old(Is()), tok, a)
    {
      hide Inv, Row, Body, Fails;
      InvNumbered(Is());
      effects := [];
      if tok !in conts {
        return;
      }
      ResumeKeeps(Is(), tok, a);
      var c := conts[tok];
      conts := conts - {tok};
      if c.level.None? {
        return;
      }
      match c.step {
        case AwaitTile =>
          if !a.ok || a.tile.None? {
            effects := LevelFailed(c.level.value, "GetTile");
          } else {
            effects := LevelRow(c.level.value, a.tile.value);
          }
        case AwaitBody =>
          effects := LevelBody(c.level.value, a);
        case Animated =>
        case Other =>
      }
    }

    /** The transition a continuation rode has landed. */
    method LandToken(tok: nat) returns (effects: seq<Effect>)
      requires Valid() && (tok in conts ==> conts[tok].step == Animated)
      modifies this
      ensures Valid()
      ensures forall b :: b in old(barriers) ==> old(barriers)[b].level in old(levels)
      ensures Out(Is(), effects) == Land(old(Is()), tok)
    {
      hide Inv, Reports;
      InvNumbered(Is());
      effects := [];
      if tok !in conts {
        return;
      }
      AnimationTaken(Is(), tok);
      ReportKeeps(Take(Is(), tok), conts[tok].barrier, false);
      var c := conts[tok];
      conts := conts - {tok};
      effects := ReportArm(c.barrier, false);
    }
  }

  /** The walk over the continuations with todo still ahead. */
  ghost predicate Forgetting(s: State, pane: string, todo: set<nat>, conts: map<nat, Cont>, barriers: map<nat, NavLevel.Barrier>)
  {
    && (forall t :: t in conts <==> t in s.conts && (t in todo || s.conts[t].pane != pane))
    && (forall t :: t in conts ==> conts[t] == s.conts[t])
    && (forall b :: b in barriers <==> b in s.barriers && Spared(s, pane, todo, b))
    && (forall b :: b in barriers ==> barriers[b] == s.barriers[b])
  }

  /** No continuation of the pane walked so far armed the barrier. */
  ghost predicate Spared(s: State, pane: string, todo: set<nat>, b: nat)
  {
    forall t :: t in s.conts && t !in todo && s.conts[t].pane == pane ==> s.conts[t].barrier != b
  }

  lemma ForgetOnly(s: State, pane: string)
    ensures Forget(s, pane) == s.(conts := Forget(s, pane).conts, barriers := Forget(s, pane).barriers)
  {
  }

  lemma ForgettingStarts(s: State, pane: string)
    ensures Forgetting(s, pane, s.conts.Keys, s.conts, s.barriers)
  {
  }

  lemma ForgettingStep(s: State, pane: string, todo: set<nat>, conts: map<nat, Cont>, barriers: map<nat, NavLevel.Barrier>, tok: nat)
    requires Numbered(s) && todo <= s.conts.Keys && tok in todo && Forgetting(s, pane, todo, conts, barriers)
    ensures tok in conts
    ensures var mine := conts[tok].pane == pane;
            Forgetting(s, pane, todo - {tok}, if mine then conts - {tok} else conts,
              if mine && conts[tok].barrier != 0 then barriers - {conts[tok].barrier} else barriers)
  {
    forall b | b in s.barriers
      ensures Spared(s, pane, todo - {tok}, b) <==>
                Spared(s, pane, todo, b) && (s.conts[tok].pane == pane ==> s.conts[tok].barrier != b)
    {
    }
  }

  lemma ForgettingDone(s: State, pane: string, conts: map<nat, Cont>, barriers: map<nat, NavLevel.Barrier>)
    requires Numbered(s) && Forgetting(s, pane, {}, conts, barriers)
    ensures conts == Forget(s, pane).conts && barriers == Forget(s, pane).barriers
  {
    var r := Forget(s, pane);
    forall b
      ensures b in barriers <==> b in r.barriers
    {
      if b in s.barriers && b !in r.barriers {
        var gone := set t | t in s.conts && s.conts[t].pane == pane;
        var t :| t in gone && s.conts[t].barrier == b;
        assert !Spared(s, pane, {}, b);
      }
      if b in r.barriers {
        forall t | t in s.conts && s.conts[t].pane == pane ensures s.conts[t].barrier != b {
          if s.conts[t].barrier != 0 { JoinGone(s, pane, t); }
        }
        assert Spared(s, pane, {}, b);
      }
    }
    assert barriers == r.barriers;
    assert conts == r.conts;
  }
}
