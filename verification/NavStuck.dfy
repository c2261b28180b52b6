/** client/nav/nav.go, what becomes of a join over every later step: one left short of an arm by
    a token delivered by the other route, and one superseded by a newer descent or retired with
    its pane. */
module NavStuck {
  import opened Options
  import opened NavLevel

  /** Tokens and joins are numbered, and each continuation speaks for its own level. */
  ghost predicate Sane(s: State)
  {
    Numbered(s) && Owned(s.conts, s.levels)
  }

  /** The join is owed more reports than the live continuations that carry it, and those in
      hand, will ever make. */
  ghost predicate Short(s: State, bid: nat, inHand: nat)
  {
    bid in s.barriers && s.barriers[bid].arms > |Carried(s.conts, bid)| + inHand
  }

  /** One step, whatever the route its token is delivered by. */
  ghost function Next(s: State, act: Act): State
    requires Sane(s)
  {
    match act
    case Entered(pane, door, held) => Enter(s, pane, door, held).s
    case Booted(tileId) => Boot(s, tileId).s
    case Waited(pane) => Mint(s, Cont(Other, 0, pane, None))
    case Landed(tok) => Land(s, tok).s
    case Resumed(tok, a) => Resume(s, tok, a).s
    case Forgot(pane) => Forget(s, pane)
  }

  /** What takes a join away without its arms: a newer descent in its pane, or that pane going
      while something still carries it. */
  predicate Drops(s: State, act: Act, bid: nat)
  {
    match act
    case Entered(pane, _, _) => bid in s.barriers && s.barriers[bid].pane == pane
    case Forgot(pane) => exists t :: t in s.conts && s.conts[t].pane == pane && s.conts[t].barrier == bid
    case _ => false
  }

  // ---------------------------------------------------------------- a fetch in hand

  /** A level whose fetch is in hand: no continuation speaks for it. */
  ghost predicate FetchHeld(s: State, l: nat)
  {
    && Sane(s) && l in s.levels && (s.levels[l].boot <==> s.levels[l].barrier == 0)
    && forall t :: t in s.conts ==> s.conts[t].level != Some(l)
  }

  /** One arm less on a join, or the join gone with its last. */
  ghost predicate Reported(barriers: map<nat, Barrier>, r: map<nat, Barrier>, bid: nat)
  {
    if bid !in barriers then r == barriers
    else if barriers[bid].arms > 1 then
      bid in r && r == barriers[bid := r[bid]] && r[bid].(failed := barriers[bid].failed) == barriers[bid].(arms := barriers[bid].arms - 1)
    else r == barriers - {bid}
  }

  /** A fetch in hand learned about its level, and then waits on, reports, or does nothing. */
  ghost predicate Moved(s: State, r: State, l: nat)
    requires l in s.levels
  {
    && l in r.levels && r.slots == s.slots && r.nextBarrier == s.nextBarrier
    && r.levels == s.levels[l := r.levels[l]] && Learnt(s.levels[l], r.levels[l])
    && if r.next == s.next then
         r.conts == s.conts && (r.barriers == s.barriers || Reported(s.barriers, r.barriers, s.levels[l].barrier))
       else
         r.next == s.next + 1 && r.barriers == s.barriers && r.next in r.conts
         && r.conts == s.conts[r.next := r.conts[r.next]] && Waits(r.conts[r.next], r.levels[l], l)
  }

  predicate Learnt(ld: Level, after: Level)
  {
    after.barrier == ld.barrier && after.pane == ld.pane && after.boot == ld.boot
  }

  predicate Waits(c: Cont, ld: Level, l: nat)
  {
    (c.step == AwaitTile || (c.step == AwaitBody && ld.tile.Some?)) && c == Cont(c.step, ld.barrier, ld.pane, Some(l))
  }

  lemma ReportMoves(s: State, bid: nat, failed: bool)
    requires bid in s.barriers ==> s.barriers[bid].level in s.levels
    ensures var r := Reports(s, bid, failed).s; r == s.(barriers := r.barriers) && Reported(s.barriers, r.barriers, bid)
  {
    JoinedState(s, bid, failed);
  }

  lemma ReadyMoves(s: State, l: nat)
    requires FetchHeld(s, l)
    ensures Moved(s, Ready(s, l).s, l)
  {
    hide Owned, Reports, Reported, InstallData;
    assert s.levels == s.levels[l := s.levels[l]];
    if s.levels[l].boot {
      InstallState(s, s.levels[l]);
    } else {
      ReportMoves(s, s.levels[l].barrier, false);
    }
  }

  lemma FailsMoves(s: State, l: nat, what: string)
    requires FetchHeld(s, l)
    ensures Moved(s, Fails(s, l, what).s, l)
  {
    hide Owned, Reports, Reported;
    assert s.levels == s.levels[l := s.levels[l]];
    if !s.levels[l].boot {
      ReportMoves(s, s.levels[l].barrier, true);
    }
  }

  /** What a level learns about itself changes nothing else. */
  lemma LearnsHeld(s: State, l: nat, ld: Level)
    requires FetchHeld(s, l) && Learnt(s.levels[l], ld)
    ensures FetchHeld(s.(levels := s.levels[l := ld]), l)
  {
    forall t | t in s.conts && s.conts[t].level.Some?
      ensures SpeaksFor(s.conts[t], s.levels[l := ld])
    {
      assert SpeaksFor(s.conts[t], s.levels);
    }
  }

  lemma LearnsMoves(s: State, l: nat, ld: Level, r: State)
    requires l in s.levels && Learnt(s.levels[l], ld) && Moved(s.(levels := s.levels[l := ld]), r, l)
    ensures Moved(s, r, l)
  {
    hide Reported;
    assert s.levels[l := ld][l := r.levels[l]] == s.levels[l := r.levels[l]];
  }

  lemma WaitMoves(s: State, l: nat, step: StepKind)
    requires FetchHeld(s, l) && (step == AwaitTile || (step == AwaitBody && s.levels[l].tile.Some?))
    ensures Moved(s, Mint(s, Cont(step, s.levels[l].barrier, s.levels[l].pane, Some(l))), l)
  {
    hide Owned;
    assert s.levels == s.levels[l := s.levels[l]];
  }

  lemma RowMoves(s: State, l: nat, t: Tile)
    requires FetchHeld(s, l)
    ensures Moved(s, Row(s, l, t).s, l)
  {
    hide Sane, Reported, Moved, Ready;
    var ld := s.levels[l];
    HeldNumbered(s, l);
    if t.leafLink && !ld.followed {
      var seen := ld.(followed := true, tileId := t.contentId);
      LearnsHeld(s, l, seen);
      WaitMoves(s.(levels := s.levels[l := seen]), l, AwaitTile);
      LearnsMoves(s, l, seen, Row(s, l, t).s);
    } else if ld.boot && !t.workspace {
      StillMoves(s, l);
    } else {
      var seen := ld.(tile := Some(t), basis := t.version);
      if t.blob == 0 {
        var known := if ld.boot then seen.(tree := Some(Fallback)) else seen.(capture := true);
        LearnsHeld(s, l, known);
        ReadyMoves(s.(levels := s.levels[l := known]), l);
        LearnsMoves(s, l, known, Row(s, l, t).s);
      } else {
        LearnsHeld(s, l, seen);
        WaitMoves(s.(levels := s.levels[l := seen]), l, AwaitBody);
        LearnsMoves(s, l, seen, Row(s, l, t).s);
      }
    }
  }

  lemma StillMoves(s: State, l: nat)
    requires l in s.levels
    ensures Moved(s, s, l)
  {
    assert s.levels == s.levels[l := s.levels[l]];
  }

  lemma HeldNumbered(s: State, l: nat)
    requires FetchHeld(s, l)
    ensures Numbered(s)
  {
  }

  lemma BodyMoves(s: State, l: nat, a: Answer)
    requires FetchHeld(s, l)
    ensures Numbered(s) && Moved(s, Body(s, l, a).s, l)
  {
    hide Sane, Reported, Moved, Ready, Fails;
    HeldNumbered(s, l);
    if !a.ok {
      FailsMoves(s, l, "ReadContent");
    } else {
      var ld := s.levels[l].(data := a.data, basis := a.version,
        tree := Some(if a.decodes then Decoded(a.data) else Fallback), readOnly := !a.decodes);
      LearnsHeld(s, l, ld);
      ReadyMoves(s.(levels := s.levels[l := ld]), l);
      LearnsMoves(s, l, ld, Body(s, l, a).s);
    }
  }

  // ---------------------------------------------------------------- short stays short

  /** Whatever a fetch in hand does, a join short by more than it stays short. */
  lemma MovedKeeps(s: State, r: State, l: nat, bid: nat)
    requires FetchHeld(s, l) && Moved(s, r, l) && Short(s, bid, if s.levels[l].barrier == bid then 1 else 0)
    ensures Sane(r) && Short(r, bid, 0)
  {
    hide Carried, Owned;
    var known := s.(levels := r.levels);
    LearnsHeld(s, l, r.levels[l]);
    if r.next != s.next {
      var c := r.conts[r.next];
      assert r == Mint(known, c);
      WaitsMayJoin(known, c, l);
      MintOwned(known, c);
      CarriedMint(s.conts, r.next, c, bid);
      if c.barrier == bid {
        OneMore(Carried(s.conts, bid), r.next, c);
      }
    }
  }

  lemma WaitsMayJoin(s: State, c: Cont, l: nat)
    requires FetchHeld(s, l) && Waits(c, s.levels[l], l)
    ensures MayJoin(s.conts, s.levels, c) && c.barrier <= s.nextBarrier
  {
    hide Owned;
  }

  /** A continuation taken: what it carried is one less, and in hand. */
  lemma TakenShort(s: State, tok: nat, bid: nat)
    requires Sane(s) && tok in s.conts && Short(s, bid, 0)
    ensures Sane(Take(s, tok)) && Short(Take(s, tok), bid, if s.conts[tok].barrier == bid then 1 else 0)
  {
    hide Carried, Owned, Numbered;
    TakeOwned(s, tok);
    CarriedTake(s.conts, tok, bid);
    CarriedIs(s.conts, bid);
    if s.conts[tok].barrier == bid {
      OneLess(Carried(s.conts, bid), tok);
    } else {
      assert Carried(s.conts, bid) - {tok} == Carried(s.conts, bid);
    }
  }

  lemma TakenHeld(s: State, tok: nat)
    requires Sane(s) && tok in s.conts && s.conts[tok].level.Some?
    ensures FetchHeld(Take(s, tok), s.conts[tok].level.value)
    ensures s.levels[s.conts[tok].level.value].barrier == s.conts[tok].barrier
  {
    TakeOwned(s, tok);
    assert SpeaksFor(s.conts[tok], s.levels);
  }

  lemma LandShort(s: State, tok: nat, bid: nat)
    requires Sane(s) && Short(s, bid, 0)
    ensures Sane(Land(s, tok).s) && Short(Land(s, tok).s, bid, 0)
  {
    hide Carried, Owned, Reports;
    if tok in s.conts {
      TakenShort(s, tok, bid);
      var r := Take(s, tok);
      if s.conts[tok].step == Animated {
        ReportMoves(r, s.conts[tok].barrier, false);
      }
    }
  }

  lemma ResumeShort(s: State, tok: nat, a: Answer, bid: nat)
    requires Sane(s) && Short(s, bid, 0)
    ensures Sane(Resume(s, tok, a).s) && Short(Resume(s, tok, a).s, bid, 0)
  {
    hide Carried, Owned, Row, Body, Fails, Moved, Short;
    if tok in s.conts {
      var c, r := s.conts[tok], Take(s, tok);
      TakenShort(s, tok, bid);
      ShortAnyway(r, bid, if c.barrier == bid then 1 else 0);
      if c.level.Some? {
        TakenHeld(s, tok);
        var l := c.level.value;
        match c.step
        case AwaitTile =>
          if !a.ok || a.tile.None? { FailsMoves(r, l, "GetTile"); } else { RowMoves(r, l, a.tile.value); }
          MovedKeeps(r, Resume(s, tok, a).s, l, bid);
        case AwaitBody =>
          BodyMoves(r, l, a);
          MovedKeeps(r, Resume(s, tok, a).s, l, bid);
        case _ =>
      }
    }
  }

  lemma ShortAnyway(s: State, bid: nat, inHand: nat)
    requires Short(s, bid, inHand)
    ensures Short(s, bid, 0)
  {
  }

  /** A descent in another pane, its fetch about to start. */
  lemma EnteringShort(s: State, pane: string, door: Tile, bid: nat)
    requires Sane(s) && Short(s, bid, 0) && s.barriers[bid].pane != pane
    ensures FetchHeld(Entering(s, pane, door), s.slots) && Short(Entering(s, pane, door), bid, 0)
    ensures Entering(s, pane, door).levels[s.slots].barrier == s.nextBarrier + 1 != bid
  {
    hide Carried, Owned, FetchHeld;
    var started, c := Started(s, pane, door), Cont(Animated, s.nextBarrier + 1, pane, None);
    EnteringHeld(s, pane, door);
    assert started.conts == s.conts && s.next + 1 !in s.conts;
    CarriedMint(s.conts, s.next + 1, c, bid);
  }

  lemma EnterShort(s: State, pane: string, door: Tile, held: Option<Tile>, bid: nat)
    requires Sane(s) && Short(s, bid, 0) && s.barriers[bid].pane != pane
    ensures Sane(Enter(s, pane, door, held).s) && Short(Enter(s, pane, door, held).s, bid, 0)
  {
    hide Sane, Short, FetchHeld, Row, Moved;
    var e := Entering(s, pane, door);
    SaneNumbered(s);
    EnteringShort(s, pane, door, bid);
    HeldNumbered(e, s.slots);
    if held.Some? && held.value.id == door.id {
      RowMoves(e, s.slots, held.value);
    } else {
      WaitMoves(e, s.slots, AwaitTile);
    }
    MovedKeeps(e, Enter(s, pane, door, held).s, s.slots, bid);
  }

  lemma SaneNumbered(s: State)
    requires Sane(s)
    ensures Numbered(s)
  {
  }

  lemma BootShort(s: State, tileId: string, bid: nat)
    requires Sane(s) && Short(s, bid, 0)
    ensures Sane(Boot(s, tileId).s) && Short(Boot(s, tileId).s, bid, 0)
  {
    hide Carried, Owned;
    var ld := Level(true, "", tileId, 0, false, None, "", 0, None, false, false);
    var r := s.(slots := s.slots + 1, levels := s.levels[s.slots := ld]);
    OwnedNew(s.conts, s.levels, s.slots, ld);
    WaitMoves(r, s.slots, AwaitTile);
    MovedKeeps(r, Boot(s, tileId).s, s.slots, bid);
  }

  lemma WaitShort(s: State, pane: string, bid: nat)
    requires Sane(s) && Short(s, bid, 0)
    ensures var r := Mint(s, Cont(Other, 0, pane, None)); Sane(r) && Short(r, bid, 0)
  {
    hide Carried, Owned;
    var c := Cont(Other, 0, pane, None);
    MintOwned(s, c);
    CarriedMint(s.conts, s.next + 1, c, bid);
  }

  lemma ForgetShort(s: State, pane: string, bid: nat)
    requires Sane(s) && Short(s, bid, 0) && !Drops(s, Forgot(pane), bid)
    ensures Sane(Forget(s, pane)) && Short(Forget(s, pane), bid, 0)
  {
    hide Owned, Carried, Forget;
    ForgetOwned(s, pane);
    ForgetStands(s, pane, bid);
    ForgetLeaves(s, pane, bid);
  }

  lemma ForgetStands(s: State, pane: string, bid: nat)
    requires Numbered(s) && bid in s.barriers && !Drops(s, Forgot(pane), bid)
    ensures bid != 0 && bid in Forget(s, pane).barriers && Forget(s, pane).levels == s.levels
  {
    var gone := set t | t in s.conts && s.conts[t].pane == pane;
    assert forall t :: t in gone ==> s.conts[t].barrier != bid;
  }

  lemma StepShort(s: State, act: Act, bid: nat)
    requires Sane(s) && Short(s, bid, 0) && !Drops(s, act, bid)
    ensures Sane(Next(s, act)) && Short(Next(s, act), bid, 0)
  {
    hide Sane, Forget, Enter, Boot, Land, Resume;
    match act
    case Entered(pane, door, held) => EnterShort(s, pane, door, held, bid);
    case Booted(tileId) => BootShort(s, tileId, bid);
    case Waited(pane) => WaitShort(s, pane, bid);
    case Landed(tok) => LandShort(s, tok, bid);
    case Resumed(tok, a) => ResumeShort(s, tok, a, bid);
    case Forgot(pane) => ForgetShort(s, pane, bid);
  }

  /** From s these steps lead to r, and none of them drops the join. */
  ghost predicate Leads(s: State, acts: seq<Act>, bid: nat, r: State)
    decreases |acts|
  {
    if acts == [] then r == s
    else Sane(s) && !Drops(s, acts[0], bid) && Leads(Next(s, acts[0]), acts[1..], bid, r)
  }

  lemma {:induction false} RunShort(s: State, acts: seq<Act>, bid: nat, r: State)
    requires Sane(s) && Short(s, bid, 0) && Leads(s, acts, bid, r)
    ensures Sane(r) && Short(r, bid, 0)
    decreases |acts|
  {
    hide Sane, Short, Next, Drops;
    if acts != [] {
      StepShort(s, acts[0], bid);
      RunShort(Next(s, acts[0]), acts[1..], bid, r);
    }
  }

  /** A token delivered by the other route is spent without reporting, and from then on its
      descent is pending for good: over every later run, however tokens are delivered, the join
      stands, owed more arms than live continuations carry, until a newer descent in its pane
      supersedes it or the pane goes while something still carries it. */
  lemma MisroutedSticks(s: State, tok: nat, a: Answer, acts: seq<Act>, r: State)
    requires Inv(s) && tok in s.conts && s.conts[tok].barrier in s.barriers
    requires Leads(Next(s, if s.conts[tok].step == Animated then Resumed(tok, a) else Landed(tok)), acts,
               s.conts[tok].barrier, r)
    ensures LevelPending(r) && s.conts[tok].barrier in r.barriers
    ensures r.barriers[s.conts[tok].barrier].arms > |Carried(r.conts, s.conts[tok].barrier)|
  {
    hide JoinWith, Owned, Carried, Leads;
    var bid := s.conts[tok].barrier;
    MisroutedShort(s, tok, a);
    RunShort(Next(s, if s.conts[tok].step == Animated then Resumed(tok, a) else Landed(tok)), acts, bid, r);
    assert r.barriers.Keys != {};
  }

  lemma MisroutedShort(s: State, tok: nat, a: Answer)
    requires Inv(s) && tok in s.conts && s.conts[tok].barrier in s.barriers
    ensures var r := Next(s, if s.conts[tok].step == Animated then Resumed(tok, a) else Landed(tok));
            r == Take(s, tok) && Sane(r) && Short(r, s.conts[tok].barrier, 0)
  {
    hide Carried, Owned, JoinsOk;
    var bid := s.conts[tok].barrier;
    MisroutedTakes(s, tok, a);
    ArmsAreCarried(s, bid);
    TakeOwned(s, tok);
    CarriedTake(s.conts, tok, bid);
    CarriedIs(s.conts, bid);
    OneLess(Carried(s.conts, bid), tok);
  }

  lemma ArmsAreCarried(s: State, bid: nat)
    requires Inv(s) && bid in s.barriers
    ensures s.barriers[bid].arms == |Carried(s.conts, bid)|
  {
    hide Carried, Owned;
    assert JoinOk(s, bid);
  }

  lemma MisroutedTakes(s: State, tok: nat, a: Answer)
    requires Sane(s) && tok in s.conts
    ensures Next(s, if s.conts[tok].step == Animated then Resumed(tok, a) else Landed(tok)) == Take(s, tok)
  {
  }

  // ---------------------------------------------------------------- superseded and retired

  lemma EnterJoins(s: State, pane: string, door: Tile, held: Option<Tile>)
    requires Sane(s)
    ensures var r, bid := Enter(s, pane, door, held).s, s.nextBarrier + 1;
            && (forall b :: b in r.barriers && b != bid ==> b in s.barriers && s.barriers[b].pane != pane && r.barriers[b] == s.barriers[b])
            && (forall b :: b in s.barriers && s.barriers[b].pane != pane ==> b in r.barriers)
  {
    hide Row, Owned;
    var e := Entering(s, pane, door);
    EnteringHeld(s, pane, door);
    if held.Some? && held.value.id == door.id {
      RowMoves(e, s.slots, held.value);
    } else {
      WaitMoves(e, s.slots, AwaitTile);
    }
  }

  lemma EnteringHeld(s: State, pane: string, door: Tile)
    requires Sane(s)
    ensures FetchHeld(Entering(s, pane, door), s.slots)
    ensures Entering(s, pane, door).levels[s.slots].barrier == s.nextBarrier + 1
    ensures Entering(s, pane, door).barriers == OtherPanes(s.barriers, pane)[s.nextBarrier + 1 := Barrier(pane, 2, false, s.slots)]
  {
    hide Carried, Owned;
    var started, c := Started(s, pane, door), Cont(Animated, s.nextBarrier + 1, pane, None);
    OwnedNew(s.conts, s.levels, s.slots, started.levels[s.slots]);
    MintOwned(started, c);
  }

  /** A newer descent in a pane supersedes the pane's joins and no other. */
  lemma EnteredSupersedes(s: State, pane: string, door: Tile, held: Option<Tile>, b: nat)
    requires Inv(s) && b in s.barriers
    ensures b in Enter(s, pane, door, held).s.barriers <==> s.barriers[b].pane != pane
  {
    hide Enter, Owned;
    EnterJoins(s, pane, door, held);
    assert b <= s.nextBarrier;
  }

  /** A pane that goes takes its continuations and its joins with it, and no other's. */
  lemma ForgotRetires(s: State, pane: string)
    requires Inv(s)
    ensures var r := Forget(s, pane);
            && (forall t :: t in r.conts <==> t in s.conts && s.conts[t].pane != pane)
            && (forall b :: b in s.barriers ==> (b in r.barriers <==> s.barriers[b].pane != pane))
  {
    hide Inv, Forget;
    ForgotConts(s, pane);
    forall b | b in s.barriers ensures b in Forget(s, pane).barriers <==> s.barriers[b].pane != pane {
      SomeCarries(s, b);
      ForgotJoin(s, pane, b);
    }
  }

  lemma ForgotConts(s: State, pane: string)
    ensures forall t :: t in Forget(s, pane).conts <==> t in s.conts && s.conts[t].pane != pane
  {
  }

  lemma ForgotJoin(s: State, pane: string, b: nat)
    requires b != 0 && b in s.barriers && exists t :: t in s.conts && s.conts[t].barrier == b
    requires forall t :: t in s.conts && s.conts[t].barrier == b ==> s.conts[t].pane == s.barriers[b].pane
    ensures b in Forget(s, pane).barriers <==> s.barriers[b].pane != pane
  {
    var gone := set t | t in s.conts && s.conts[t].pane == pane;
    var t :| t in s.conts && s.conts[t].barrier == b;
    assert t in gone <==> s.barriers[b].pane == pane;
    assert b in (set t | t in gone :: s.conts[t].barrier) <==> exists t :: t in gone && s.conts[t].barrier == b;
  }

  /** A live join is carried, by its own pane's continuations. */
  lemma SomeCarries(s: State, b: nat)
    requires Inv(s) && b in s.barriers
    ensures b != 0 && exists t :: t in s.conts && s.conts[t].barrier == b
    ensures forall t :: t in s.conts && s.conts[t].barrier == b ==> s.conts[t].pane == s.barriers[b].pane
  {
    hide Owned;
    assert b != 0 && JoinOk(s, b);
    var m := Carried(s.conts, b);
    assert m.Keys != {};
    var t :| t in m;
    assert s.conts[t].barrier == b;
    assert forall t :: t in s.conts && s.conts[t].barrier == b ==> t in m;
  }

  /** No step brings a join back. */
  lemma JoinsFrom(s: State, act: Act, b: nat)
    requires Inv(s) && b in Next(s, act).barriers
    ensures b in s.barriers || b == s.nextBarrier + 1
  {
    hide Enter, Owned, Row, Body, Fails, Reports, JoinsOk, Moved;
    match act
    case Entered(pane, door, held) => EnterJoins(s, pane, door, held);
    case Landed(tok) =>
      if tok in s.conts && s.conts[tok].step == Animated { ReportMoves(Take(s, tok), s.conts[tok].barrier, false); }
    case Resumed(tok, a) =>
      if tok in s.conts && s.conts[tok].level.Some? {
        var c, r, l := s.conts[tok], Take(s, tok), s.conts[tok].level.value;
        TakenHeld(s, tok);
        HeldNumbered(r, l);
        match c.step
        case AwaitTile =>
          if !a.ok || a.tile.None? { FailsMoves(r, l, "GetTile"); } else { RowMoves(r, l, a.tile.value); }
          MovedFrom(r, Resume(s, tok, a).s, l, b);
        case AwaitBody =>
          BodyMoves(r, l, a);
          MovedFrom(r, Resume(s, tok, a).s, l, b);
        case _ =>
      }
    case _ =>
  }

  lemma MovedFrom(s: State, r: State, l: nat, b: nat)
    requires l in s.levels && Moved(s, r, l) && b in r.barriers
    ensures b in s.barriers
  {
  }

  /** A run that goes on from a world. */
  ghost predicate Continues(w: World, acts: seq<Act>, r: World)
    decreases |acts|
  {
    if acts == [] then r == w
    else Inv(w.s) && Routed(w.s, acts[0]) && Continues(Do(w, acts[0]), acts[1..], r)
  }

  lemma StepGone(w: World, act: Act, bid: nat)
    requires Kept(w) && Routed(w.s, act) && bid in w.told && bid !in w.s.barriers
    ensures Inv(w.s)
    ensures var r := Do(w, act);
            Kept(r) && bid in r.told && bid !in r.s.barriers && (bid in r.installs <==> bid in w.installs)
  {
    hide Inv, Enter, Boot, Land, Resume, Forget, TellIn, Carried;
    KeptNumbered(w);
    StepTells(w, act);
    SaneOf(w.s);
    NextIs(w, act);
    if bid in Do(w, act).s.barriers {
      JoinsFrom(w.s, act, bid);
    }
    assert TellOk(w, bid) && TellOk(Do(w, act), bid);
    ToldStays(w, act, bid);
    GoneTells(w, bid);
    GoneTells(Do(w, act), bid);
  }

  lemma SaneOf(s: State)
    requires Inv(s)
    ensures Sane(s)
  {
  }

  lemma NextIs(w: World, act: Act)
    requires Inv(w.s)
    ensures Next(w.s, act) == Do(w, act).s
  {
  }

  lemma ToldStays(w: World, act: Act, bid: nat)
    requires Inv(w.s) && bid in w.told && bid !in w.s.barriers && bid <= w.s.nextBarrier
    ensures var r := Do(w, act); bid in r.told && r.told[bid] == w.told[bid]
  {
    hide Enter, Boot, Land, Resume, Forget, InstallsOf, Inv, NavLevel.Answered, Good;
  }

  lemma GoneTells(w: World, bid: nat)
    requires bid in w.told && TellOk(w, bid) && bid !in w.s.barriers
    ensures bid in w.installs <==> w.told[bid].animated && w.told[bid].fetched == Some(true)
  {
  }

  lemma {:induction false} GoneForGood(w: World, acts: seq<Act>, r: World, bid: nat)
    requires Kept(w) && bid in w.told && bid !in w.s.barriers && Continues(w, acts, r)
    ensures bid !in r.s.barriers && (bid in r.installs <==> bid in w.installs)
    decreases |acts|
  {
    hide Kept, Do, Inv, Routed;
    if acts != [] {
      StepGone(w, acts[0], bid);
      GoneForGood(Do(w, acts[0]), acts[1..], r, bid);
    }
  }

  /** A descent still pending when its pane is entered anew, or goes, never installs: not at that
      step nor in any run from it. */
  lemma SupersededNeverInstalls(w: World, act: Act, acts: seq<Act>, r: World, bid: nat)
    requires Kept(w) && bid in w.s.barriers
    requires (act.Entered? || act.Forgot?) && act.pane == w.s.barriers[bid].pane
    requires Inv(w.s) && Continues(Do(w, act), acts, r)
    ensures bid !in r.s.barriers && bid !in r.installs
  {
    hide Enter, Forget, InstallsOf, Carried, Continues, TellIn;
    JoinTold(w, bid);
    StepTells(w, act);
    var v := Do(w, act);
    match act {
      case Entered(pane, door, held) => EnteredSupersedes(w.s, pane, door, held, bid);
      case Forgot(pane) => ForgotRetires(w.s, pane);
    }
    NotInstalled(w, act, bid);
    GoneForGood(v, acts, r, bid);
  }

  lemma JoinTold(w: World, bid: nat)
    requires Kept(w) && bid in w.s.barriers
    ensures bid in w.told && bid !in w.installs && Untold(w, bid)
  {
    hide Carried, Inv;
    KeptNumbered(w);
    SomeCarries(w.s, bid);
    CarriedIs(w.s.conts, bid);
    var t :| t in w.s.conts && w.s.conts[t].barrier == bid;
    ArmOf(w.s, t);
    LiveTells(w, bid, t);
  }

  lemma LiveTells(w: World, bid: nat, t: nat)
    requires Kept(w) && bid in w.s.barriers && t in Carried(w.s.conts, bid)
    requires Carried(w.s.conts, bid)[t].step == Animated || Fetching(Carried(w.s.conts, bid)[t])
    ensures bid in w.told && bid !in w.installs && Untold(w, bid)
  {
    hide Carried, Inv;
    InvNumbers(w);
    assert TellOk(w, bid);
  }

  lemma InvNumbers(w: World)
    requires Kept(w)
    ensures forall b :: b in w.s.barriers ==> b in w.told
  {
  }

  lemma ArmOf(s: State, t: nat)
    requires Inv(s) && t in s.conts && s.conts[t].barrier != 0
    ensures s.conts[t].step == Animated || Fetching(s.conts[t])
  {
    hide JoinsOk;
  }

  /** A live join has not both arms told well. */
  ghost predicate Untold(w: World, bid: nat)
    requires bid in w.told
  {
    !(w.told[bid].animated && w.told[bid].fetched == Some(true))
  }

  /** The step that takes the join away tells it nothing and installs it not. */
  lemma NotInstalled(w: World, act: Act, bid: nat)
    requires Kept(w) && Inv(w.s) && (act.Entered? || act.Forgot?) && Kept(Do(w, act))
    requires bid in w.told && Untold(w, bid) && bid in w.s.barriers && bid !in Do(w, act).s.barriers
    ensures bid in Do(w, act).told && bid !in Do(w, act).installs
  {
    hide Enter, Forget, InstallsOf, TellIn, Carried;
    assert bid <= w.s.nextBarrier;
    assert TellOk(Do(w, act), bid);
    GoneTells(Do(w, act), bid);
  }
}
