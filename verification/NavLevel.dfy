/** client/nav/nav.go and client/nav/level.go: the continuations of workspace descents and the
    barriers that join a descent's animation with its fetch, as functions over the machine's
    maps. A level's own data, a pointer there, is a slot here. Zoom geometry is not part of
    this model. */
module NavLevel {
  import opened Options

  /** The facts of a row a descent reads. */
  datatype Tile = Tile(id: string, blob: int, version: int, leafLink: bool, contentId: string, workspace: bool)

  datatype StepKind = Animated | AwaitTile | AwaitBody | Other

  /** One suspended continuation; barrier 0 is none. */
  datatype Cont = Cont(step: StepKind, barrier: nat, pane: string, level: Option<nat>)

  datatype Barrier = Barrier(pane: string, arms: int, failed: bool, level: nat)

  datatype LevelTree = Decoded(data: string) | Fallback

  datatype Level = Level(boot: bool, pane: string, tileId: string, barrier: nat, followed: bool,
    tile: Option<Tile>, data: string, basis: int, tree: Option<LevelTree>, capture: bool, readOnly: bool)

  datatype State = State(next: nat, conts: map<nat, Cont>, nextBarrier: nat, barriers: map<nat, Barrier>,
    slots: nat, levels: map<nat, Level>)

  datatype Effect =
    | StartTransition(pane: string, land: nat, expand: bool)
    | Await(token: nat, id: string, layout: bool)
    | InstallPlace(pane: string)
    | InstallLevel(level: Level)
    | Report(source: string)
    | CancelTransition | CloseMenu | FlushLayout | RefreshOverlay | ScheduleUrl

  datatype Out = Out(s: State, effects: seq<Effect>)

  /** An awaited answer. */
  datatype Answer = Answer(ok: bool, tile: Option<Tile>, data: string, version: int, decodes: bool)

  const START: State := State(0, map[], 0, map[], 0, map[])

  // ---------------------------------------------------------------- continuations and joins

  /** A continuation under the next token. */
  function Mint(s: State, c: Cont): State
  {
    s.(next := s.next + 1, conts := s.conts[s.next + 1 := c])
  }

  function Take(s: State, tok: nat): State
  {
    s.(conts := s.conts - {tok})
  }

  /** The joins of other panes. */
  function OtherPanes(barriers: map<nat, Barrier>, pane: string): map<nat, Barrier>
  {
    map b | b in barriers && barriers[b].pane != pane :: barriers[b]
  }

  /** A join of arms; the pane's older joins are superseded. */
  function MintBarrier(s: State, pane: string, arms: int, l: nat): State
  {
    s.(nextBarrier := s.nextBarrier + 1, barriers := OtherPanes(s.barriers, pane)[s.nextBarrier + 1 := Barrier(pane, arms, false, l)])
  }

  /** One arm reports; the join is answered once, by the last arm owed. */
  function Arrive(s: State, bid: nat, failed: bool): (State, Option<Barrier>)
  {
    if bid !in s.barriers then (s, None)
    else
      var b := s.barriers[bid];
      var after := b.(failed := b.failed || failed, arms := b.arms - 1);
      if after.arms > 0 then (s.(barriers := s.barriers[bid := after]), None)
      else (s.(barriers := s.barriers - {bid}), Some(after))
  }

  /** A pane goes away: its continuations and the joins they armed are retired. */
  function Forget(s: State, pane: string): State
  {
    var gone := set t | t in s.conts && s.conts[t].pane == pane;
    var joins := set t | t in gone :: s.conts[t].barrier;
    s.(conts := s.conts - gone, barriers := s.barriers - (joins - {0}))
  }

  // ---------------------------------------------------------------- opening a level

  function InstallData(s: State, ld: Level): Out
  {
    Out(s, [CancelTransition, CloseMenu, FlushLayout, InstallLevel(ld), RefreshOverlay, ScheduleUrl])
  }

  /** The joined step: the origin pane's place goes back, then the swap, or nothing when the
      fetch failed. */
  function Joined(s: State, b: Barrier): Out
    requires b.level in s.levels
  {
    var ld := s.levels[b.level];
    var swap := if b.failed then Out(s, []) else InstallData(s, ld);
    Out(s, [InstallPlace(ld.pane)] + swap.effects)
  }

  /** An arm of a level's join reports. */
  function Reports(s: State, bid: nat, failed: bool): Out
    requires bid in s.barriers ==> s.barriers[bid].level in s.levels
  {
    var (r, b) := Arrive(s, bid, failed);
    if b.Some? then Joined(r, b.value) else Out(r, [])
  }

  function Ready(s: State, l: nat): Out
    requires l in s.levels && forall b :: b in s.barriers ==> s.barriers[b].level in s.levels
  {
    if s.levels[l].boot then InstallData(s, s.levels[l]) else Reports(s, s.levels[l].barrier, false)
  }

  function Fails(s: State, l: nat, what: string): Out
    requires l in s.levels && forall b :: b in s.barriers ==> s.barriers[b].level in s.levels
  {
    var report := Report("rpc:" + what);
    if s.levels[l].boot then Out(s, [report])
    else
      var r := Reports(s, s.levels[l].barrier, true);
      Out(r.s, [report] + r.effects)
  }

  function AwaitRow(s: State, l: nat): Out
    requires l in s.levels
  {
    var ld := s.levels[l];
    Out(Mint(s, Cont(AwaitTile, ld.barrier, ld.pane, Some(l))), [Await(s.next + 1, ld.tileId, false)])
  }

  /** Opens the level off its row: one hop along a link, then its layout, or at once when it
      was never arranged. */
  function Row(s: State, l: nat, t: Tile): Out
    requires l in s.levels && forall b :: b in s.barriers ==> s.barriers[b].level in s.levels
  {
    var ld := s.levels[l];
    if t.leafLink && !ld.followed then
      AwaitRow(s.(levels := s.levels[l := ld.(followed := true, tileId := t.contentId)]), l)
    else if ld.boot && !t.workspace then Out(s, [Report("layout:" + ld.tileId)])
    else
      var seen := ld.(tile := Some(t), basis := t.version);
      if t.blob == 0 then
        Ready(s.(levels := s.levels[l := if ld.boot then seen.(tree := Some(Fallback)) else seen.(capture := true)]), l)
      else
        Out(Mint(s.(levels := s.levels[l := seen]), Cont(AwaitBody, ld.barrier, ld.pane, Some(l))),
          [Await(s.next + 1, ld.tileId, true)])
  }

  /** The layout blob: one that does not decode opens the default read-only. */
  function Body(s: State, l: nat, a: Answer): Out
    requires l in s.levels && forall b :: b in s.barriers ==> s.barriers[b].level in s.levels
  {
    if !a.ok then Fails(s, l, "ReadContent")
    else
      var ld := s.levels[l].(data := a.data, basis := a.version,
        tree := Some(if a.decodes then Decoded(a.data) else Fallback), readOnly := !a.decodes);
      var r := Ready(s.(levels := s.levels[l := ld]), l);
      Out(r.s, (if a.decodes then [] else [Report("layout:" + ld.tileId)]) + r.effects)
  }

  /** A descent into a workspace tile; held is its row when the cache vouches for it. */
  function Enter(s: State, pane: string, door: Tile, held: Option<Tile>): Out
    requires forall b :: b in s.barriers ==> s.barriers[b].level in s.levels
  {
    var l := s.slots;
    var joined := MintBarrier(s, pane, 2, l);
    var ld := Level(false, pane, door.id, joined.nextBarrier, false, None, "", 0, None, false, false);
    var started := joined.(slots := l + 1, levels := s.levels[l := ld]);
    var animating := Mint(started, Cont(Animated, joined.nextBarrier, pane, None));
    var fetch := if held.Some? && held.value.id == door.id then Row(animating, l, held.value) else AwaitRow(animating, l);
    Out(fetch.s, [StartTransition(pane, animating.next, door.blob == 0)] + fetch.effects)
  }

  /** A workspace tile restored by a reload: nothing to join. */
  function Boot(s: State, tileId: string): Out
  {
    var l := s.slots;
    var ld := Level(true, "", tileId, 0, false, None, "", 0, None, false, false);
    AwaitRow(s.(slots := l + 1, levels := s.levels[l := ld]), l)
  }

  /** An awaited answer is delivered. */
  function Resume(s: State, tok: nat, a: Answer): Out
    requires forall t :: t in s.conts && s.conts[t].level.Some? ==> s.conts[t].level.value in s.levels
    requires forall b :: b in s.barriers ==> s.barriers[b].level in s.levels
  {
    if tok !in s.conts then Out(s, [])
    else
      var c, r := s.conts[tok], Take(s, tok);
      if c.level.None? then Out(r, [])
      else
        match c.step
        case AwaitTile =>
          if !a.ok || a.tile.None? then Fails(r, c.level.value, "GetTile") else Row(r, c.level.value, a.tile.value)
        case AwaitBody => Body(r, c.level.value, a)
        case _ => Out(r, [])
  }

  /** The transition a continuation rode has landed. */
  function Land(s: State, tok: nat): Out
    requires forall b :: b in s.barriers ==> s.barriers[b].level in s.levels
  {
    if tok !in s.conts then Out(s, [])
    else if s.conts[tok].step == Animated then Reports(Take(s, tok), s.conts[tok].barrier, false)
    else Out(Take(s, tok), [])
  }

  /** A descent is between its gesture and its install. */
  predicate LevelPending(s: State)
  {
    |s.barriers| > 0
  }

  // ---------------------------------------------------------------- what every step keeps

  /** The live continuations that carry a join. */
  function Carried(conts: map<nat, Cont>, bid: nat): map<nat, Cont>
  {
    map t | t in conts && conts[t].barrier == bid :: conts[t]
  }

  predicate Fetching(c: Cont)
  {
    c.step == AwaitTile || c.step == AwaitBody
  }

  /** Tokens and joins are numbered up, and what is pointed at is there. */
  ghost predicate Numbered(s: State)
  {
    && (forall t :: t in s.conts ==> 1 <= t <= s.next && s.conts[t].barrier <= s.nextBarrier)
    && (forall b :: b in s.barriers ==> 1 <= b <= s.nextBarrier && s.barriers[b].level in s.levels)
    && (forall l :: l in s.levels ==> l < s.slots && s.levels[l].barrier <= s.nextBarrier)
    && (forall t :: t in s.conts && s.conts[t].level.Some? ==> s.conts[t].level.value in s.levels)
  }

  /** A fetch continuation is its level's only one and speaks under its level's join and pane;
      an animation's is its join's only one. */
  ghost predicate Owned(conts: map<nat, Cont>, levels: map<nat, Level>)
  {
    && (forall t :: t in conts ==> (Fetching(conts[t]) <==> conts[t].level.Some?))
    && (forall t :: t in conts && conts[t].level.Some? ==> SpeaksFor(conts[t], levels))
    && (forall t, u :: t in conts && u in conts && conts[t].level.Some? && conts[t].level == conts[u].level ==> t == u)
    && (forall t :: t in conts ==> (conts[t].step == Animated ==> conts[t].barrier != 0) && (conts[t].step == Other ==> conts[t].barrier == 0))
    && (forall t, u :: t in conts && u in conts && conts[t].step == Animated && conts[u].step == Animated && conts[t].barrier == conts[u].barrier ==> t == u)
  }

  ghost predicate SpeaksFor(c: Cont, levels: map<nat, Level>)
  {
    && c.level.Some? && c.level.value in levels
    && var ld := levels[c.level.value];
       && ld.barrier == c.barrier && ld.pane == c.pane && (ld.boot <==> ld.barrier == 0)
       && (c.step == AwaitBody ==> ld.tile.Some?)
  }

  /** A join is its level's; it is owed extra reports besides those its continuations carry;
      one that waits for no fetch, and has not failed, knows its row. */
  ghost predicate JoinWith(carried: map<nat, Cont>, bid: nat, b: Barrier, ld: Level, extra: nat, failed: bool)
  {
    && ld.barrier == bid && !ld.boot && ld.pane == b.pane && b.arms == |carried| + extra
    && (forall t :: t in carried ==> carried[t].pane == b.pane)
    && (forall t :: t in carried && Fetching(carried[t]) ==> carried[t].level == Some(b.level) && !b.failed && !failed)
    && ((forall t :: t in carried ==> !Fetching(carried[t])) && !b.failed && !failed ==> ld.tile.Some?)
  }

  ghost predicate JoinOk(s: State, bid: nat)
    requires bid in s.barriers
  {
    && s.barriers[bid].level in s.levels && s.barriers[bid].arms >= 1
    && JoinWith(Carried(s.conts, bid), bid, s.barriers[bid], s.levels[s.barriers[bid].level], 0, false)
  }

  ghost predicate JoinsOk(s: State, but: nat)
  {
    forall b :: b in s.barriers && b != but ==> JoinOk(s, b)
  }

  /** Every live join's arms are its live continuations. */
  ghost predicate Inv(s: State)
  {
    Numbered(s) && Owned(s.conts, s.levels) && JoinsOk(s, 0)
  }

  /** One arm of a join is in hand, about to report. */
  ghost predicate InHand(s: State, bid: nat, failed: bool)
  {
    && Numbered(s) && Owned(s.conts, s.levels) && JoinsOk(s, bid)
    && (bid in s.barriers ==>
          && s.barriers[bid].level in s.levels
          && JoinWith(Carried(s.conts, bid), bid, s.barriers[bid], s.levels[s.barriers[bid].level], 1, failed))
  }

  lemma JoinReported(m: map<nat, Cont>, bid: nat, b: Barrier, ld: Level, failed: bool)
    requires JoinWith(m, bid, b, ld, 1, failed)
    ensures JoinWith(m, bid, b.(failed := b.failed || failed, arms := b.arms - 1), ld, 0, false)
  {
  }

  /** The report brings the join back in step, or resolves it. */
  lemma ReportKeeps(s: State, bid: nat, failed: bool)
    requires InHand(s, bid, failed)
    ensures Inv(Reports(s, bid, failed).s)
    ensures var r := Reports(s, bid, failed).s;
            r == s.(barriers := r.barriers) && forall b :: b != bid ==> (b in r.barriers <==> b in s.barriers)
  {
    hide Carried, Owned, JoinWith, Joined;
    var r := Arrive(s, bid, failed).0;
    if bid in s.barriers {
      JoinReported(Carried(s.conts, bid), bid, s.barriers[bid], s.levels[s.barriers[bid].level], failed);
    }
    assert r == s.(barriers := r.barriers);
    forall b | b in r.barriers && b != 0
      ensures JoinOk(r, b)
    {
      if b != bid { assert JoinOk(s, b); }
    }
    assert Inv(r);
    JoinedState(s, bid, failed);
  }

  lemma JoinedState(s: State, bid: nat, failed: bool)
    requires bid in s.barriers ==> s.barriers[bid].level in s.levels
    ensures Reports(s, bid, failed).s == Arrive(s, bid, failed).0
  {
  }

  lemma CarriedMint(conts: map<nat, Cont>, tok: nat, c: Cont, bid: nat)
    requires tok !in conts
    ensures Carried(conts[tok := c], bid) ==
              if c.barrier == bid then Carried(conts, bid)[tok := c] else Carried(conts, bid)
    ensures tok !in Carried(conts, bid)
  {
  }

  lemma CarriedTake(conts: map<nat, Cont>, tok: nat, bid: nat)
    ensures Carried(conts - {tok}, bid) == Carried(conts, bid) - {tok}
  {
  }

  lemma OneMore(m: map<nat, Cont>, tok: nat, c: Cont)
    requires tok !in m
    ensures |m[tok := c]| == |m| + 1
  {
    assert m[tok := c].Keys == m.Keys + {tok};
  }

  lemma OneLess(m: map<nat, Cont>, tok: nat)
    requires tok in m
    ensures |m - {tok}| + 1 == |m|
  {
    var r := m - {tok};
    assert r[tok := m[tok]] == m;
    OneMore(r, tok, m[tok]);
  }

  lemma TakeOwned(s: State, tok: nat)
    requires Numbered(s) && Owned(s.conts, s.levels)
    ensures Numbered(Take(s, tok)) && Owned(Take(s, tok).conts, s.levels)
  {
  }

  lemma TakeOthers(s: State, tok: nat, bid: nat)
    requires JoinsOk(s, 0) && tok in s.conts && s.conts[tok].barrier == bid && 0 !in s.barriers
    ensures JoinsOk(Take(s, tok), bid)
  {
    hide JoinWith;
    var r := Take(s, tok);
    forall b | b in r.barriers && b != bid
      ensures JoinOk(r, b)
    {
      assert JoinOk(s, b);
      CarriedTake(s.conts, tok, b);
      assert Carried(r.conts, b) == Carried(s.conts, b);
    }
  }

  /** A level whose fetch is in hand: no continuation speaks for it now. */
  ghost predicate FetchInHand(s: State, l: nat)
  {
    && l in s.levels && InHand(s, s.levels[l].barrier, true)
    && (s.levels[l].boot <==> s.levels[l].barrier == 0)
    && (forall t :: t in s.conts ==> s.conts[t].level != Some(l))
    && (s.levels[l].barrier in s.barriers ==>
          s.barriers[s.levels[l].barrier].level == l && !s.barriers[s.levels[l].barrier].failed)
  }

  lemma FetchJoinTaken(m: map<nat, Cont>, tok: nat, bid: nat, b: Barrier, ld: Level)
    requires JoinWith(m, bid, b, ld, 0, false) && tok in m && Fetching(m[tok])
    requires forall t :: t in m && Fetching(m[t]) && m[t].level == m[tok].level ==> t == tok
    ensures JoinWith(m - {tok}, bid, b, ld, 1, true) && m[tok].level == Some(b.level) && !b.failed
  {
    OneLess(m, tok);
  }

  lemma FetchTaken(s: State, tok: nat)
    requires Inv(s) && tok in s.conts && s.conts[tok].level.Some?
    ensures FetchInHand(Take(s, tok), s.conts[tok].level.value)
  {
    hide JoinWith, Carried;
    var r, bid := Take(s, tok), s.conts[tok].barrier;
    TakeOwned(s, tok);
    TakeOthers(s, tok, bid);
    assert SpeaksFor(s.conts[tok], s.levels);
    if bid in s.barriers {
      assert JoinOk(s, bid);
      CarriedTake(s.conts, tok, bid);
      CarriedIs(s.conts, bid);
      FetchJoinTaken(Carried(s.conts, bid), tok, bid, s.barriers[bid], s.levels[s.barriers[bid].level]);
    }
  }

  lemma CarriedIs(conts: map<nat, Cont>, bid: nat)
    ensures forall t :: t in Carried(conts, bid) <==> t in conts && conts[t].barrier == bid
    ensures forall t :: t in Carried(conts, bid) ==> Carried(conts, bid)[t] == conts[t]
  {
  }

  lemma AnimationJoinTaken(m: map<nat, Cont>, tok: nat, bid: nat, b: Barrier, ld: Level)
    requires JoinWith(m, bid, b, ld, 0, false) && tok in m && !Fetching(m[tok])
    ensures JoinWith(m - {tok}, bid, b, ld, 1, false)
  {
    OneLess(m, tok);
    var r := m - {tok};
    if forall t :: t in r ==> !Fetching(r[t]) {
      assert forall t :: t in m ==> t == tok || t in r;
    }
  }

  lemma AnimationTaken(s: State, tok: nat)
    requires Inv(s) && tok in s.conts && s.conts[tok].step == Animated
    ensures InHand(Take(s, tok), s.conts[tok].barrier, false)
  {
    hide JoinWith, Carried;
    var r, bid := Take(s, tok), s.conts[tok].barrier;
    TakeOwned(s, tok);
    TakeOthers(s, tok, bid);
    if bid in s.barriers {
      assert JoinOk(s, bid);
      CarriedTake(s.conts, tok, bid);
      CarriedIs(s.conts, bid);
      AnimationJoinTaken(Carried(s.conts, bid), tok, bid, s.barriers[bid], s.levels[s.barriers[bid].level]);
    }
  }

  lemma OwnedLearns(conts: map<nat, Cont>, levels: map<nat, Level>, l: nat, ld: Level)
    requires Owned(conts, levels) && l in levels
    requires ld.boot == levels[l].boot && ld.barrier == levels[l].barrier && ld.pane == levels[l].pane
    requires forall t :: t in conts ==> conts[t].level != Some(l)
    ensures Owned(conts, levels[l := ld])
  {
  }

  lemma JoinLearned(m: map<nat, Cont>, bid: nat, b: Barrier, was: Level, ld: Level)
    requires JoinWith(m, bid, b, was, 1, true)
    requires ld.boot == was.boot && ld.barrier == was.barrier && ld.pane == was.pane
    ensures JoinWith(m, bid, b, ld, 1, true) && (ld.tile.Some? && !b.failed ==> JoinWith(m, bid, b, ld, 1, false))
  {
  }

  /** A level in hand may learn facts of itself. */
  lemma Learned(s: State, l: nat, ld: Level)
    requires FetchInHand(s, l)
    requires ld.boot == s.levels[l].boot && ld.barrier == s.levels[l].barrier && ld.pane == s.levels[l].pane
    ensures FetchInHand(s.(levels := s.levels[l := ld]), l)
    ensures ld.tile.Some? ==> InHand(s.(levels := s.levels[l := ld]), ld.barrier, false)
  {
    hide Carried, Owned, JoinWith, JoinsOk;
    var r, bid := s.(levels := s.levels[l := ld]), ld.barrier;
    OwnedLearns(s.conts, s.levels, l, ld);
    JoinsLearn(s, l, ld);
    if bid in s.barriers {
      JoinLearned(Carried(s.conts, bid), bid, s.barriers[bid], s.levels[l], ld);
    }
  }

  lemma JoinsLearn(s: State, l: nat, ld: Level)
    requires JoinsOk(s, ld.barrier) && l in s.levels && s.levels[l].barrier == ld.barrier
    ensures JoinsOk(s.(levels := s.levels[l := ld]), ld.barrier)
  {
    hide Carried;
    var r := s.(levels := s.levels[l := ld]);
    forall b | b in r.barriers && b != ld.barrier
      ensures JoinOk(r, b)
    {
      assert JoinOk(s, b);
    }
  }

  /** A continuation that may join the others. */
  ghost predicate MayJoin(conts: map<nat, Cont>, levels: map<nat, Level>, c: Cont)
  {
    && (Fetching(c) <==> c.level.Some?)
    && (c.level.Some? ==> SpeaksFor(c, levels) && forall t :: t in conts ==> conts[t].level != c.level)
    && (c.step == Animated ==> c.barrier != 0) && (c.step == Other ==> c.barrier == 0)
    && (c.step == Animated ==> forall t :: t in conts && conts[t].step == Animated ==> conts[t].barrier != c.barrier)
  }

  lemma MintOwned(s: State, c: Cont)
    requires Numbered(s) && Owned(s.conts, s.levels) && MayJoin(s.conts, s.levels, c) && c.barrier <= s.nextBarrier
    ensures Numbered(Mint(s, c)) && Owned(Mint(s, c).conts, s.levels) && s.next + 1 !in s.conts
  {
    hide Owned;
    assert c.level.Some? ==> c.level.value in s.levels;
    assert s.next + 1 !in s.conts;
    JoinsOwned(s.conts, s.levels, s.next + 1, c);
  }

  lemma JoinsOwned(conts: map<nat, Cont>, levels: map<nat, Level>, tok: nat, c: Cont)
    requires Owned(conts, levels) && MayJoin(conts, levels, c) && tok !in conts
    ensures Owned(conts[tok := c], levels)
  {
    hide SpeaksFor, Fetching;
  }

  lemma MintOthers(s: State, c: Cont)
    requires JoinsOk(s, c.barrier) && s.next + 1 !in s.conts
    ensures JoinsOk(Mint(s, c), c.barrier)
  {
    hide JoinWith, Carried;
    var r := Mint(s, c);
    forall b | b in r.barriers && b != c.barrier
      ensures JoinOk(r, b)
    {
      assert JoinOk(s, b);
      CarriedMint(s.conts, s.next + 1, c, b);
    }
  }

  lemma JoinMinted(m: map<nat, Cont>, tok: nat, c: Cont, bid: nat, b: Barrier, ld: Level)
    requires JoinWith(m, bid, b, ld, 1, true) && tok !in m && Fetching(c) && c.pane == b.pane
    requires c.level == Some(b.level) && !b.failed
    ensures JoinWith(m[tok := c], bid, b, ld, 0, false) && b.arms >= 1
  {
    OneMore(m, tok, c);
    assert tok in m[tok := c];
  }

  /** Waiting on puts the arm back on a continuation. */
  lemma WaitKeeps(s: State, l: nat, step: StepKind)
    requires FetchInHand(s, l) && (step == AwaitTile || (step == AwaitBody && s.levels[l].tile.Some?))
    ensures Inv(Mint(s, Cont(step, s.levels[l].barrier, s.levels[l].pane, Some(l))))
  {
    hide JoinWith, Carried;
    var ld := s.levels[l];
    var c := Cont(step, ld.barrier, ld.pane, Some(l));
    MintOwned(s, c);
    MintOthers(s, c);
    var r := Mint(s, c);
    if ld.barrier in s.barriers {
      CarriedMint(s.conts, s.next + 1, c, ld.barrier);
      JoinPane(Carried(s.conts, ld.barrier), ld.barrier, s.barriers[ld.barrier], ld, 1, true);
      JoinMinted(Carried(s.conts, ld.barrier), s.next + 1, c, ld.barrier, s.barriers[ld.barrier], ld);
    }
    forall b | b in r.barriers && b != 0 ensures JoinOk(r, b) {
      if b != ld.barrier { assert JoinOk(r, b); }
    }
  }

  lemma JoinPane(m: map<nat, Cont>, bid: nat, b: Barrier, ld: Level, extra: nat, failed: bool)
    requires JoinWith(m, bid, b, ld, extra, failed)
    ensures ld.pane == b.pane
  {
  }

  lemma ReadyKeeps(s: State, l: nat)
    requires FetchInHand(s, l) && InHand(s, s.levels[l].barrier, false)
    ensures Inv(Ready(s, l).s) && Ready(s, l).s.conts == s.conts && Ready(s, l).s.levels == s.levels
  {
    hide InHand, Inv, Reports;
    HandNumbered(s, l);
    if s.levels[l].boot {
      NoJoin(s, false);
    } else {
      ReportKeeps(s, s.levels[l].barrier, false);
    }
  }

  /** Join 0 is none. */
  lemma NoJoin(s: State, failed: bool)
    requires InHand(s, 0, failed)
    ensures Inv(s)
  {
  }

  lemma FailsKeeps(s: State, l: nat, what: string)
    requires FetchInHand(s, l)
    ensures Numbered(s)
    ensures Inv(Fails(s, l, what).s) && Fails(s, l, what).s.conts == s.conts && Fails(s, l, what).s.levels == s.levels
  {
    hide InHand, Inv, Reports;
    HandNumbered(s, l);
    if s.levels[l].boot {
      NoJoin(s, true);
    } else {
      ReportKeeps(s, s.levels[l].barrier, true);
    }
  }

  lemma HandNumbered(s: State, l: nat)
    requires FetchInHand(s, l)
    ensures Numbered(s) && l in s.levels && (s.levels[l].boot <==> s.levels[l].barrier == 0)
    ensures InHand(s, s.levels[l].barrier, true)
  {
  }

  lemma RowKeeps(s: State, l: nat, t: Tile)
    requires FetchInHand(s, l)
    ensures Numbered(s)
    ensures Inv(Row(s, l, t).s)
  {
    hide FetchInHand, InHand, Inv, Ready;
    HandNumbered(s, l);
    var ld := s.levels[l];
    if t.leafLink && !ld.followed {
      var followed := ld.(followed := true, tileId := t.contentId);
      Learned(s, l, followed);
      WaitKeeps(s.(levels := s.levels[l := followed]), l, AwaitTile);
    } else if ld.boot && !t.workspace {
      NoJoin(s, true);
    } else {
      var seen := ld.(tile := Some(t), basis := t.version);
      if t.blob == 0 {
        var known := if ld.boot then seen.(tree := Some(Fallback)) else seen.(capture := true);
        Learned(s, l, known);
        ReadyKeeps(s.(levels := s.levels[l := known]), l);
      } else {
        Learned(s, l, seen);
        WaitKeeps(s.(levels := s.levels[l := seen]), l, AwaitBody);
      }
    }
  }

  lemma BodyKeeps(s: State, l: nat, a: Answer)
    requires FetchInHand(s, l) && s.levels[l].tile.Some?
    ensures Numbered(s)
    ensures Inv(Body(s, l, a).s) && Body(s, l, a).s.conts == s.conts
  {
    hide FetchInHand, InHand, Inv, Ready, Fails;
    HandNumbered(s, l);
    if !a.ok {
      FailsKeeps(s, l, "ReadContent");
    } else {
      var ld := s.levels[l].(data := a.data, basis := a.version,
        tree := Some(if a.decodes then Decoded(a.data) else Fallback), readOnly := !a.decodes);
      Learned(s, l, ld);
      ReadyKeeps(s.(levels := s.levels[l := ld]), l);
    }
  }

  /** A descent with its join minted and nothing waiting yet. */
  function Started(s: State, pane: string, door: Tile): State
  {
    var joined := MintBarrier(s, pane, 2, s.slots);
    var ld := Level(false, pane, door.id, joined.nextBarrier, false, None, "", 0, None, false, false);
    joined.(slots := s.slots + 1, levels := s.levels[s.slots := ld])
  }

  lemma StartedOk(s: State, pane: string, door: Tile)
    requires Inv(s)
    ensures var r, bid := Started(s, pane, door), s.nextBarrier + 1;
            && Numbered(r) && Owned(r.conts, r.levels) && JoinsOk(r, bid) && r.conts == s.conts
            && Carried(r.conts, bid) == map[] && s.slots !in s.levels
            && (forall t :: t in r.conts ==> r.conts[t].level != Some(s.slots) && r.conts[t].barrier != bid)
  {
    hide JoinWith, Carried, Owned;
    var r, bid := Started(s, pane, door), s.nextBarrier + 1;
    OwnedNew(s.conts, s.levels, s.slots, r.levels[s.slots]);
    NoneCarried(s.conts, bid);
    forall b | b in r.barriers && b != bid
      ensures JoinOk(r, b)
    {
      assert JoinOk(s, b);
    }
  }

  /** A new join, its animation waiting and its fetch in hand. */
  lemma EnterInHand(s: State, pane: string, door: Tile)
    requires Inv(s)
    ensures FetchInHand(Entering(s, pane, door), s.slots)
  {
    hide JoinWith, Carried, Owned, JoinsOk, Numbered;
    StartedOk(s, pane, door);
    var started, bid := Started(s, pane, door), s.nextBarrier + 1;
    var c := Cont(Animated, bid, pane, None);
    MintOwned(started, c);
    MintOthers(started, c);
    CarriedMint(started.conts, started.next + 1, c, bid);
    FirstArm(started.next + 1, c, bid, started.barriers[bid], started.levels[s.slots]);
  }

  /** A descent just before its fetch arm. */
  function Entering(s: State, pane: string, door: Tile): State
  {
    Mint(Started(s, pane, door), Cont(Animated, s.nextBarrier + 1, pane, None))
  }

  lemma FirstArm(tok: nat, c: Cont, bid: nat, b: Barrier, ld: Level)
    requires b.arms == 2 && !b.failed && b.pane == ld.pane == c.pane && ld.barrier == bid && !ld.boot && c.step == Animated
    ensures JoinWith(map[][tok := c], bid, b, ld, 1, true)
  {
    OneMore(map[], tok, c);
  }

  lemma NoneCarried(conts: map<nat, Cont>, bid: nat)
    requires forall t :: t in conts ==> conts[t].barrier < bid
    ensures Carried(conts, bid) == map[]
  {
  }

  lemma OwnedNew(conts: map<nat, Cont>, levels: map<nat, Level>, l: nat, ld: Level)
    requires Owned(conts, levels) && l !in levels
    ensures Owned(conts, levels[l := ld])
  {
    assert forall c :: SpeaksFor(c, levels) ==> SpeaksFor(c, levels[l := ld]);
  }

  lemma EnterKeeps(s: State, pane: string, door: Tile, held: Option<Tile>)
    requires Inv(s)
    ensures Inv(Enter(s, pane, door, held).s)
  {
    hide Inv, FetchInHand, Row;
    EnterInHand(s, pane, door);
    var e := Entering(s, pane, door);
    if held.Some? && held.value.id == door.id {
      RowKeeps(e, s.slots, held.value);
    } else {
      HandLevel(e, s.slots);
      WaitKeeps(e, s.slots, AwaitTile);
    }
  }

  lemma HandLevel(s: State, l: nat)
    requires FetchInHand(s, l)
    ensures l in s.levels
  {
  }

  lemma BootKeeps(s: State, tileId: string)
    requires Inv(s)
    ensures Inv(Boot(s, tileId).s)
  {
    hide JoinWith, Carried, Owned;
    var ld := Level(true, "", tileId, 0, false, None, "", 0, None, false, false);
    var r := s.(slots := s.slots + 1, levels := s.levels[s.slots := ld]);
    OwnedNew(s.conts, s.levels, s.slots, ld);
    forall b | b in r.barriers ensures JoinOk(r, b) {
      assert JoinOk(s, b);
    }
    BootInHand(s, r);
    hide FetchInHand, Inv;
    WaitKeeps(r, s.slots, AwaitTile);
  }

  lemma BootInHand(s: State, r: State)
    requires Inv(s) && s.slots in r.levels && r == s.(slots := s.slots + 1, levels := s.levels[s.slots := r.levels[s.slots]])
    requires r.levels[s.slots].boot && r.levels[s.slots].barrier == 0 && Owned(r.conts, r.levels) && JoinsOk(r, 0)
    ensures FetchInHand(r, s.slots)
  {
    hide JoinWith, Carried, Owned, JoinsOk;
  }

  lemma ForgetOwned(s: State, pane: string)
    requires Numbered(s) && Owned(s.conts, s.levels)
    ensures Numbered(Forget(s, pane)) && Owned(Forget(s, pane).conts, s.levels)
  {
  }

  lemma JoinGone(s: State, pane: string, t: nat)
    requires t in s.conts && s.conts[t].pane == pane && s.conts[t].barrier != 0
    ensures s.conts[t].barrier !in Forget(s, pane).barriers
  {
    var gone := set u | u in s.conts && s.conts[u].pane == pane;
    assert t in gone;
  }

  /** A join left standing lost none of its continuations. */
  lemma ForgetLeaves(s: State, pane: string, b: nat)
    requires b in Forget(s, pane).barriers && b != 0
    ensures Carried(Forget(s, pane).conts, b) == Carried(s.conts, b)
    ensures b in s.barriers && Forget(s, pane).barriers[b] == s.barriers[b]
  {
    var r := Forget(s, pane);
    forall t | t in s.conts && s.conts[t].barrier == b
      ensures t in r.conts
    {
      if s.conts[t].pane == pane {
        JoinGone(s, pane, t);
      }
    }
  }

  lemma ForgetKeeps(s: State, pane: string)
    requires Inv(s)
    ensures Inv(Forget(s, pane))
  {
    hide JoinWith, Carried, Owned, Numbered;
    var r := Forget(s, pane);
    ForgetOwned(s, pane);
    forall b | b in r.barriers && b != 0
      ensures JoinOk(r, b)
    {
      ForgetLeaves(s, pane, b);
      assert JoinOk(s, b);
    }
  }

  // ---------------------------------------------------------------- runs

  /** What a join has been told: its animation landed, and how its fetch ended. */
  datatype Told = Told(animated: bool, fetched: Option<bool>)

  /** told and installs keep a run's history: what each join was told while it stood, and the
      joins whose level was installed, in order. */
  datatype World = World(s: State, told: map<nat, Told>, installs: seq<nat>)

  datatype Act =
    | Entered(pane: string, door: Tile, held: Option<Tile>)
    | Booted(tileId: string)
    | Waited(pane: string)
    | Landed(token: nat)
    | Resumed(token: nat, answer: Answer)
    | Forgot(pane: string)

  /** The joins an effect list installs a level for; a reload's has none. */
  function InstallsOf(effects: seq<Effect>): seq<nat>
  {
    if effects == [] then []
    else
      var e := effects[|effects| - 1];
      InstallsOf(effects[..|effects| - 1]) + if e.InstallLevel? && e.level.barrier != 0 then [e.level.barrier] else []
  }

  /** No continuation waits for a level's fetch any more. */
  predicate Answered(s: State, l: nat)
  {
    forall t :: t in s.conts ==> s.conts[t].level != Some(l)
  }

  /** An answer that lets the fetch go on. */
  predicate Good(c: Cont, a: Answer)
  {
    a.ok && (c.step == AwaitTile ==> a.tile.Some?)
  }

  ghost function Do(w: World, act: Act): World
    requires Inv(w.s)
  {
    match act
    case Entered(pane, door, held) =>
      var out := Enter(w.s, pane, door, held);
      var fetched := if Answered(out.s, w.s.slots) then Some(true) else None;
      World(out.s, w.told[w.s.nextBarrier + 1 := Told(false, fetched)], w.installs + InstallsOf(out.effects))
    case Booted(tileId) => World(Boot(w.s, tileId).s, w.told, w.installs)
    case Waited(pane) => w.(s := Mint(w.s, Cont(Other, 0, pane, None)))
    case Landed(tok) =>
      var out := Land(w.s, tok);
      var bid := if tok in w.s.conts then w.s.conts[tok].barrier else 0;
      var told := if bid in w.s.barriers && bid in w.told && w.s.conts[tok].step == Animated then
                    w.told[bid := w.told[bid].(animated := true)] else w.told;
      World(out.s, told, w.installs + InstallsOf(out.effects))
    case Resumed(tok, a) =>
      var out := Resume(w.s, tok, a);
      var c := if tok in w.s.conts then w.s.conts[tok] else Cont(Other, 0, "", None);
      var told := if c.barrier in w.s.barriers && c.barrier in w.told && c.level.Some? && Answered(out.s, c.level.value) then
                    w.told[c.barrier := w.told[c.barrier].(fetched := Some(Good(c, a)))] else w.told;
      World(out.s, told, w.installs + InstallsOf(out.effects))
    case Forgot(pane) => w.(s := Forget(w.s, pane))
  }

  /** A token is delivered as the effect that carried it says: the transition's lands, any
      other is resumed. */
  predicate Routed(s: State, act: Act)
  {
    match act
    case Landed(tok) => tok in s.conts ==> s.conts[tok].step == Animated
    case Resumed(tok, _) => tok in s.conts ==> s.conts[tok].step != Animated
    case _ => true
  }

  /** Every step keeps it that a live join's arms are exactly the live continuations carrying
      it, all of one pane, so that a join still owed is one something will report to. */
  lemma StepKeeps(w: World, act: Act)
    requires Inv(w.s) && Routed(w.s, act)
    ensures Inv(Do(w, act).s)
  {
    hide Inv, Enter, Boot, Forget, Row, Body, Fails, Reports;
    InvNumbered(w.s);
    match act
    case Entered(pane, door, held) => EnterKeeps(w.s, pane, door, held);
    case Booted(tileId) => BootKeeps(w.s, tileId);
    case Waited(pane) => OtherKeeps(w.s, pane);
    case Landed(tok) =>
      if tok in w.s.conts {
        AnimationTaken(w.s, tok);
        ReportKeeps(Take(w.s, tok), w.s.conts[tok].barrier, false);
      }
    case Resumed(tok, a) =>
      if tok in w.s.conts {
        ResumeKeeps(w.s, tok, a);
      }
    case Forgot(pane) => ForgetKeeps(w.s, pane);
  }

  lemma InvNumbered(s: State)
    requires Inv(s)
    ensures Numbered(s) && Owned(s.conts, s.levels)
  {
  }

  lemma OtherKeeps(s: State, pane: string)
    requires Inv(s)
    ensures Inv(Mint(s, Cont(Other, 0, pane, None)))
  {
    hide JoinWith, Carried;
    var c := Cont(Other, 0, pane, None);
    MintOwned(s, c);
    MintOthers(s, c);
  }

  lemma ResumeKeeps(s: State, tok: nat, a: Answer)
    requires Inv(s) && tok in s.conts && s.conts[tok].step != Animated
    ensures Numbered(s)
    ensures Inv(Resume(s, tok, a).s)
  {
    hide Inv, Row, Body, Fails, FetchInHand;
    InvNumbered(s);
    var c := s.conts[tok];
    if c.level.Some? {
      FetchTaken(s, tok);
      HandLevel(Take(s, tok), c.level.value);
      if c.step == AwaitTile {
        if !a.ok || a.tile.None? {
          FailsKeeps(Take(s, tok), c.level.value, "GetTile");
        } else {
          RowKeeps(Take(s, tok), c.level.value, a.tile.value);
        }
      } else {
        assert SpeaksFor(c, s.levels);
        BodyKeeps(Take(s, tok), c.level.value, a);
      }
    } else {
      OtherTaken(s, tok);
    }
  }

  lemma OtherTaken(s: State, tok: nat)
    requires Inv(s) && tok in s.conts && s.conts[tok].step == Other
    ensures Inv(Take(s, tok))
  {
    TakeOwned(s, tok);
    TakeOthers(s, tok, 0);
  }

  /** LevelPending cannot stick: while it holds some live continuation still owes the join a
      report. */
  lemma PendingIsOwed(s: State)
    requires Inv(s) && LevelPending(s)
    ensures exists t :: t in s.conts && s.conts[t].barrier in s.barriers
  {
    var b :| b in s.barriers;
    assert JoinOk(s, b);
    var m := Carried(s.conts, b);
    assert |m| >= 1;
    assert m.Keys != {};
    var t :| t in m;
    assert t in s.conts && s.conts[t].barrier == b;
  }

  // ---------------------------------------------------------------- one install a descent

  /** What a join was told matches what still waits for it, or, once it is gone, whether its
      level was installed. */
  ghost predicate TellIn(carried: map<nat, Cont>, live: Option<Barrier>, t: Told, installed: bool)
  {
    if live.Some? then
      && (t.animated <==> forall k :: k in carried ==> carried[k].step != Animated)
      && (t.fetched.Some? <==> forall k :: k in carried ==> !Fetching(carried[k]))
      && (live.value.failed <==> t.fetched == Some(false)) && !installed
    else
      installed <==> t.animated && t.fetched == Some(true)
  }

  function Live(s: State, bid: nat): Option<Barrier>
  {
    if bid in s.barriers then Some(s.barriers[bid]) else None
  }

  ghost predicate TellOk(w: World, bid: nat)
    requires bid in w.told
  {
    TellIn(Carried(w.s.conts, bid), Live(w.s, bid), w.told[bid], bid in w.installs)
  }

  ghost predicate Kept(w: World)
  {
    && Inv(w.s)
    && (forall b :: b in w.told <==> 1 <= b <= w.s.nextBarrier)
    && (forall b :: b in w.told ==> TellOk(w, b))
    && (forall b :: b in w.installs ==> b in w.told)
    && (forall i, j :: 0 <= i < j < |w.installs| ==> w.installs[i] != w.installs[j])
  }

  /** An arm of join bid reported and nothing else happened. */
  ghost predicate ArmEnded(s: State, out: Out, bid: nat, failed: bool)
  {
    && out.s.conts == s.conts && out.s.nextBarrier == s.nextBarrier
    && if bid !in s.barriers then out.s.barriers == s.barriers && InstallsOf(out.effects) == []
       else
         var b := s.barriers[bid];
         var after := b.(failed := b.failed || failed, arms := b.arms - 1);
         if after.arms > 0 then out.s.barriers == s.barriers[bid := after] && InstallsOf(out.effects) == []
         else out.s.barriers == s.barriers - {bid} && InstallsOf(out.effects) == if after.failed then [] else [bid]
  }

  /** A fetch goes on under a fresh continuation of level l. */
  ghost predicate ArmWaits(s: State, out: Out, bid: nat, l: nat)
  {
    && out.s.nextBarrier == s.nextBarrier && out.s.barriers == s.barriers && InstallsOf(out.effects) == []
    && s.next + 1 !in s.conts && s.next + 1 in out.s.conts
    && var c := out.s.conts[s.next + 1];
       Fetching(c) && c.barrier == bid && c.level == Some(l) && out.s.conts == s.conts[s.next + 1 := c]
  }

  lemma {:induction false} InstallsConcat(a: seq<Effect>, b: seq<Effect>)
    ensures InstallsOf(a + b) == InstallsOf(a) + InstallsOf(b)
  {
    if b == [] {
      assert a + b == a;
    } else {
      InstallsConcat(a, b[..|b| - 1]);
      assert (a + b)[..|a + b| - 1] == a + b[..|b| - 1];
    }
  }

  lemma NoInstall(e: Effect)
    requires !e.InstallLevel?
    ensures InstallsOf([e]) == []
  {
    assert [e][..0] == [];
  }

  lemma SwapInstalls(s: State, ld: Level)
    ensures InstallsOf(InstallData(s, ld).effects) == if ld.barrier == 0 then [] else [ld.barrier]
  {
    var before, mid, after := [CancelTransition, CloseMenu, FlushLayout], [InstallLevel(ld)], [RefreshOverlay, ScheduleUrl];
    assert InstallData(s, ld).effects == before + mid + after;
    InstallsConcat(before + mid, after);
    InstallsConcat(before, mid);
    assert before == [CancelTransition] + [CloseMenu] + [FlushLayout];
    InstallsConcat([CancelTransition] + [CloseMenu], [FlushLayout]);
    InstallsConcat([CancelTransition], [CloseMenu]);
    assert after == [RefreshOverlay] + [ScheduleUrl];
    InstallsConcat([RefreshOverlay], [ScheduleUrl]);
    NoInstall(CancelTransition); NoInstall(CloseMenu); NoInstall(FlushLayout); NoInstall(RefreshOverlay); NoInstall(ScheduleUrl);
    assert mid[..0] == [];
  }

  lemma ReportInstalls(s: State, bid: nat, failed: bool)
    requires bid in s.barriers ==> s.barriers[bid].level in s.levels && s.levels[s.barriers[bid].level].barrier == bid != 0
    ensures ArmEnded(s, Reports(s, bid, failed), bid, failed)
  {
    hide InstallData, InstallsOf;
    NoneInstalled();
    if bid in s.barriers {
      var (r, b) := Arrive(s, bid, failed);
      if b.Some? {
        var ld := s.levels[b.value.level];
        NoInstall(InstallPlace(ld.pane));
        SwapInstalls(r, ld);
        InstallsConcat([InstallPlace(ld.pane)], if b.value.failed then [] else InstallData(r, ld).effects);
        InstallState(r, ld);
      }
    }
  }

  lemma NoneInstalled()
    ensures InstallsOf([]) == []
  {
  }

  lemma InstallState(s: State, ld: Level)
    ensures InstallData(s, ld).s == s
  {
  }

  lemma JoinLevel(s: State, bid: nat, failed: bool)
    requires InHand(s, bid, failed)
    ensures bid in s.barriers ==> bid != 0 && s.barriers[bid].level in s.levels && s.levels[s.barriers[bid].level].barrier == bid
  {
  }

  lemma ReadyEnds(s: State, l: nat)
    requires FetchInHand(s, l)
    ensures Numbered(s) && ArmEnded(s, Ready(s, l), s.levels[l].barrier, false)
  {
    hide InHand, Reports, ArmEnded, InstallsOf, InstallData;
    HandNumbered(s, l);
    JoinLevel(s, s.levels[l].barrier, true);
    if s.levels[l].boot {
      SwapInstalls(s, s.levels[l]);
      InstallState(s, s.levels[l]);
      NothingEnds(s, InstallData(s, s.levels[l]));
    } else {
      ReportInstalls(s, s.levels[l].barrier, false);
    }
  }

  lemma NothingEnds(s: State, out: Out)
    requires out.s == s && InstallsOf(out.effects) == [] && 0 !in s.barriers
    ensures ArmEnded(s, out, 0, false) && ArmEnded(s, out, 0, true)
  {
  }

  lemma MoreEffects(s: State, out: Out, e: Effect, bid: nat, failed: bool)
    requires ArmEnded(s, out, bid, failed) && !e.InstallLevel?
    ensures ArmEnded(s, Out(out.s, [e] + out.effects), bid, failed)
  {
    NoInstall(e);
    InstallsConcat([e], out.effects);
  }

  lemma FailsEnds(s: State, l: nat, what: string)
    requires FetchInHand(s, l)
    ensures Numbered(s) && ArmEnded(s, Fails(s, l, what), s.levels[l].barrier, true)
  {
    hide InHand, Reports, ArmEnded, InstallsOf;
    HandNumbered(s, l);
    JoinLevel(s, s.levels[l].barrier, true);
    var report := Report("rpc:" + what);
    if s.levels[l].boot {
      NoInstall(report);
      NothingEnds(s, Out(s, [report]));
    } else {
      ReportInstalls(s, s.levels[l].barrier, true);
      MoreEffects(s, Reports(s, s.levels[l].barrier, true), report, s.levels[l].barrier, true);
    }
  }

  lemma WaitsOn(s: State, l: nat, step: StepKind, id: string)
    requires FetchInHand(s, l) && (step == AwaitTile || step == AwaitBody)
    ensures var c := Cont(step, s.levels[l].barrier, s.levels[l].pane, Some(l));
            ArmWaits(s, Out(Mint(s, c), [Await(s.next + 1, id, step == AwaitBody)]), s.levels[l].barrier, l)
  {
    HandNumbered(s, l);
    NoInstall(Await(s.next + 1, id, step == AwaitBody));
  }

  /** What is read of a level changes no join. */
  lemma EndedApart(s: State, levels: map<nat, Level>, out: Out, bid: nat, failed: bool)
    requires ArmEnded(s.(levels := levels), out, bid, failed)
    ensures ArmEnded(s, out, bid, failed)
  {
  }

  lemma WaitsApart(s: State, levels: map<nat, Level>, out: Out, bid: nat, l: nat)
    requires ArmWaits(s.(levels := levels), out, bid, l)
    ensures ArmWaits(s, out, bid, l)
  {
  }

  /** A row read lets the fetch wait on, or ends it. */
  lemma RowTells(s: State, l: nat, t: Tile)
    requires FetchInHand(s, l)
    ensures Numbered(s)
    ensures var bid := s.levels[l].barrier;
            ArmWaits(s, Row(s, l, t), bid, l) || ArmEnded(s, Row(s, l, t), bid, false)
  {
    hide FetchInHand, InHand, Ready, ArmEnded, ArmWaits, InstallsOf;
    HandNumbered(s, l);
    var ld := s.levels[l];
    if t.leafLink && !ld.followed {
      var followed := ld.(followed := true, tileId := t.contentId);
      Learned(s, l, followed);
      WaitsOn(s.(levels := s.levels[l := followed]), l, AwaitTile, t.contentId);
      WaitsApart(s, s.levels[l := followed], Row(s, l, t), ld.barrier, l);
    } else if ld.boot && !t.workspace {
      NoInstall(Report("layout:" + ld.tileId));
      JoinZero(s);
      NothingEnds(s, Row(s, l, t));
    } else {
      var seen := ld.(tile := Some(t), basis := t.version);
      if t.blob == 0 {
        var known := if ld.boot then seen.(tree := Some(Fallback)) else seen.(capture := true);
        Learned(s, l, known);
        ReadyEnds(s.(levels := s.levels[l := known]), l);
        EndedApart(s, s.levels[l := known], Row(s, l, t), ld.barrier, false);
      } else {
        Learned(s, l, seen);
        WaitsOn(s.(levels := s.levels[l := seen]), l, AwaitBody, ld.tileId);
        WaitsApart(s, s.levels[l := seen], Row(s, l, t), ld.barrier, l);
      }
    }
  }

  lemma JoinZero(s: State)
    requires Numbered(s)
    ensures 0 !in s.barriers
  {
  }

  lemma BodyTells(s: State, l: nat, a: Answer)
    requires FetchInHand(s, l)
    ensures Numbered(s)
    ensures ArmEnded(s, Body(s, l, a), s.levels[l].barrier, !a.ok)
  {
    hide FetchInHand, InHand, Ready, Fails, ArmEnded, InstallsOf;
    HandNumbered(s, l);
    if !a.ok {
      FailsEnds(s, l, "ReadContent");
    } else {
      var ld := s.levels[l].(data := a.data, basis := a.version,
        tree := Some(if a.decodes then Decoded(a.data) else Fallback), readOnly := !a.decodes);
      var levels := s.levels[l := ld];
      Learned(s, l, ld);
      ReadyEnds(s.(levels := levels), l);
      var r := Ready(s.(levels := levels), l);
      if !a.decodes {
        MoreEffects(s.(levels := levels), r, Report("layout:" + ld.tileId), ld.barrier, false);
      } else {
        assert [] + r.effects == r.effects;
      }
      EndedApart(s, levels, Body(s, l, a), ld.barrier, false);
    }
  }

  /** However a fetch continuation's answer goes, its fetch waits on or ends. */
  lemma AnswerTells(s: State, tok: nat, a: Answer)
    requires Inv(s) && tok in s.conts && s.conts[tok].level.Some?
    ensures Numbered(s)
    ensures var c := s.conts[tok];
            ArmWaits(Take(s, tok), Resume(s, tok, a), c.barrier, c.level.value) ||
            ArmEnded(Take(s, tok), Resume(s, tok, a), c.barrier, !Good(c, a))
  {
    hide FetchInHand, Inv, Row, Body, Fails, ArmEnded, ArmWaits;
    InvNumbered(s);
    var c := s.conts[tok];
    assert SpeaksFor(c, s.levels);
    FetchTaken(s, tok);
    var l := c.level.value;
    if c.step == AwaitTile {
      if !a.ok || a.tile.None? {
        FailsEnds(Take(s, tok), l, "GetTile");
      } else {
        RowTells(Take(s, tok), l, a.tile.value);
      }
    } else {
      BodyTells(Take(s, tok), l, a);
    }
  }

  /** The fetch told how it ended. */
  lemma FetchTold(m: map<nat, Cont>, tok: nat, b: Barrier, t: Told, failed: bool)
    requires tok in m && Fetching(m[tok]) && b.arms == |m| && TellIn(m, Some(b), t, false)
    requires forall k :: k in m && k != tok ==> m[k].step == Animated
    ensures var after := b.(failed := b.failed || failed, arms := b.arms - 1);
            var told := t.(fetched := Some(!failed));
            && (after.arms > 0 ==> TellIn(m - {tok}, Some(after), told, false))
            && (after.arms <= 0 ==> TellIn(m - {tok}, None, told, !after.failed))
  {
    OneLess(m, tok);
    var r := m - {tok};
    assert t.fetched.None? && !b.failed;
    if |r| > 0 {
      SomeKey(r);
    } else {
      assert r.Keys == {};
    }
  }

  lemma SomeKey(m: map<nat, Cont>)
    requires |m| > 0
    ensures exists k :: k in m
  {
    assert m.Keys != {};
    var k :| k in m.Keys;
  }

  lemma Ended(t: Told, failed: bool)
    requires t.fetched.Some? && (failed <==> t.fetched == Some(false))
    ensures !failed <==> t.fetched == Some(true)
  {
    var ok: bool := t.fetched.value;
    if ok {
      assert t.fetched == Some(true);
    } else {
      assert t.fetched == Some(false);
    }
  }

  lemma AnimationTold(m: map<nat, Cont>, tok: nat, b: Barrier, t: Told)
    requires tok in m && m[tok].step == Animated && b.arms == |m| && TellIn(m, Some(b), t, false)
    requires forall k :: k in m && k != tok ==> Fetching(m[k])
    ensures var after := b.(arms := b.arms - 1);
            && (after.arms > 0 ==> TellIn(m - {tok}, Some(after), t.(animated := true), false))
            && (after.arms <= 0 ==> TellIn(m - {tok}, None, t.(animated := true), !after.failed))
  {
    OneLess(m, tok);
    var r := m - {tok};
    assert forall k :: k in r ==> k in m && k != tok && r[k] == m[k] && Fetching(m[k]);
    if |r| > 0 {
      SomeKey(r);
      var k :| k in r;
      assert m[k] == r[k] && Fetching(r[k]);
      assert t.fetched.None? && !b.failed;
    } else {
      assert r.Keys == {};
      assert forall k :: k in m && k != tok ==> k in r.Keys;
      Ended(t, b.failed);
    }
  }

  /** The continuations of one join: at most one of each arm. */
  lemma OneOfEach(s: State, tok: nat)
    requires Inv(s) && tok in s.conts && s.conts[tok].barrier in s.barriers
    ensures var m := Carried(s.conts, s.conts[tok].barrier);
            && tok in m && m[tok] == s.conts[tok] && |m| == s.barriers[s.conts[tok].barrier].arms
            && (Fetching(s.conts[tok]) ==> forall k :: k in m && k != tok ==> m[k].step == Animated)
            && (s.conts[tok].step == Animated ==> forall k :: k in m && k != tok ==> Fetching(m[k]))
  {
    hide Carried, Numbered, SpeaksFor;
    var bid := s.conts[tok].barrier;
    JoinStands(s, bid);
    CarriedIs(s.conts, bid);
  }

  lemma JoinStands(s: State, bid: nat)
    requires Inv(s) && bid in s.barriers
    ensures bid != 0 && JoinOk(s, bid)
  {
  }

  /** A step that touches one join leaves what every other was told. */
  lemma OthersTold(w: World, r: World, bid: nat, b: nat)
    requires b in w.told && TellOk(w, b) && b != bid
    requires b in r.told && r.told[b] == w.told[b] && Carried(r.s.conts, b) == Carried(w.s.conts, b)
    requires Live(r.s, b) == Live(w.s, b) && (b in r.installs <==> b in w.installs)
    ensures TellOk(r, b)
  {
  }

  lemma Appended(installs: seq<nat>, bid: nat)
    requires forall i, j :: 0 <= i < j < |installs| ==> installs[i] != installs[j]
    requires bid !in installs
    ensures var r := installs + [bid]; forall i, j :: 0 <= i < j < |r| ==> r[i] != r[j]
  {
  }

  /** An arm ended: its join is told, all others are as they were. */
  lemma EndedKeeps(w: World, r: World, taken: State, out: Out, bid: nat, failed: bool)
    requires Kept(w) && Inv(r.s) && r.s == out.s && r.installs == w.installs + InstallsOf(out.effects)
    requires taken == w.s.(conts := taken.conts) && ArmEnded(taken, out, bid, failed)
    requires forall b :: b != bid ==> Carried(taken.conts, b) == Carried(w.s.conts, b)
    requires r.told.Keys == w.told.Keys && forall b :: b in w.told && b != bid ==> r.told[b] == w.told[b]
    requires bid in w.s.barriers ==> bid in r.told && TellIn(Carried(r.s.conts, bid), Live(r.s, bid), r.told[bid], InstallsOf(out.effects) == [bid])
    requires bid in w.told && bid !in w.s.barriers ==> r.told[bid] == w.told[bid]
    ensures Kept(r)
  {
    hide Carried, TellIn, Inv, InstallsOf;
    if bid in w.s.barriers {
      assert bid in w.told && TellOk(w, bid);
      LiveIsNotInstalled(w, bid);
      if InstallsOf(out.effects) == [bid] {
        Appended(w.installs, bid);
      } else {
        assert r.installs == w.installs;
      }
    } else {
      assert r.installs == w.installs;
    }
    forall b | b in r.told
      ensures TellOk(r, b)
    {
      assert TellOk(w, b);
      if b != bid {
        OthersTold(w, r, bid, b);
      } else if bid !in w.s.barriers {
        GoneStays(w, r, bid);
      }
    }
  }

  lemma LiveIsNotInstalled(w: World, bid: nat)
    requires bid in w.told && TellOk(w, bid) && bid in w.s.barriers
    ensures bid !in w.installs
  {
  }

  /** A join that is gone is told no more. */
  lemma GoneStays(w: World, r: World, bid: nat)
    requires bid in w.told && TellOk(w, bid) && bid !in w.s.barriers && bid !in r.s.barriers
    requires bid in r.told && r.told[bid] == w.told[bid] && (bid in r.installs <==> bid in w.installs)
    ensures TellOk(r, bid)
  {
  }

  lemma TakenApart(s: State, tok: nat, b: nat)
    requires tok in s.conts && s.conts[tok].barrier != b
    ensures Carried(Take(s, tok).conts, b) == Carried(s.conts, b)
  {
    CarriedTake(s.conts, tok, b);
    assert tok !in Carried(s.conts, b);
    assert Carried(s.conts, b) - {tok} == Carried(s.conts, b);
  }

  lemma LandedKeeps(w: World, tok: nat)
    requires Kept(w) && tok in w.s.conts && w.s.conts[tok].step == Animated
    ensures Kept(Do(w, Landed(tok)))
  {
    hide Carried, TellIn, Inv, InstallsOf, Reports, InHand;
    var r, bid, taken := Do(w, Landed(tok)), w.s.conts[tok].barrier, Take(w.s, tok);
    InvNumbered(w.s);
    StepKeeps(w, Landed(tok));
    AnimationTaken(w.s, tok);
    JoinLevel(taken, bid, false);
    ReportInstalls(taken, bid, false);
    forall b | b != bid ensures Carried(taken.conts, b) == Carried(w.s.conts, b) {
      TakenApart(w.s, tok, b);
    }
    var out := Land(w.s, tok);
    if bid in w.s.barriers {
      assert bid in w.told && TellOk(w, bid);
      LiveIsNotInstalled(w, bid);
      OneOfEach(w.s, tok);
      CarriedTake(w.s.conts, tok, bid);
      AnimationTold(Carried(w.s.conts, bid), tok, w.s.barriers[bid], w.told[bid]);
    }
    EndedKeeps(w, r, taken, out, bid, false);
  }

  lemma WaitTold(m: map<nat, Cont>, tok: nat, fresh_: nat, c: Cont, b: Barrier, t: Told)
    requires tok in m && Fetching(m[tok]) && Fetching(c) && fresh_ !in m && TellIn(m, Some(b), t, false)
    ensures TellIn((m - {tok})[fresh_ := c], Some(b), t, false)
  {
    var r := (m - {tok})[fresh_ := c];
    assert fresh_ in r && Fetching(r[fresh_]);
    assert forall k :: k in m && m[k].step == Animated ==> k in r && r[k] == m[k];
    assert forall k :: k in r && k != fresh_ ==> k in m && r[k] == m[k];
  }

  lemma WaitsKeep(w: World, tok: nat, a: Answer)
    requires Kept(w) && tok in w.s.conts && w.s.conts[tok].level.Some?
    requires Numbered(w.s)
    requires ArmWaits(Take(w.s, tok), Resume(w.s, tok, a), w.s.conts[tok].barrier, w.s.conts[tok].level.value)
    requires Inv(Do(w, Resumed(tok, a)).s)
    ensures Kept(Do(w, Resumed(tok, a)))
  {
    hide Carried, TellIn, Inv, InstallsOf, Resume;
    var c := w.s.conts[tok];
    var r, bid, taken, more := Do(w, Resumed(tok, a)), c.barrier, Take(w.s, tok), w.s.next + 1;
    InvNumbered(w.s);
    assert !Answered(r.s, c.level.value);
    assert r.told == w.told && r.installs == w.installs;
    forall b | b in r.told
      ensures TellOk(r, b)
    {
      assert TellOk(w, b);
      CarriedMint(taken.conts, more, r.s.conts[more], b);
      if b != bid {
        TakenApart(w.s, tok, b);
        OthersTold(w, r, bid, b);
      } else if bid in w.s.barriers {
        LiveIsNotInstalled(w, bid);
        OneOfEach(w.s, tok);
        CarriedTake(w.s.conts, tok, bid);
        CarriedIs(w.s.conts, bid);
        WaitTold(Carried(w.s.conts, bid), tok, more, r.s.conts[more], w.s.barriers[bid], w.told[bid]);
      } else {
        GoneStays(w, r, bid);
      }
    }
  }

  lemma ResumedKeeps(w: World, tok: nat, a: Answer)
    requires Kept(w) && tok in w.s.conts && w.s.conts[tok].level.Some?
    ensures Kept(Do(w, Resumed(tok, a)))
  {
    hide Carried, TellIn, Inv, InstallsOf, Resume, ArmWaits, FetchInHand;
    InvNumbered(w.s);
    var c := w.s.conts[tok];
    var r, bid, taken := Do(w, Resumed(tok, a)), c.barrier, Take(w.s, tok);
    StepKeeps(w, Resumed(tok, a));
    AnswerTells(w.s, tok, a);
    var out := Resume(w.s, tok, a);
    if ArmWaits(taken, out, bid, c.level.value) {
      WaitsKeep(w, tok, a);
    } else {
      FetchTaken(w.s, tok);
      NobodyWaits(taken, c.level.value);
      assert Answered(out.s, c.level.value);
      forall b | b != bid ensures Carried(taken.conts, b) == Carried(w.s.conts, b) {
        TakenApart(w.s, tok, b);
      }
      if bid in w.s.barriers {
        assert bid in w.told && TellOk(w, bid);
        LiveIsNotInstalled(w, bid);
        OneOfEach(w.s, tok);
        CarriedTake(w.s.conts, tok, bid);
        FetchTold(Carried(w.s.conts, bid), tok, w.s.barriers[bid], w.told[bid], !Good(c, a));
      }
      EndedKeeps(w, r, taken, out, bid, !Good(c, a));
    }
  }

  lemma NobodyWaits(s: State, l: nat)
    requires FetchInHand(s, l)
    ensures Answered(s, l)
  {
  }

  /** A join that goes before both its arms were told was not installed and never will be. */
  lemma Superseded(m: map<nat, Cont>, r: map<nat, Cont>, b: Barrier, t: Told)
    requires TellIn(m, Some(b), t, false) && |m| >= 1
    requires forall k :: k in m ==> m[k].step == Animated || Fetching(m[k])
    ensures TellIn(r, None, t, false)
  {
    SomeKey(m);
    var k :| k in m;
  }

  lemma BothArms(s: State, bid: nat)
    requires Inv(s) && bid in s.barriers
    ensures var m := Carried(s.conts, bid);
            |m| >= 1 && forall k :: k in m ==> m[k].step == Animated || Fetching(m[k])
  {
    hide SpeaksFor;
    JoinStands(s, bid);
    CarriedIs(s.conts, bid);
  }

  /** Joins that go, and nothing else told. */
  lemma GoneKeeps(w: World, r: World)
    requires Kept(w) && Inv(r.s) && r.told == w.told && r.installs == w.installs && r.s.nextBarrier == w.s.nextBarrier
    requires forall b :: b in r.s.barriers ==>
               b in w.s.barriers && r.s.barriers[b] == w.s.barriers[b] && Carried(r.s.conts, b) == Carried(w.s.conts, b)
    ensures Kept(r)
  {
    hide Carried, TellIn, Inv;
    forall b | b in r.told
      ensures TellOk(r, b)
    {
      JoinGoes(w, r, b);
    }
  }

  lemma JoinGoes(w: World, r: World, b: nat)
    requires Kept(w) && b in w.told && b in r.told && r.told[b] == w.told[b] && (b in r.installs <==> b in w.installs)
    requires b in r.s.barriers ==>
               b in w.s.barriers && r.s.barriers[b] == w.s.barriers[b] && Carried(r.s.conts, b) == Carried(w.s.conts, b)
    ensures TellOk(r, b)
  {
    hide Carried, TellIn, Inv;
    assert TellOk(w, b);
    if b in r.s.barriers {
    } else if b in w.s.barriers {
      BothArms(w.s, b);
      LiveIsNotInstalled(w, b);
      Superseded(Carried(w.s.conts, b), Carried(r.s.conts, b), w.s.barriers[b], w.told[b]);
    } else {
      GoneStays(w, r, b);
    }
  }

  lemma ForgotKeeps(w: World, pane: string)
    requires Kept(w)
    ensures Kept(Do(w, Forgot(pane)))
  {
    hide Carried, TellIn, Inv, Forget;
    var r := Do(w, Forgot(pane));
    StepKeeps(w, Forgot(pane));
    InvNumbered(r.s);
    ForgetNumbers(w.s, pane);
    forall b | b in r.s.barriers
      ensures b in w.s.barriers && r.s.barriers[b] == w.s.barriers[b] && Carried(r.s.conts, b) == Carried(w.s.conts, b)
    {
      ForgetLeaves(w.s, pane, b);
    }
    GoneKeeps(w, r);
  }

  lemma ForgetNumbers(s: State, pane: string)
    ensures Forget(s, pane).nextBarrier == s.nextBarrier
  {
  }

  /** A wait that carries no join. */
  lemma ZeroKeeps(w: World, r: World, c: Cont)
    requires Kept(w) && Inv(r.s) && r.told == w.told && r.installs == w.installs
    requires r.s.nextBarrier == w.s.nextBarrier && r.s.barriers == w.s.barriers && c.barrier == 0
    requires w.s.next + 1 !in w.s.conts && r.s.conts == w.s.conts[w.s.next + 1 := c]
    ensures Kept(r)
  {
    hide Carried, TellIn, Inv;
    InvNumbered(w.s);
    forall b | b in r.s.barriers
      ensures Carried(r.s.conts, b) == Carried(w.s.conts, b)
    {
      CarriedMint(w.s.conts, w.s.next + 1, c, b);
      assert b != 0;
    }
    GoneKeeps(w, r);
  }

  lemma FreshToken(s: State)
    requires Numbered(s)
    ensures s.next + 1 !in s.conts
  {
  }

  lemma WaitedKeeps(w: World, pane: string, tileId: string)
    requires Kept(w)
    ensures Kept(Do(w, Waited(pane))) && Kept(Do(w, Booted(tileId)))
  {
    hide Carried, TellIn, Inv;
    StepKeeps(w, Waited(pane));
    StepKeeps(w, Booted(tileId));
    InvNumbered(w.s);
    FreshToken(w.s);
    ZeroKeeps(w, Do(w, Waited(pane)), Cont(Other, 0, pane, None));
    ZeroKeeps(w, Do(w, Booted(tileId)), Cont(AwaitTile, 0, "", Some(w.s.slots)));
  }

  lemma OtherTold(w: World, tok: nat, act: Act)
    requires Kept(w) && (act == Landed(tok) || (act.Resumed? && act.token == tok)) && Routed(w.s, act)
    requires tok !in w.s.conts || w.s.conts[tok].step == Other
    ensures Kept(Do(w, act))
  {
    hide Carried, TellIn, Inv;
    InvNumbered(w.s);
    StepKeeps(w, act);
    NoneInstalled();
    var r := Do(w, act);
    assert r.installs == w.installs;
    forall b | b in r.s.barriers
      ensures Carried(r.s.conts, b) == Carried(w.s.conts, b)
    {
      if tok in w.s.conts { TakenApart(w.s, tok, b); }
    }
    GoneKeeps(w, r);
  }

  /** A new join, just armed: nothing told, its animation waiting. */
  lemma NewTold(e: State, out: Out, bid: nat, l: nat, anim: nat)
    requires bid in e.barriers && e.barriers[bid].arms == 2 && !e.barriers[bid].failed
    requires Carried(e.conts, bid) == map[anim := Cont(Animated, bid, e.barriers[bid].pane, None)]
    requires Answered(e, l)
    requires ArmWaits(e, out, bid, l) || ArmEnded(e, out, bid, false)
    ensures InstallsOf(out.effects) == []
    ensures TellIn(Carried(out.s.conts, bid), Live(out.s, bid), Told(false, if Answered(out.s, l) then Some(true) else None), false)
  {
    hide InstallsOf, Carried;
    var m := Carried(e.conts, bid);
    assert anim in m && m[anim].step == Animated;
    if ArmWaits(e, out, bid, l) {
      var more := e.next + 1;
      CarriedMint(e.conts, more, out.s.conts[more], bid);
      var r := Carried(out.s.conts, bid);
      assert more in r && Fetching(r[more]) && anim in r && r[anim] == m[anim];
      assert !Answered(out.s, l);
    } else {
      assert Answered(out.s, l);
    }
  }

  lemma EnteredArm(s: State, pane: string, door: Tile, held: Option<Tile>)
    requires Inv(s)
    ensures Numbered(s)
    ensures var e, l, bid := Entering(s, pane, door), s.slots, s.nextBarrier + 1;
            var out := Enter(s, pane, door, held);
            && Answered(e, l)
            && (ArmWaits(e, out, bid, l) || ArmEnded(e, out, bid, false))
  {
    hide Inv, Row, FetchInHand, ArmWaits, ArmEnded, InstallsOf;
    InvNumbered(s);
    EnterInHand(s, pane, door);
    var e, l, bid := Entering(s, pane, door), s.slots, s.nextBarrier + 1;
    HandNumbered(e, l);
    NobodyWaits(e, l);
    var start := StartTransition(pane, e.next, door.blob == 0);
    if held.Some? && held.value.id == door.id {
      RowTells(e, l, held.value);
      if ArmEnded(e, Row(e, l, held.value), bid, false) {
        MoreEffects(e, Row(e, l, held.value), start, bid, false);
      } else {
        MoreWaits(e, Row(e, l, held.value), start, bid, l);
      }
    } else {
      WaitsOn(e, l, AwaitTile, door.id);
      MoreWaits(e, AwaitRow(e, l), start, bid, l);
    }
  }

  lemma MoreWaits(s: State, out: Out, e: Effect, bid: nat, l: nat)
    requires ArmWaits(s, out, bid, l) && !e.InstallLevel?
    ensures ArmWaits(s, Out(out.s, [e] + out.effects), bid, l)
  {
    NoInstall(e);
    InstallsConcat([e], out.effects);
  }

  lemma EnteredJoin(s: State, pane: string, door: Tile)
    requires Inv(s)
    ensures var e, bid := Entering(s, pane, door), s.nextBarrier + 1;
            && e.nextBarrier == bid && bid in e.barriers && e.barriers[bid] == Barrier(pane, 2, false, s.slots)
            && Carried(e.conts, bid) == map[s.next + 1 := Cont(Animated, bid, pane, None)]
            && (forall b :: b != bid ==> Carried(e.conts, b) == Carried(s.conts, b))
            && (forall b :: b in e.barriers && b != bid ==> b in s.barriers && e.barriers[b] == s.barriers[b])
  {
    hide Carried, JoinsOk;
    StartedOk(s, pane, door);
    var started, bid := Started(s, pane, door), s.nextBarrier + 1;
    FreshToken(started);
    forall b ensures b != bid ==> Carried(Entering(s, pane, door).conts, b) == Carried(s.conts, b) {
      CarriedMint(started.conts, s.next + 1, Cont(Animated, bid, pane, None), b);
    }
    CarriedMint(started.conts, s.next + 1, Cont(Animated, bid, pane, None), bid);
  }

  lemma EnteredKeeps(w: World, pane: string, door: Tile, held: Option<Tile>)
    requires Kept(w)
    ensures Kept(Do(w, Entered(pane, door, held)))
  {
    hide Carried, TellIn, Inv, InstallsOf, Enter, Entering, ArmWaits, ArmEnded, Answered;
    InvNumbered(w.s);
    var r := Do(w, Entered(pane, door, held));
    var e, bid, out := Entering(w.s, pane, door), w.s.nextBarrier + 1, Enter(w.s, pane, door, held);
    StepKeeps(w, Entered(pane, door, held));
    EnteredArm(w.s, pane, door, held);
    EnteredJoin(w.s, pane, door);
    NewTold(e, out, bid, w.s.slots, w.s.next + 1);
    ArmNumbers(e, out, bid, w.s.slots);
    assert r.installs == w.installs;
    forall b | b in r.told
      ensures TellOk(r, b)
    {
      if b != bid {
        ArmApart(e, out, bid, w.s.slots, b);
        hide ArmWaits, ArmEnded, Kept;
        JoinGoes(w, r, b);
      }
    }
  }

  lemma ArmNumbers(e: State, out: Out, bid: nat, l: nat)
    requires ArmWaits(e, out, bid, l) || ArmEnded(e, out, bid, false)
    ensures out.s.nextBarrier == e.nextBarrier
  {
  }

  /** An arm moves no other join. */
  lemma ArmApart(e: State, out: Out, bid: nat, l: nat, b: nat)
    requires b != bid && (ArmWaits(e, out, bid, l) || ArmEnded(e, out, bid, false))
    ensures Carried(out.s.conts, b) == Carried(e.conts, b)
    ensures (b in out.s.barriers <==> b in e.barriers) && (b in e.barriers ==> out.s.barriers[b] == e.barriers[b])
  {
    hide Carried, InstallsOf;
    if ArmWaits(e, out, bid, l) {
      CarriedMint(e.conts, e.next + 1, out.s.conts[e.next + 1], b);
    }
  }

  lemma StepTells(w: World, act: Act)
    requires Kept(w) && Routed(w.s, act)
    ensures Kept(Do(w, act))
  {
    hide Kept, Do;
    KeptNumbered(w);
    match act
    case Entered(pane, door, held) => EnteredKeeps(w, pane, door, held);
    case Booted(tileId) => WaitedKeeps(w, "", tileId);
    case Waited(pane) => WaitedKeeps(w, pane, "");
    case Landed(tok) =>
      if tok in w.s.conts { LandedKeeps(w, tok); } else { OtherTold(w, tok, act); }
    case Resumed(tok, a) =>
      if tok in w.s.conts && w.s.conts[tok].level.Some? { ResumedKeeps(w, tok, a); } else { OtherTold(w, tok, act); }
    case Forgot(pane) => ForgotKeeps(w, pane);
  }

  lemma KeptNumbered(w: World)
    requires Kept(w)
    ensures Inv(w.s)
    ensures forall t :: t in w.s.conts && w.s.conts[t].level.None? ==> w.s.conts[t].step == Animated || w.s.conts[t].step == Other
  {
  }

  /** A run from nothing, every token delivered by its own route. */
  ghost predicate Runs(acts: seq<Act>, w: World)
  {
    if acts == [] then w == World(START, map[], [])
    else
      exists before :: Runs(acts[..|acts| - 1], before) && Inv(before.s) && Routed(before.s, acts[|acts| - 1]) &&
        w == Do(before, acts[|acts| - 1])
  }

  lemma {:induction false} RunKeeps(acts: seq<Act>, w: World)
    requires Runs(acts, w)
    ensures Kept(w)
  {
    hide Kept, Do, Inv;
    if acts == [] {
      StartKept();
    } else {
      var before :| Runs(acts[..|acts| - 1], before) && Inv(before.s) && Routed(before.s, acts[|acts| - 1]) &&
        w == Do(before, acts[|acts| - 1]);
      RunKeeps(acts[..|acts| - 1], before);
      StepTells(before, acts[|acts| - 1]);
    }
  }

  /** No run is excluded: every run goes on by any act delivered by its own route. */
  lemma RunGoesOn(acts: seq<Act>, w: World, act: Act)
    requires Runs(acts, w) && Routed(w.s, act)
    ensures Inv(w.s) && Runs(acts + [act], Do(w, act))
  {
    hide Do, Inv;
    RunKeeps(acts, w);
    KeptNumbered(w);
    assert (acts + [act])[..|acts|] == acts;
  }

  lemma StartKept()
    ensures Kept(World(START, map[], []))
  {
  }

  /** Over any interleaving of landings, answers, newer descents and panes going away, one
      descent installs its level at most once, and once its join is gone exactly when both its
      arms had reported to it and the fetch had not failed; and a descent still pending is owed
      a report by some continuation that is still there. */
  lemma OneInstallEach(acts: seq<Act>, w: World, bid: nat)
    requires Runs(acts, w) && bid in w.told
    ensures forall i, j :: 0 <= i < j < |w.installs| ==> w.installs[i] != w.installs[j]
    ensures bid !in w.s.barriers ==>
              (bid in w.installs <==> w.told[bid].animated && w.told[bid].fetched == Some(true))
    ensures bid in w.s.barriers ==> bid !in w.installs
    ensures LevelPending(w.s) ==> exists t :: t in w.s.conts && w.s.conts[t].barrier in w.s.barriers
  {
    hide Inv, Runs, Carried;
    RunKeeps(acts, w);
    assert TellOk(w, bid);
    if LevelPending(w.s) {
      PendingIsOwed(w.s);
    }
  }
}
