/**
 * The pass after an event tries only pairs with a dirty member, and its comment
 * says that this gives the pairs of a full pass. It does whenever the recorded
 * ladder steps and wake times are up to date, as they are after the ladder walk
 * of a sweep.
 */
module MatchFocus {
  import opened Wrappers
  import opened Compatibility
  import opened Protocol
  import opened Greedy
  import opened MatchModel
  import opened PassTheory
  import opened MatchInvariant
  import opened MatchSteps
  import opened MatchComplete
  import opened MatchEffects

  /** Nobody's ladder step has risen and no wake time has come since they were recorded. */
  ghost predicate Current(st: State, now: nat) {
    WakesAfter(st.wakeAt, now) && forall s :: Waits(st, s) ==> CaughtUp(st, s, now)
  }

  /** The same but for the marks, wake times and cursor that only steer later passes. */
  predicate SameOutcome(st: State, st': State) {
    st'.(dirty := {}, wakeAt := map[], recheckCursor := 0) == st.(dirty := {}, wakeAt := map[], recheckCursor := 0)
  }

  /* ---------------------------------------------------------------- */
  /* One pass                                                          */
  /* ---------------------------------------------------------------- */

  /** Two settled waiters may not be paired: they do not fit, one is banned, or their block outlives the clock. */
  lemma SettledMayNot(st: State, s: SocketId, t: SocketId, env: Env, later: nat)
    requires Diligent(st, env.low, env.banned, later) && Current(st, env.now) && Quiet(st, s) && Quiet(st, t) && s != t
    ensures !Matchable(st, env.low, env.banned, s, t, env.now)
  {
    if FitNow(st, env.low, env.banned, s, t, env.now) {
      RealFitsAreRecordedFits(st, env.low, s, t, env.now, later);
      assert Apart(st, env.banned, s, t);
      assert Parked(st.blocks, st.wakeAt, s, t, st.sessions[s].who.deviceId, st.sessions[t].who.deviceId);
    }
  }

  /** What a board may pair is matchable in the store. */
  lemma MayIsMatchable(st: State, waiting: seq<Waiter>, focus: Option<set<SocketId>>, env: Env, i: nat, j: nat)
    requires Loaded(st, waiting) && i < j < |waiting| && MakeBoard(st, waiting, focus, env).May(i, j)
    ensures Matchable(st, env.low, env.banned, waiting[i].socket, waiting[j].socket, env.now)
  {
  }

  /** So every pair of the whole board has a member in any focus that holds the dirty ones. */
  lemma FocusCoversWhole(st: State, waiting: seq<Waiter>, focus: set<SocketId>, env: Env, later: nat)
    requires Diligent(st, env.low, env.banned, later) && Current(st, env.now) && Loaded(st, waiting) && st.dirty <= focus
    ensures forall wake: map<SocketId, nat> ::
      Scan(MakeBoard(st, waiting, Some(focus), env), 0, {}, wake).pairs == Scan(MakeBoard(st, waiting, None, env), 0, {}, wake).pairs
  {
    var bd := MakeBoard(st, waiting, Some(focus), env);
    forall i: nat, j: nat | i < j < |waiting| && bd.May(i, j) ensures bd.InFocus(i) || bd.InFocus(j) {
      MayIsMatchable(st, waiting, Some(focus), env, i, j);
      if !bd.InFocus(i) && !bd.InFocus(j) {
        SettledMayNot(st, waiting[i].socket, waiting[j].socket, env, later);
      }
    }
    assert MakeBoard(st, waiting, None, env) == Everyone(bd);
    forall wake: map<SocketId, nat> ensures Scan(bd, 0, {}, wake).pairs == Scan(Everyone(bd), 0, {}, wake).pairs {
      QuietRestMakesPassesEqual(bd, wake);
    }
  }

  /** Creating rooms neither reads nor writes marks, wake times and cursor. */
  lemma CreateRoomSameOutcome(st: State, st': State, a: SocketId, b: SocketId, env: Env)
    requires SameOutcome(st, st') && a in st.sessions && b in st.sessions
    ensures a in st'.sessions && b in st'.sessions && SameOutcome(CreateRoom(st, a, b, env), CreateRoom(st', a, b, env))
  {
    assert st'.sessions == st.sessions && st'.rooms == st.rooms && st'.out == st.out && st'.calls == st.calls
      && st'.cfg == st.cfg && st'.nextRoom == st.nextRoom;
    var room := NewRoom(st, a, b, env);
    var news := FoundNews(st, a, b, room, env);
    assert NewRoom(st', a, b, env) == room && FoundNews(st', a, b, room, env) == news;
    assert SameOutcome(StoreRoom(st, a, b, room, news), StoreRoom(st', a, b, room, news));
  }

  lemma {:induction false} CreateRoomsSameOutcome(st: State, st': State, waiting: seq<Waiter>, pairs: seq<Pairing>, env: Env)
    requires SameOutcome(st, st')
    ensures SameOutcome(CreateRooms(st, waiting, pairs, env), CreateRooms(st', waiting, pairs, env))
  {
    if pairs != [] {
      var first, p := pairs[..|pairs| - 1], pairs[|pairs| - 1];
      CreateRoomsSameOutcome(st, st', waiting, first, env);
      var before := CreateRooms(st, waiting, first, env);
      if p.i < |waiting| && p.j < |waiting| && waiting[p.i].socket in before.sessions && waiting[p.j].socket in before.sessions {
        CreateRoomSameOutcome(before, CreateRooms(st', waiting, first, env), waiting[p.i].socket, waiting[p.j].socket, env);
      }
    }
  }

  lemma ScansSameOutcome(st: State, st': State, waiting: seq<Waiter>, focus: Option<set<SocketId>>, env: Env)
    requires SameOutcome(st, st')
    requires Scan(MakeBoard(st, waiting, focus, env), 0, {}, st.wakeAt).pairs == Scan(MakeBoard(st, waiting, None, env), 0, {}, st.wakeAt).pairs
    ensures SameOutcome(RunScan(st, waiting, focus, env), RunScan(st', waiting, None, env))
  {
    var scan := Scan(MakeBoard(st, waiting, focus, env), 0, {}, st.wakeAt);
    var whole := Scan(MakeBoard(st', waiting, None, env), 0, {}, st'.wakeAt);
    assert MakeBoard(st', waiting, None, env) == MakeBoard(st, waiting, None, env);
    WakesDoNotPair(MakeBoard(st, waiting, None, env), st.wakeAt, st'.wakeAt);
    CreateRoomsSameOutcome(st.(wakeAt := scan.wake), st'.(wakeAt := whole.wake), waiting, scan.pairs, env);
  }

  lemma WakesDoNotPair(bd: Board, wake: map<SocketId, nat>, wake': map<SocketId, nat>)
    requires bd.Valid()
    ensures Scan(bd, 0, {}, wake).pairs == Scan(bd, 0, {}, wake').pairs
  {
    ScanIsPass(bd, 0, {}, wake);
    ScanIsPass(bd, 0, {}, wake');
  }

  lemma PrunedCoversWhole(st: State, pruned: State, waiting: seq<Waiter>, focus: set<SocketId>, env: Env, later: nat)
    requires Diligent(st, env.low, env.banned, later) && Current(st, env.now) && Loaded(st, waiting) && st.dirty <= focus
    requires pruned.blocks == st.blocks && pruned.cfg == st.cfg
    ensures Scan(MakeBoard(pruned, waiting, Some(focus), env), 0, {}, pruned.wakeAt).pairs ==
            Scan(MakeBoard(pruned, waiting, None, env), 0, {}, pruned.wakeAt).pairs
  {
    FocusCoversWhole(st, waiting, focus, env, later);
    assert MakeBoard(pruned, waiting, Some(focus), env) == MakeBoard(st, waiting, Some(focus), env);
    assert MakeBoard(pruned, waiting, None, env) == MakeBoard(st, waiting, None, env);
  }

  /** What a pass over loaded waiters scans, and in which focus. */
  function Scanned(st: State, mode: PassMode, waiting: seq<Waiter>): (State, set<SocketId>)
    requires |waiting| > 0
  {
    var slice := RecheckSlice(|waiting|, st.cfg.recheckPairBudget, st.recheckCursor);
    if mode == RecheckPass then (Pruned(st, mode, waiting).(recheckCursor := slice.cursor), st.dirty + SliceSockets(waiting, slice))
    else (Pruned(st, mode, waiting), st.dirty)
  }

  lemma PassOverScans(st: State, mode: PassMode, waiting: seq<Waiter>, env: Env)
    requires |waiting| > 0
    ensures var (pruned, focus) := Scanned(st, mode, waiting);
      PassOver(st, mode, waiting, env) == RunScan(pruned, waiting, if mode == WholePass then None else Some(focus), env)
  {
  }

  lemma PassOverIsWhole(st: State, mode: PassMode, waiting: seq<Waiter>, env: Env, later: nat)
    requires Inv(st) && Diligent(st, env.low, env.banned, later) && Current(st, env.now)
    requires waiting == LoadWaiting(st.queue, st.sessions) && |waiting| > 0
    ensures SameOutcome(PassOver(st, mode, waiting, env), PassOver(st, WholePass, waiting, env))
  {
    QueueIsLoaded(st);
    var (pruned, focus) := Scanned(st, mode, waiting);
    PassOverScans(st, mode, waiting, env);
    PassOverScans(st, WholePass, waiting, env);
    PrunedCoversWhole(st, pruned, waiting, focus, env, later);
    ScansSameOutcome(pruned, Pruned(st, WholePass, waiting), waiting, if mode == WholePass then None else Some(focus), env);
  }

  lemma PairsTouchFocus(bd: Board, wake: map<SocketId, nat>)
    requires bd.Valid()
    ensures forall p :: p in Scan(bd, 0, {}, wake).pairs ==>
      p.i < |bd.waiting| && p.j < |bd.waiting| && (bd.InFocus(p.i) || bd.InFocus(p.j))
    ensures bd.focus == Some({}) ==> Scan(bd, 0, {}, wake).pairs == []
  {
    ScanIsPass(bd, 0, {}, wake);
    PassFacts(MayTryRelation(bd), |bd.waiting|, 0, {});
    var pairs := Scan(bd, 0, {}, wake).pairs;
    assert pairs != [] ==> pairs[0] in pairs;
    forall p | p in pairs
      ensures p.i < |bd.waiting| && p.j < |bd.waiting| && (bd.InFocus(p.i) || bd.InFocus(p.j))
    {
      assert Candidates(MayTryRelation(bd), |bd.waiting|, p);
    }
  }

  /** With nothing dirty the whole pass would find nothing. */
  lemma NothingDirtyNothingFound(st: State, waiting: seq<Waiter>, env: Env, later: nat)
    requires Inv(st) && Diligent(st, env.low, env.banned, later) && Current(st, env.now) && st.dirty == {}
    requires waiting == LoadWaiting(st.queue, st.sessions) && |waiting| > 0
    ensures SameOutcome(st, PassOver(st, WholePass, waiting, env))
  {
    QueueIsLoaded(st);
    var bd := MakeBoard(st, waiting, Some({}), env);
    FocusCoversWhole(st, waiting, {}, env, later);
    PairsTouchFocus(bd, st.wakeAt);
    var pruned := Pruned(st, WholePass, waiting);
    assert MakeBoard(pruned, waiting, None, env) == MakeBoard(st, waiting, None, env);
    assert Scan(MakeBoard(st, waiting, None, env), 0, {}, st.wakeAt).pairs == [];
  }

  /** A pass of any mode over a diligent, current state comes out as the whole pass. */
  lemma PassIsWhole(st: State, mode: PassMode, env: Env, later: nat)
    requires Inv(st) && Diligent(st, env.low, env.banned, later) && Current(st, env.now)
    ensures SameOutcome(MatchPass(st, mode, env), MatchPass(st, WholePass, env))
  {
    if env.open && |st.queue| >= 2 {
      QueueIsLoaded(st);
      var waiting := LoadWaiting(st.queue, st.sessions);
      if mode == DirtyPass && st.dirty == {} {
        NothingDirtyNothingFound(st, waiting, env, later);
      } else {
        PassOverIsWhole(st, mode, waiting, env, later);
      }
    }
  }

  /* ---------------------------------------------------------------- */
  /* Sweeps                                                            */
  /* ---------------------------------------------------------------- */

  /** The ladder walk brings steps and wake times up to the sweep's clock. */
  lemma SweepIsCurrent(st: State, input: SweepInput, env: Env, banned: set<DeviceId>, t: nat)
    requires Inv(st) && Diligent(st, env.low, banned, t) && LegalEnv(env, env.low, banned, t) && LegalSweep(st, input, env)
    ensures Current(SweepPrepared(st, input, env), env.now)
  {
    RousedDiligent(st, input, env, banned, t);
    TickedUp(Roused(st, input.ghosts, input.expired, env), input.order, env.now);
  }

  /**
   * In every legal run the incremental pass of a sweep comes out as the whole
   * pass would, if its clock has not moved since the ladder walk, or no step
   * rose and no wake time came in between.
   */
  lemma SweepPassIsWhole(cfg: Config, run: seq<(Event, Env)>, input: SweepInput, env: Env, low: set<DeviceId>)
    requires LegalRun(cfg, run, low) && LegalEnv(env, low, BannedAfter(run), TimeAfter(run))
    requires var st := Run(Init(cfg), run);
      LegalSweep(st, input, env) && (input.passAt == env.now || Current(SweepPrepared(st, input, env), input.passAt))
    ensures var st := Run(Init(cfg), run);
      SameOutcome(SweepStep(st, input, env), MatchPass(SweepPrepared(st, input, env), WholePass, env.(now := input.passAt)))
  {
    var st := Run(Init(cfg), run);
    EveryRunIsDiligent(cfg, run, low);
    EveryRunIsConsistent(cfg, run);
    SweepIsCurrent(st, input, env, BannedAfter(run), TimeAfter(run));
    SweepDiligent(st, input, env, BannedAfter(run), TimeAfter(run));
    SweepPreparedKeeps(st, input, env);
    PassIsWhole(SweepPrepared(st, input, env), if RecheckDue(st, env) then RecheckPass else DirtyPass,
                env.(now := input.passAt), env.now);
  }

  /* ---------------------------------------------------------------- */
  /* Events                                                            */
  /* ---------------------------------------------------------------- */

  /** The state in which an event other than a sweep runs its pass, if it runs one. */
  function BeforePass(st: State, ev: Event, env: Env): Option<State> {
    match ev
    case Hello(s, p, answers) =>
      if HelloRefusal(st, s, p, answers, env).Some? then None
      else
        var acked := HelloAcked(HelloStored(st, s, p, env), s, HelloWho(p, env).preferences.genderFilter, env.now);
        var session := acked.sessions[s];
        if session.state == Idle || session.state == Waiting
        then Some(Enqueue(acked, s, if session.state == Waiting then session.waitingSince else None, env)) else None
    case UpdatePreferences(s, preferences) =>
      if s !in st.sessions || st.sessions[s].state != Waiting || st.sessions[s].who.preferences == preferences
         || NeedsPremium(st.sessions[s].who.(preferences := preferences), env) then None
      else
        var session := st.sessions[s];
        var stored := st.(sessions := st.sessions[s := session.(who := session.who.(preferences := preferences))]);
        var acked := Emit(stored, s, PreferencesSaved(preferences.genderFilter), env.now);
        Some(acked.(dirty := acked.dirty + {s}))
    case Decline(s, r) =>
      if MemberOf(st, s, r) && !st.rooms[r].active
      then Some(BlockedAndEnded(st, r, s, st.cfg.declineBlockMs, false, Declined, PartnerDeclined, env)) else None
    case Skip(s, only) =>
      if s in st.sessions && st.sessions[s].roomId.Some? && (only.Some? ==> only == st.sessions[s].roomId)
         && MemberOf(st, s, st.sessions[s].roomId.value)
      then Some(BlockedAndEnded(st, st.sessions[s].roomId.value, s, 0, true, Skipped, PartnerSkipped, env)) else None
    case Report(s, r, _) =>
      if MemberOf(st, s, r)
      then Some(BlockedAndEnded(st, r, s, st.cfg.reportBlockMs, false, Reported, PartnerSkipped, env)) else None
    case CallFailed(s, r) =>
      if MemberOf(st, s, r) && st.rooms[r].active
      then Some(BlockedAndEnded(st, r, s, st.cfg.declineBlockMs, false, ConnectionFailed, ConnectionFailed, env)) else None
    case Restrict(device, blocking) =>
      if device !in st.devices || st.devices[device] !in st.sessions then None
      else
        var s := st.devices[device];
        Some(Emit(if blocking then Sideline(st, s, env) else st, s, SessionRestricted, env.now))
    case Disconnect(s) => if s !in st.sessions then None else Some(RemoveSession(Forget(st, s), s, PartnerLeft, env))
    case Shutdown(locals) => if st.stopped then None else Some(RemoveAll(st.(stopped := true), locals, env))
    case _ => None
  }

  function BlockedAndEnded(st: State, r: RoomId, s: SocketId, durationMs: nat, escalate: bool,
                           mine: EndReason, theirs: EndReason, env: Env): State
    requires r in st.rooms
  {
    var blocked := BlockPair(st, st.rooms[r].deviceA, st.rooms[r].deviceB, durationMs, escalate, env.now);
    EndRoomOf(blocked, r, s, Some(mine), Some(theirs), env)
  }

  /** After its pass an instance that shuts down forgets its sockets. */
  function AfterPass(st: State, ev: Event): State {
    if ev.Shutdown? then st.(local := {}) else st
  }

  lemma EventIsPass(st: State, ev: Event, env: Env)
    requires BeforePass(st, ev, env).Some?
    ensures Step(st, ev, env) == AfterPass(MatchPass(BeforePass(st, ev, env).value, DirtyPass, env), ev)
  {
  }

  ghost predicate ReadyToPass(st: State, env: Env) {
    Inv(st) && Diligent(st, env.low, env.banned, env.now)
  }

  /** Steps that keep every pair settled or marked leave a state ready for its pass. */
  lemma KeptIsReady(o: State, st: State, env: Env, banned: set<DeviceId>, t: nat)
    requires Diligent(o, env.low, banned, t) && LegalEnv(env, env.low, banned, t)
    requires Kept(o, st, {}, env.low, env.now) && Inv(st)
    ensures ReadyToPass(st, env)
  {
    PreparedDiligent(o, st, env, banned, t);
  }

  lemma EndedIsReady(st: State, r: RoomId, s: SocketId, durationMs: nat, escalate: bool,
                     mine: EndReason, theirs: EndReason, env: Env, banned: set<DeviceId>, t: nat)
    requires Inv(st) && Diligent(st, env.low, banned, t) && LegalEnv(env, env.low, banned, t) && r in st.rooms
    ensures ReadyToPass(BlockedAndEnded(st, r, s, durationMs, escalate, mine, theirs, env), env)
  {
    var blocked := BlockPair(st, st.rooms[r].deviceA, st.rooms[r].deviceB, durationMs, escalate, env.now);
    KeptAtOnce(st, env.low, env.now);
    BlockPairKept(st, st, st.rooms[r].deviceA, st.rooms[r].deviceB, durationMs, escalate, env.now, {}, env.low, env.now);
    BlockedKeeps(st, r, durationMs, escalate, env.now);
    EndRoomOfKept(st, blocked, r, s, Some(mine), Some(theirs), env, {});
    EndRoomOfKeeps(blocked, r, s, mine, theirs, env);
    KeptIsReady(st, EndRoomOf(blocked, r, s, Some(mine), Some(theirs), env), env, banned, t);
  }

  lemma RoomEventIsReady(st: State, ev: Event, env: Env, banned: set<DeviceId>, t: nat)
    requires Inv(st) && Diligent(st, env.low, banned, t) && LegalEnv(env, env.low, banned, t)
    requires BeforePass(st, ev, env).Some? && (ev.Decline? || ev.Skip? || ev.Report? || ev.CallFailed?)
    ensures ReadyToPass(BeforePass(st, ev, env).value, env)
  {
    match ev
    case Decline(s, r) => EndedIsReady(st, r, s, st.cfg.declineBlockMs, false, Declined, PartnerDeclined, env, banned, t);
    case Skip(s, _) => EndedIsReady(st, st.sessions[s].roomId.value, s, 0, true, Skipped, PartnerSkipped, env, banned, t);
    case Report(s, r, _) => EndedIsReady(st, r, s, st.cfg.reportBlockMs, false, Reported, PartnerSkipped, env, banned, t);
    case CallFailed(s, r) => EndedIsReady(st, r, s, st.cfg.declineBlockMs, false, ConnectionFailed, ConnectionFailed, env, banned, t);
  }

  lemma HelloIsReady(st: State, s: SocketId, p: HelloPayload, answers: HelloAnswers, env: Env, banned: set<DeviceId>, t: nat)
    requires Inv(st) && Diligent(st, env.low, banned, t) && LegalEnv(env, env.low, banned, t)
    requires BeforePass(st, Hello(s, p, answers), env).Some?
    ensures ReadyToPass(BeforePass(st, Hello(s, p, answers), env).value, env)
  {
    HelloStoredKeeps(st, s, p, env);
    HelloStoredKept(st, s, p, env);
    var stored := HelloStored(st, s, p, env);
    var acked := HelloAcked(stored, s, HelloWho(p, env).preferences.genderFilter, env.now);
    assert SameStory(stored, acked) && Inv(acked);
    BookkeepingKept(st, stored, acked, {s}, env.low, env.now);
    HelloSinceIsPast(st, s, p, env, banned, t);
    QueuedIsReady(st, acked, s, env, banned, t);
  }

  lemma QueuedIsReady(st: State, acked: State, s: SocketId, env: Env, banned: set<DeviceId>, t: nat)
    requires Diligent(st, env.low, banned, t) && LegalEnv(env, env.low, banned, t)
    requires Kept(st, acked, {s}, env.low, env.now) && Inv(acked) && s in acked.sessions
    requires acked.sessions[s].state == Idle || acked.sessions[s].state == Waiting
    requires acked.sessions[s].state == Waiting ==> acked.sessions[s].waitingSince.GetOr(env.now) <= env.now
    ensures ReadyToPass(Enqueue(acked, s, if acked.sessions[s].state == Waiting then acked.sessions[s].waitingSince else None, env), env)
  {
    var since := if acked.sessions[s].state == Waiting then acked.sessions[s].waitingSince else None;
    EnqueueKept(st, acked, s, since, env, {s});
    assert {s} - {s} == {};
    assert SessionOk(acked.rooms, s, acked.sessions[s]);
    RoomlessIsUnroomed(acked.sessions, acked.rooms, s);
    EnqueueKeeps(acked, s, since, env, {});
    KeptIsReady(st, Enqueue(acked, s, since, env), env, banned, t);
  }

  lemma PreferencesAreReady(st: State, s: SocketId, preferences: Preferences, env: Env, banned: set<DeviceId>, t: nat)
    requires Inv(st) && Diligent(st, env.low, banned, t) && LegalEnv(env, env.low, banned, t)
    requires BeforePass(st, UpdatePreferences(s, preferences), env).Some?
    ensures ReadyToPass(BeforePass(st, UpdatePreferences(s, preferences), env).value, env)
  {
    var session := st.sessions[s];
    var who := session.who.(preferences := preferences);
    RewriteKeeps(st, s, who, session.mode);
    var stored := st.(sessions := st.sessions[s := session.(who := who)]);
    var ready := BeforePass(st, UpdatePreferences(s, preferences), env).value;
    assert SameStory(stored, ready) && Inv(ready);
    RewrittenKept(st, ready, s, env.low, env.now);
    KeptIsReady(st, ready, env, banned, t);
  }

  lemma RestrictIsReady(st: State, device: DeviceId, blocking: bool, env: Env, banned: set<DeviceId>, t: nat)
    requires Inv(st) && Diligent(st, env.low, banned, t) && LegalEnv(env, env.low, banned, t)
    requires BeforePass(st, Restrict(device, blocking), env).Some?
    ensures ReadyToPass(BeforePass(st, Restrict(device, blocking), env).value, env)
  {
    var s := st.devices[device];
    var side := if blocking then Sideline(st, s, env) else st;
    KeptAtOnce(st, env.low, env.now);
    if blocking {
      EndRestrictedKeeps(st, s, env);
      SidelinedKeeps(EndRestrictedRoom(st, s, env), s);
      SidelineKept(st, s, env);
    }
    var told := Emit(side, s, SessionRestricted, env.now);
    BookkeepingKept(st, side, told, {}, env.low, env.now);
    assert SameStory(side, told) && Inv(told);
    KeptIsReady(st, told, env, banned, t);
  }

  lemma DisconnectIsReady(st: State, s: SocketId, env: Env, banned: set<DeviceId>, t: nat)
    requires Inv(st) && Diligent(st, env.low, banned, t) && LegalEnv(env, env.low, banned, t) && s in st.sessions
    ensures ReadyToPass(RemoveSession(Forget(st, s), s, PartnerLeft, env), env)
  {
    var forgotten := Forget(st, s);
    KeptAtOnce(st, env.low, env.now);
    ForgetKept(st, st, s, env.low, env.now);
    assert SameStory(st, forgotten) && Inv(forgotten);
    RemoveIfPresentKeeps(forgotten, s, PartnerLeft, env);
    RemovedForgottenKept(st, forgotten, s, env);
    KeptIsReady(st, RemoveIfPresent(forgotten, s, PartnerLeft, env), env, banned, t);
  }

  lemma ShutdownIsReady(st: State, locals: seq<SocketId>, env: Env, banned: set<DeviceId>, t: nat)
    requires Inv(st) && Diligent(st, env.low, banned, t) && LegalEnv(env, env.low, banned, t)
    ensures ReadyToPass(RemoveAll(st.(stopped := true), locals, env), env)
  {
    var stopped := st.(stopped := true);
    KeptAtOnce(st, env.low, env.now);
    BookkeepingKept(st, st, stopped, {}, env.low, env.now);
    assert SameStory(st, stopped) && Inv(stopped);
    RemoveAllKept(st, stopped, locals, env);
    RemoveAllKeeps(stopped, locals, env);
    KeptIsReady(st, RemoveAll(stopped, locals, env), env, banned, t);
  }

  lemma EventIsReady(st: State, ev: Event, env: Env, banned: set<DeviceId>, t: nat)
    requires Inv(st) && Diligent(st, env.low, banned, t) && LegalEnv(env, env.low, banned, t)
    requires BeforePass(st, ev, env).Some?
    ensures ReadyToPass(BeforePass(st, ev, env).value, env)
  {
    match ev
    case Hello(s, p, answers) => HelloIsReady(st, s, p, answers, env, banned, t);
    case UpdatePreferences(s, preferences) => PreferencesAreReady(st, s, preferences, env, banned, t);
    case Restrict(device, blocking) => RestrictIsReady(st, device, blocking, env, banned, t);
    case Disconnect(s) => DisconnectIsReady(st, s, env, banned, t);
    case Shutdown(locals) => ShutdownIsReady(st, locals, env, banned, t);
    case _ => RoomEventIsReady(st, ev, env, banned, t);
  }

  /**
   * In every legal run, an event whose pass meets nobody whose step has risen
   * and no wake time that has come since the last sweep comes out as if its
   * pass had tried every pair.
   */
  lemma EventPassIsWhole(cfg: Config, run: seq<(Event, Env)>, ev: Event, env: Env, low: set<DeviceId>)
    requires LegalRun(cfg, run, low) && LegalEnv(env, low, BannedAfter(run), TimeAfter(run))
    requires var before := BeforePass(Run(Init(cfg), run), ev, env); before.Some? && Current(before.value, env.now)
    ensures var st := Run(Init(cfg), run);
      SameOutcome(Step(st, ev, env), AfterPass(MatchPass(BeforePass(st, ev, env).value, WholePass, env), ev))
  {
    var st := Run(Init(cfg), run);
    EveryRunIsDiligent(cfg, run, low);
    EveryRunIsConsistent(cfg, run);
    EventIsReady(st, ev, env, BannedAfter(run), TimeAfter(run));
    EventIsPass(st, ev, env);
    PassIsWhole(BeforePass(st, ev, env).value, DirtyPass, env, env.now);
  }

  /* ---------------------------------------------------------------- */
  /* When a pass matches anybody                                       */
  /* ---------------------------------------------------------------- */

  /** What the passes after an event and over everybody try: pairs with a dirty member, or all. */
  ghost predicate Tried(st: State, mode: PassMode, s: SocketId, t: SocketId, env: Env) {
    Matchable(st, env.low, env.banned, s, t, env.now) && (mode == WholePass || s in st.dirty || t in st.dirty)
  }

  function FocusOf(st: State, mode: PassMode): Option<set<SocketId>> {
    if mode == WholePass then None else Some(st.dirty)
  }

  /** A room was created. */
  predicate Matches(st: State, st': State) {
    st'.nextRoom > st.nextRoom
  }

  lemma TriedIsSymmetric(st: State, mode: PassMode, s: SocketId, t: SocketId, env: Env)
    requires Tried(st, mode, s, t, env)
    ensures Tried(st, mode, t, s, env)
  {
    var a, b := st.sessions[s], st.sessions[t];
    FitsIsSymmetric(a.who, b.who, StepOf(Waiter(s, a), st.cfg.ladder, env.now, env.low), StepOf(Waiter(t, b), st.cfg.ladder, env.now, env.low));
  }

  /** A scan leaves no tried pair without a partner for either. */
  lemma ScanFindsSomebody(st: State, waiting: seq<Waiter>, mode: PassMode, env: Env, wake: map<SocketId, nat>, i: nat, j: nat)
    requires Loaded(st, waiting) && i < j < |waiting| && Tried(st, mode, waiting[i].socket, waiting[j].socket, env)
    ensures Scan(MakeBoard(st, waiting, FocusOf(st, mode), env), 0, {}, wake).pairs != []
  {
    var bd := MakeBoard(st, waiting, FocusOf(st, mode), env);
    ScanIsPass(bd, 0, {}, wake);
    PassFacts(MayTryRelation(bd), |waiting|, 0, {});
    assert waiting[i] == Waiter(waiting[i].socket, st.sessions[waiting[i].socket]);
    assert waiting[j] == Waiter(waiting[j].socket, st.sessions[waiting[j].socket]);
    assert bd.MayTry(i, j);
    assert Open(MayTryRelation(bd), |waiting|, 0, {}, Pairing(i, j));
  }

  lemma ScanFindsOnlyTried(st: State, waiting: seq<Waiter>, mode: PassMode, env: Env, wake: map<SocketId, nat>)
    requires Loaded(st, waiting)
    ensures var pairs := Scan(MakeBoard(st, waiting, FocusOf(st, mode), env), 0, {}, wake).pairs;
      pairs != [] ==> exists s, t :: Tried(st, mode, s, t, env)
  {
    var bd := MakeBoard(st, waiting, FocusOf(st, mode), env);
    var pairs := Scan(bd, 0, {}, wake).pairs;
    if pairs != [] {
      ScanIsPass(bd, 0, {}, wake);
      PassFacts(MayTryRelation(bd), |waiting|, 0, {});
      var p := pairs[0];
      assert p in pairs && Candidates(MayTryRelation(bd), |waiting|, p) && bd.MayTry(p.i, p.j);
      MayIsMatchable(st, waiting, bd.focus, env, p.i, p.j);
      assert Tried(st, mode, waiting[p.i].socket, waiting[p.j].socket, env);
    }
  }

  lemma RunScanCounts(st: State, waiting: seq<Waiter>, focus: Option<set<SocketId>>, env: Env)
    requires Inv(st) && Loaded(st, waiting)
    ensures var st', pairs := RunScan(st, waiting, focus, env), Scan(MakeBoard(st, waiting, focus, env), 0, {}, st.wakeAt).pairs;
      st'.nextRoom == st.nextRoom + |pairs| && (pairs != [] ==> st.nextRoom in st'.rooms)
  {
    var bd := MakeBoard(st, waiting, focus, env);
    var woken := st.(wakeAt := Scan(bd, 0, {}, st.wakeAt).wake);
    ScanIsCreatable(bd, st.wakeAt);
    assert SameStory(st, woken) && Inv(woken) && Loaded(woken, waiting);
    CreateRoomsOneEach(woken, waiting, Scan(bd, 0, {}, st.wakeAt).pairs, env);
  }

  lemma PassOverCounts(st: State, mode: PassMode, waiting: seq<Waiter>, env: Env)
    requires Inv(st) && waiting == LoadWaiting(st.queue, st.sessions) && |waiting| > 0 && mode != RecheckPass
    ensures var pairs := Scan(MakeBoard(st, waiting, FocusOf(st, mode), env), 0, {}, st.wakeAt).pairs;
      var st' := PassOver(st, mode, waiting, env);
      st'.nextRoom == st.nextRoom + |pairs| && (pairs != [] ==> st.nextRoom in st'.rooms)
  {
    var pruned := Pruned(st, mode, waiting);
    QueueIsLoaded(st);
    assert MakeBoard(pruned, waiting, FocusOf(st, mode), env) == MakeBoard(st, waiting, FocusOf(st, mode), env);
    assert pruned == st.(dirty := {}) && SameStory(st, pruned) && Inv(pruned) && Loaded(pruned, waiting);
    RunScanCounts(pruned, waiting, FocusOf(st, mode), env);
  }

  lemma ScanFindsIff(st: State, waiting: seq<Waiter>, mode: PassMode, env: Env, wake: map<SocketId, nat>)
    requires Loaded(st, waiting)
    requires forall s :: Waits(st, s) ==> s in SocketsOf(waiting) && exists x :: 0 <= x < |waiting| && waiting[x].socket == s
    ensures Scan(MakeBoard(st, waiting, FocusOf(st, mode), env), 0, {}, wake).pairs != [] <==> exists s, t :: Tried(st, mode, s, t, env)
  {
    ScanFindsOnlyTried(st, waiting, mode, env, wake);
    if s, t :| Tried(st, mode, s, t, env) {
      var x :| 0 <= x < |waiting| && waiting[x].socket == s;
      var y :| 0 <= y < |waiting| && waiting[y].socket == t;
      if x < y {
        ScanFindsSomebody(st, waiting, mode, env, wake, x, y);
      } else {
        TriedIsSymmetric(st, mode, s, t, env);
        ScanFindsSomebody(st, waiting, mode, env, wake, y, x);
      }
    }
  }

  lemma PassOverMatches(st: State, mode: PassMode, waiting: seq<Waiter>, env: Env)
    requires Inv(st) && waiting == LoadWaiting(st.queue, st.sessions) && |waiting| > 0 && mode != RecheckPass
    ensures Matches(st, PassOver(st, mode, waiting, env)) <==> exists s, t :: Tried(st, mode, s, t, env)
    ensures Matches(st, PassOver(st, mode, waiting, env)) ==> st.nextRoom in PassOver(st, mode, waiting, env).rooms
  {
    QueueIsLoaded(st);
    LoadedEveryWaiter(st);
    ScanFindsIff(st, waiting, mode, env, st.wakeAt);
    PassOverCounts(st, mode, waiting, env);
  }

  lemma NobodyToTry(st: State, mode: PassMode, env: Env)
    requires Inv(st) && ((mode == DirtyPass && st.dirty == {}) || |st.queue| < 2)
    ensures !exists s, t :: Tried(st, mode, s, t, env)
  {
    if s, t :| Tried(st, mode, s, t, env) {
      EveryWaiterIsQueued(st, s);
      EveryWaiterIsQueued(st, t);
      assert false;
    }
  }

  /**
   * While matching is open, the whole pass creates a room exactly when two
   * waiters are matchable, and the pass after an event exactly when two are of
   * whom one is dirty. So a pass comes up empty where the whole pass would not
   * exactly when somebody is matchable and nobody with a dirty member is.
   */
  lemma PassMatchesIff(st: State, mode: PassMode, env: Env)
    requires Inv(st) && env.open && mode != RecheckPass
    ensures Matches(st, MatchPass(st, mode, env)) <==> exists s, t :: Tried(st, mode, s, t, env)
    ensures Matches(st, MatchPass(st, mode, env)) ==> st.nextRoom in MatchPass(st, mode, env).rooms
  {
    if (mode == DirtyPass && st.dirty == {}) || |st.queue| < 2 {
      NobodyToTry(st, mode, env);
    } else {
      QueueIsLoaded(st);
      PassOverMatches(st, mode, LoadWaiting(st.queue, st.sessions), env);
    }
  }
}
