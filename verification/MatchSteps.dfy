/** Every event, and so every run, keeps the invariant of MatchInvariant. */
module MatchSteps {
  import opened Wrappers
  import opened Compatibility
  import opened Protocol
  import opened WaitingQueue
  import opened MatchModel
  import opened MatchInvariant

  lemma InitConsistent(cfg: Config)
    ensures Inv(Init(cfg))
  {
  }

  /** A room ends for both members after its pair is blocked, and the queue is matched. */
  lemma EndAndMatchKeeps(st: State, r: RoomId, s: SocketId, mine: EndReason, theirs: EndReason, env: Env)
    requires Inv(st) && r in st.rooms
    ensures Inv(MatchPass(EndRoomOf(st, r, s, Some(mine), Some(theirs), env), DirtyPass, env))
  {
    EndRoomOfKeeps(st, r, s, mine, theirs, env);
    MatchPassKeeps(EndRoomOf(st, r, s, Some(mine), Some(theirs), env), DirtyPass, env);
  }

  /* ---------------------------------------------------------------- */
  /* Hello and preferences                                             */
  /* ---------------------------------------------------------------- */

  /** New preferences or mode for a session, in whatever state it is. */
  lemma RewriteKeeps(st: State, s: SocketId, who: Candidate, mode: MatchMode)
    requires Inv(st) && s in st.sessions && who.deviceId == st.sessions[s].who.deviceId
    ensures Inv(st.(sessions := st.sessions[s := st.sessions[s].(who := who, mode := mode)]))
  {
    var sessions' := st.sessions[s := st.sessions[s].(who := who, mode := mode)];
    assert WaitKeys(sessions') == WaitKeys(st.sessions);
    RewrittenSessionsFit(st, s, sessions'[s]);
    forall r | r in st.rooms ensures RoomOk(sessions', r, st.rooms[r]) {
      assert RoomOk(st.sessions, r, st.rooms[r]);
    }
  }

  lemma RewrittenSessionsFit(st: State, s: SocketId, session: Session)
    requires Inv(st) && s in st.sessions && session.who.deviceId == st.sessions[s].who.deviceId
    requires session == st.sessions[s].(who := session.who, mode := session.mode)
    ensures SessionsOk(st.sessions[s := session], st.rooms, {}) && DevicesOk(st.sessions[s := session], st.devices)
  {
    var sessions' := st.sessions[s := session];
    forall x | x in sessions' ensures SessionOk(st.rooms, x, sessions'[x]) && BoundTo(st.devices, x, sessions'[x]) {
      assert SessionOk(st.rooms, x, st.sessions[x]) && BoundTo(st.devices, x, st.sessions[x]);
    }
  }

  lemma RetireKeeps(st: State, s: SocketId, device: DeviceId, env: Env)
    requires Inv(st) && s !in st.sessions
    ensures Inv(RetirePrevious(st, s, device, env))
    ensures device !in RetirePrevious(st, s, device, env).devices
    ensures s !in RetirePrevious(st, s, device, env).sessions
  {
    if device in st.devices && st.devices[device] != s {
      ReplaceKeeps(st, st.devices[device], env);
    }
  }

  /** The first session of a device nobody is bound to. */
  lemma NewSessionKeeps(st: State, s: SocketId, session: Session)
    requires Inv(st) && s !in st.sessions && session.who.deviceId !in st.devices
    requires session.state == Idle && session.roomId == None && session.waitingSince == None
    ensures Inv(st.(sessions := st.sessions[s := session], devices := st.devices[session.who.deviceId := s]))
  {
    var sessions' := st.sessions[s := session];
    var devices' := st.devices[session.who.deviceId := s];
    assert WaitKeys(sessions') == WaitKeys(st.sessions);
    NewSessionFits(st, s, session);
    forall r | r in st.rooms ensures RoomOk(sessions', r, st.rooms[r]) {
      assert RoomOk(st.sessions, r, st.rooms[r]);
    }
  }

  lemma NewSessionFits(st: State, s: SocketId, session: Session)
    requires Inv(st) && s !in st.sessions && session.who.deviceId !in st.devices
    requires session.state == Idle && session.roomId == None && session.waitingSince == None
    ensures SessionsOk(st.sessions[s := session], st.rooms, {})
    ensures DevicesOk(st.sessions[s := session], st.devices[session.who.deviceId := s])
  {
    var sessions' := st.sessions[s := session];
    var devices' := st.devices[session.who.deviceId := s];
    forall x | x in sessions' ensures SessionOk(st.rooms, x, sessions'[x]) && BoundTo(devices', x, sessions'[x]) {
      if x != s {
        assert SessionOk(st.rooms, x, st.sessions[x]) && BoundTo(st.devices, x, st.sessions[x]);
      }
    }
  }

  lemma HelloStoredKeeps(st: State, s: SocketId, p: HelloPayload, env: Env)
    requires Inv(st) && (s in st.sessions ==> st.sessions[s].who.deviceId == p.device)
    ensures Inv(HelloStored(st, s, p, env))
    ensures s in HelloStored(st, s, p, env).sessions
  {
    if s in st.sessions {
      RewriteKeeps(st, s, HelloWho(p, env), p.mode);
    } else {
      RetireKeeps(st, s, p.device, env);
      NewSessionKeeps(RetirePrevious(st, s, p.device, env), s, Session(HelloWho(p, env), p.mode, Idle, None, None));
    }
  }

  lemma EnqueueAndMatchKeeps(st: State, s: SocketId, since: Option<nat>, env: Env)
    requires Inv(st) && s in st.sessions && (st.sessions[s].state == Idle || st.sessions[s].state == Waiting)
    ensures Inv(MatchPass(Enqueue(st, s, since, env), DirtyPass, env))
  {
    assert SessionOk(st.rooms, s, st.sessions[s]);
    RoomlessIsUnroomed(st.sessions, st.rooms, s);
    EnqueueKeeps(st, s, since, env, {});
    MatchPassKeeps(Enqueue(st, s, since, env), DirtyPass, env);
  }

  lemma HelloKeeps(st: State, s: SocketId, p: HelloPayload, answers: HelloAnswers, env: Env)
    requires Inv(st)
    ensures Inv(HelloStep(st, s, p, answers, env))
  {
    if HelloRefusal(st, s, p, answers, env) == None {
      HelloStoredKeeps(st, s, p, env);
      var stored := HelloStored(st, s, p, env);
      var acked := HelloAcked(stored, s, HelloWho(p, env).preferences.genderFilter, env.now);
      assert SameStory(stored, acked);
      var session := acked.sessions[s];
      if session.state == Idle || session.state == Waiting {
        EnqueueAndMatchKeeps(acked, s, if session.state == Waiting then session.waitingSince else None, env);
      }
    }
  }

  lemma UpdatePreferencesKeeps(st: State, s: SocketId, preferences: Preferences, env: Env)
    requires Inv(st)
    ensures Inv(UpdatePreferencesStep(st, s, preferences, env))
  {
    if s in st.sessions {
      var session := st.sessions[s];
      var who := session.who.(preferences := preferences);
      if !NeedsPremium(who, env) && session.who.preferences != preferences {
        RewriteKeeps(st, s, who, session.mode);
        var stored := st.(sessions := st.sessions[s := session.(who := who)]);
        var acked := Emit(stored, s, PreferencesSaved(preferences.genderFilter), env.now);
        assert Inv(acked);
        MatchPassKeeps(acked.(dirty := acked.dirty + {s}), DirtyPass, env);
      }
    }
  }

  /* ---------------------------------------------------------------- */
  /* Rooms                                                             */
  /* ---------------------------------------------------------------- */

  lemma AcceptKeeps(st: State, s: SocketId, r: RoomId, env: Env)
    requires Inv(st)
    ensures Inv(AcceptStep(st, s, r, env))
  {
    if MemberOf(st, s, r) && !st.rooms[r].active {
      var room := st.rooms[r];
      assert RoomOk(st.sessions, r, room);
      if env.now <= room.expiresAt + st.cfg.matchAcceptGraceMs && !HasAccepted(room, s) {
        var room' := AcceptedBy(room, s);
        if room'.acceptedA && room'.acceptedB {
          ActivateKeeps(st, r, room', env.now);
        } else {
          MarkRoomKeeps(st, r, room');
        }
      }
    }
  }

  lemma ConnectedKeeps(st: State, s: SocketId, r: RoomId, env: Env)
    requires Inv(st)
    ensures Inv(ConnectedStep(st, s, r, env))
  {
    if MemberOf(st, s, r) && st.rooms[r].active {
      assert RoomOk(st.sessions, r, st.rooms[r]);
      MarkRoomKeeps(st, r, ConnectedBy(st.rooms[r], s, env.now));
    }
  }

  lemma BlockedKeeps(st: State, r: RoomId, durationMs: nat, escalate: bool, now: nat)
    requires Inv(st) && r in st.rooms
    ensures Inv(BlockPair(st, st.rooms[r].deviceA, st.rooms[r].deviceB, durationMs, escalate, now))
    ensures BlockPair(st, st.rooms[r].deviceA, st.rooms[r].deviceB, durationMs, escalate, now).rooms == st.rooms
  {
  }

  lemma DeclineKeeps(st: State, s: SocketId, r: RoomId, env: Env)
    requires Inv(st)
    ensures Inv(DeclineStep(st, s, r, env))
  {
    if MemberOf(st, s, r) && !st.rooms[r].active {
      BlockedKeeps(st, r, st.cfg.declineBlockMs, false, env.now);
      EndAndMatchKeeps(BlockPair(st, st.rooms[r].deviceA, st.rooms[r].deviceB, st.cfg.declineBlockMs, false, env.now),
                       r, s, Declined, PartnerDeclined, env);
    }
  }

  lemma SkipKeeps(st: State, s: SocketId, only: Option<RoomId>, env: Env)
    requires Inv(st)
    ensures Inv(SkipStep(st, s, only, env))
  {
    if s in st.sessions && st.sessions[s].roomId.Some? {
      var r := st.sessions[s].roomId.value;
      if (only.Some? ==> only.value == r) && MemberOf(st, s, r) {
        BlockedKeeps(st, r, 0, true, env.now);
        EndAndMatchKeeps(BlockPair(st, st.rooms[r].deviceA, st.rooms[r].deviceB, 0, true, env.now),
                         r, s, Skipped, PartnerSkipped, env);
      }
    }
  }

  lemma ReportKeeps(st: State, s: SocketId, r: RoomId, target: (DeviceId, DeviceId), env: Env)
    requires Inv(st)
    ensures Inv(ReportStep(st, s, r, target, env))
  {
    if MemberOf(st, s, r) {
      BlockedKeeps(st, r, st.cfg.reportBlockMs, false, env.now);
      EndAndMatchKeeps(BlockPair(st, st.rooms[r].deviceA, st.rooms[r].deviceB, st.cfg.reportBlockMs, false, env.now),
                       r, s, Reported, PartnerSkipped, env);
    } else {
      assert SameStory(st, BlockPair(st, target.0, target.1, st.cfg.reportBlockMs, false, env.now));
    }
  }

  lemma CallFailedKeeps(st: State, s: SocketId, r: RoomId, env: Env)
    requires Inv(st)
    ensures Inv(CallFailedStep(st, s, r, env))
  {
    if MemberOf(st, s, r) && st.rooms[r].active {
      BlockedKeeps(st, r, st.cfg.declineBlockMs, false, env.now);
      EndAndMatchKeeps(BlockPair(st, st.rooms[r].deviceA, st.rooms[r].deviceB, st.cfg.declineBlockMs, false, env.now),
                       r, s, ConnectionFailed, ConnectionFailed, env);
    }
  }

  /* ---------------------------------------------------------------- */
  /* Restrictions and leaving                                          */
  /* ---------------------------------------------------------------- */

  lemma EndRestrictedKeeps(st: State, s: SocketId, env: Env)
    requires Inv(st) && s in st.sessions
    ensures Inv(EndRestrictedRoom(st, s, env))
    ensures EndRestrictedRoom(st, s, env).sessions.Keys == st.sessions.Keys
    ensures Unroomed(EndRestrictedRoom(st, s, env).rooms, s)
  {
    var roomId := st.sessions[s].roomId;
    if roomId.Some? {
      RoomedIsMember(st, s);
      EndRoomOfKeeps(st, roomId.value, s, Restricted, PartnerSkipped, env);
      var room := st.rooms[roomId.value];
      var (reasonA, reasonB) := ReasonsFor(room, s, Some(Restricted), Some(PartnerSkipped));
      EndRoomFrame(st, roomId.value, reasonA, reasonB, env);
      OnlyItsRoomListsIt(st, s);
    } else {
      RoomlessIsUnroomed(st.sessions, st.rooms, s);
    }
  }

  lemma OnlyItsRoomListsIt(st: State, s: SocketId)
    requires Inv(st) && s in st.sessions && st.sessions[s].roomId.Some?
    ensures Unroomed(st.rooms - {st.sessions[s].roomId.value}, s)
  {
    forall q | q in st.rooms - {st.sessions[s].roomId.value}
      ensures (st.rooms - {st.sessions[s].roomId.value})[q].a != s && (st.rooms - {st.sessions[s].roomId.value})[q].b != s
    {
      assert RoomOk(st.sessions, q, st.rooms[q]);
    }
  }

  lemma QueueLeaves(queue: seq<Entry>, sessions: Sessions, s: SocketId, session: Session)
    requires Represents(queue, WaitKeys(sessions)) && session.state != Waiting
    ensures Represents(Without(queue, s), WaitKeys(sessions[s := session]))
  {
    WithoutRepresents(queue, WaitKeys(sessions), s);
    assert WaitKeys(sessions[s := session]) == WaitKeys(sessions) - {s};
  }

  /** A session listed by no room may be made idle and taken out of the queue. */
  lemma SidelinedKeeps(st: State, s: SocketId)
    requires Inv(st) && s in st.sessions && Unroomed(st.rooms, s)
    ensures Inv(st.(sessions := MadeIdle(st.sessions, s), queue := Without(st.queue, s)))
  {
    var session := IdleSession(st.sessions[s]);
    MadeIdleIs(st.sessions, st.rooms, s);
    QueueLeaves(st.queue, st.sessions, s, session);
    IdledFits(st, s, session);
  }

  lemma MadeIdleIs(sessions: Sessions, rooms: Rooms, s: SocketId)
    requires s in sessions && SessionOk(rooms, s, sessions[s])
    ensures MadeIdle(sessions, s) == sessions[s := IdleSession(sessions[s])]
  {
  }

  lemma IdledFits(st: State, s: SocketId, session: Session)
    requires Inv(st) && s in st.sessions && Unroomed(st.rooms, s) && session == IdleSession(st.sessions[s])
    ensures SessionsOk(st.sessions[s := session], st.rooms, {}) && RoomsOk(st.sessions[s := session], st.rooms)
    ensures DevicesOk(st.sessions[s := session], st.devices)
  {
    RestateKeeps(st.sessions, st.rooms, st.devices, s, session, {});
    assert {} - {s} == {};
  }

  lemma RestrictKeeps(st: State, device: DeviceId, blocking: bool, env: Env)
    requires Inv(st)
    ensures Inv(RestrictStep(st, device, blocking, env))
  {
    if device in st.devices && st.devices[device] in st.sessions {
      var s := st.devices[device];
      if blocking {
        EndRestrictedKeeps(st, s, env);
        SidelinedKeeps(EndRestrictedRoom(st, s, env), s);
        var told := Emit(Sideline(st, s, env), s, SessionRestricted, env.now);
        assert Inv(told);
        MatchPassKeeps(told, DirtyPass, env);
      } else {
        var told := Emit(st, s, SessionRestricted, env.now);
        assert Inv(told);
        MatchPassKeeps(told, DirtyPass, env);
      }
    }
  }

  lemma RemoveIfPresentKeeps(st: State, s: SocketId, reason: EndReason, env: Env)
    requires Inv(st)
    ensures Inv(RemoveIfPresent(st, s, reason, env))
    ensures RemoveIfPresent(st, s, reason, env).sessions.Keys == st.sessions.Keys - {s}
  {
    if s in st.sessions {
      RemoveSessionKeeps(st, s, reason, env);
    }
  }

  lemma DisconnectKeeps(st: State, s: SocketId, env: Env)
    requires Inv(st)
    ensures Inv(DisconnectStep(st, s, env))
  {
    var forgotten := Forget(st, s);
    assert SameStory(st, forgotten) && Inv(forgotten);
    if s in st.sessions {
      RemoveSessionKeeps(forgotten, s, PartnerLeft, env);
      MatchPassKeeps(RemoveSession(forgotten, s, PartnerLeft, env), DirtyPass, env);
    }
  }

  lemma {:induction false} RemoveAllKeeps(st: State, sockets: seq<SocketId>, env: Env)
    requires Inv(st)
    ensures Inv(RemoveAll(st, sockets, env))
  {
    if sockets != [] {
      var n := |sockets| - 1;
      RemoveAllKeeps(st, sockets[..n], env);
      RemoveIfPresentKeeps(RemoveAll(st, sockets[..n], env), sockets[n], PartnerUnavailable, env);
    }
  }

  lemma ShutdownKeeps(st: State, locals: seq<SocketId>, env: Env)
    requires Inv(st)
    ensures Inv(ShutdownStep(st, locals, env))
  {
    if !st.stopped {
      assert SameStory(st, st.(stopped := true)) && Inv(st.(stopped := true));
      RemoveAllKeeps(st.(stopped := true), locals, env);
      var removed := RemoveAll(st.(stopped := true), locals, env);
      MatchPassKeeps(removed, DirtyPass, env);
      assert SameStory(MatchPass(removed, DirtyPass, env), ShutdownStep(st, locals, env));
    }
  }

  /* ---------------------------------------------------------------- */
  /* The sweep                                                         */
  /* ---------------------------------------------------------------- */

  lemma {:induction false} RemoveGhostsKeeps(st: State, ghosts: seq<SocketId>, env: Env)
    requires Inv(st)
    ensures Inv(RemoveGhosts(st, ghosts, env))
  {
    if ghosts != [] {
      var n := |ghosts| - 1;
      RemoveGhostsKeeps(st, ghosts[..n], env);
      var before := RemoveGhosts(st, ghosts[..n], env);
      assert SameStory(before, Forget(before, ghosts[n])) && Inv(Forget(before, ghosts[n]));
      RemoveIfPresentKeeps(Forget(before, ghosts[n]), ghosts[n], PartnerLeft, env);
    }
  }

  lemma ExpireRoomKeeps(st: State, r: RoomId, env: Env)
    requires Inv(st)
    ensures Inv(ExpireRoom(st, r, env))
  {
    if r in st.rooms && !st.rooms[r].active {
      var room := st.rooms[r];
      BlockedKeeps(st, r, st.cfg.declineBlockMs, false, env.now);
      EndRoomKeeps(BlockPair(st, room.deviceA, room.deviceB, st.cfg.declineBlockMs, false, env.now), r,
                   ExpiredReason(room.acceptedA), ExpiredReason(room.acceptedB), env);
      assert Leavers(room, ExpiredReason(room.acceptedA), ExpiredReason(room.acceptedB)) == {};
    }
  }

  lemma {:induction false} ExpireRoomsKeeps(st: State, expired: seq<RoomId>, env: Env)
    requires Inv(st)
    ensures Inv(ExpireRooms(st, expired, env))
  {
    if expired != [] {
      var n := |expired| - 1;
      ExpireRoomsKeeps(st, expired[..n], env);
      ExpireRoomKeeps(ExpireRooms(st, expired[..n], env), expired[n], env);
    }
  }

  lemma {:induction false} RelaxTickSameStory(st: State, order: seq<SocketId>, now: nat)
    ensures SameStory(st, RelaxTick(st, order, now))
  {
    if order != [] {
      RelaxTickSameStory(st, order[..|order| - 1], now);
    }
  }

  lemma SweepPreparedKeeps(st: State, input: SweepInput, env: Env)
    requires Inv(st)
    ensures Inv(SweepPrepared(st, input, env))
  {
    var marked := st.(lastReapAt := env.now);
    assert SameStory(st, marked) && Inv(marked);
    RemoveGhostsKeeps(marked, input.ghosts, env);
    var reaped := Reaped(st, input.ghosts, env);
    assert Inv(reaped);
    ExpireRoomsKeeps(reaped, input.expired, env);
    var expired := ExpireRooms(reaped, input.expired, env);
    var timed := WakeLapsed(expired, env.now).(lastRecheckAt := if RecheckDue(st, env) then env.now else st.lastRecheckAt);
    assert SameStory(expired, timed) && Inv(timed);
    RelaxTickSameStory(timed, input.order, env.now);
  }

  lemma SweepKeeps(st: State, input: SweepInput, env: Env)
    requires Inv(st)
    ensures Inv(SweepStep(st, input, env))
  {
    SweepPreparedKeeps(st, input, env);
    MatchPassKeeps(SweepPrepared(st, input, env), if RecheckDue(st, env) then RecheckPass else DirtyPass, env.(now := input.passAt));
  }

  /* ---------------------------------------------------------------- */
  /* Every event, every run                                            */
  /* ---------------------------------------------------------------- */

  lemma StartCallKeeps(st: State, task: nat, ready: bool, env: Env)
    requires Inv(st)
    ensures Inv(StartCallStep(st, task, ready, env))
  {
    assert SameStory(st, StartCallStep(st, task, ready, env));
  }

  /** Events of a member's own room. */
  lemma RoomEventsKeep(st: State, ev: Event, env: Env)
    requires Inv(st)
    requires ev.Accept? || ev.Decline? || ev.Connected? || ev.Skip? || ev.Report? || ev.CallFailed? || ev.StartCall?
    ensures Inv(Step(st, ev, env))
  {
    match ev
    case Accept(s, r) => AcceptKeeps(st, s, r, env);
    case Decline(s, r) => DeclineKeeps(st, s, r, env);
    case Connected(s, r) => ConnectedKeeps(st, s, r, env);
    case Skip(s, only) => SkipKeeps(st, s, only, env);
    case Report(s, r, target) => ReportKeeps(st, s, r, target, env);
    case CallFailed(s, r) => CallFailedKeeps(st, s, r, env);
    case StartCall(task, ready) => StartCallKeeps(st, task, ready, env);
  }

  lemma StepKeeps(st: State, ev: Event, env: Env)
    requires Inv(st)
    ensures Inv(Step(st, ev, env))
  {
    match ev
    case Hello(s, payload, answers) => HelloKeeps(st, s, payload, answers, env);
    case UpdatePreferences(s, preferences) => UpdatePreferencesKeeps(st, s, preferences, env);
    case Restrict(device, blocking) => RestrictKeeps(st, device, blocking, env);
    case Disconnect(s) => DisconnectKeeps(st, s, env);
    case Sweep(input) => SweepKeeps(st, input, env);
    case RunWholePass => MatchPassKeeps(st, WholePass, env);
    case Shutdown(locals) => ShutdownKeeps(st, locals, env);
    case Aside(s, e) => assert SameStory(st, Emit(st, s, e, env.now));
    case Act(s, act) => assert SameStory(st, st.(out := st.out + [Acted(s, act)]));
    case _ => RoomEventsKeep(st, ev, env);
  }

  /** Whatever clients, sweeps and services do, sessions, rooms, queue and bindings agree at every moment. */
  lemma {:induction false} EveryRunIsConsistent(cfg: Config, run: seq<(Event, Env)>)
    ensures Inv(Run(Init(cfg), run))
  {
    if run == [] {
      InitConsistent(cfg);
    } else {
      var n := |run| - 1;
      EveryRunIsConsistent(cfg, run[..n]);
      StepKeeps(Run(Init(cfg), run[..n]), run[n].0, run[n].1);
    }
  }

  /** In every run a device has at most one session. */
  lemma OneSessionPerDevice(cfg: Config, run: seq<(Event, Env)>, s: SocketId, t: SocketId)
    requires var st := Run(Init(cfg), run);
      && s in st.sessions && t in st.sessions
      && st.sessions[s].who.deviceId == st.sessions[t].who.deviceId
    ensures s == t
  {
    EveryRunIsConsistent(cfg, run);
    NoTwoSessionsShareADevice(Run(Init(cfg), run), s, t);
  }
}
