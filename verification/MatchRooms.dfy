/**
 * A room's story only moves forward: its members, devices and deadline never
 * change, acceptances and connections are never taken back, the times they set
 * stay as they were, and a room that ended never returns. A room is connected
 * at the clock of the event by which its second member reported it.
 */
module MatchRooms {
  import opened Wrappers
  import opened Compatibility
  import opened Protocol
  import opened MatchModel
  import opened MatchInvariant
  import opened MatchSteps
  import opened MatchEffects
  import opened MatchFocus

  /** Once set, a value stays. */
  predicate Fixed(before: Option<nat>, after: Option<nat>) {
    before.Some? ==> after == before
  }

  predicate SameConnection(room: Room, room': Room) {
    room'.connectedA == room.connectedA && room'.connectedB == room.connectedB && room'.connectedSince == room.connectedSince
  }

  predicate Unconnected(room: Room) {
    !room.connectedA && !room.connectedB && room.connectedSince == None
  }

  /** The room further on; connections reported on the way were reported by `until`, or none was. */
  predicate Forward(room: Room, room': Room, until: Option<nat>) {
    && room'.a == room.a && room'.b == room.b && room'.deviceA == room.deviceA && room'.deviceB == room.deviceB
    && room'.createdAt == room.createdAt && room'.expiresAt == room.expiresAt
    && (room.active ==> room'.active) && (room.acceptedA ==> room'.acceptedA) && (room.acceptedB ==> room'.acceptedB)
    && (room.connectedA ==> room'.connectedA) && (room.connectedB ==> room'.connectedB)
    && Fixed(room.activeSince, room'.activeSince) && Fixed(room.connectedSince, room'.connectedSince)
    && (until == None ==> SameConnection(room, room'))
    && (until.Some? && room.connectedSince == None ==> ConnectedBefore(room', until.value))
  }

  predicate ConnectedBefore(room: Room, until: nat) {
    room.connectedSince.Some? ==> room.connectedSince.value <= until
  }

  /** A room further on, or new under a number never used. */
  predicate Later(st: State, st': State, r: RoomId, until: Option<nat>)
    requires r in st'.rooms
  {
    if r in st.rooms then Forward(st.rooms[r], st'.rooms[r], until)
    else
      && r >= st.nextRoom
      && if until == None then Unconnected(st'.rooms[r]) else ConnectedBefore(st'.rooms[r], until.value)
  }

  ghost predicate Onward(st: State, st': State, until: Option<nat>) {
    st.nextRoom <= st'.nextRoom && forall r :: r in st'.rooms ==> Later(st, st', r, until)
  }

  /** The later of two bounds on connections. */
  predicate Within(until: Option<nat>, last: Option<nat>) {
    until.Some? ==> last.Some? && until.value <= last.value
  }

  lemma OnwardTwice(st: State, mid: State, st': State, until: Option<nat>, until': Option<nat>, last: Option<nat>)
    requires Onward(st, mid, until) && Onward(mid, st', until') && Within(until, last) && Within(until', last) && Numbered(st.rooms, st.nextRoom)
    ensures Onward(st, st', last)
  {
    forall r | r in st'.rooms ensures Later(st, st', r, last) {
      assert Later(mid, st', r, until');
      if r in mid.rooms {
        assert Later(st, mid, r, until);
      }
    }
  }

  /** Fewer rooms, none of them changed. */
  ghost predicate OnlyEnds(st: State, st': State) {
    st'.nextRoom == st.nextRoom && forall r :: r in st'.rooms ==> r in st.rooms && st'.rooms[r] == st.rooms[r]
  }

  lemma EndsAreOnward(st: State, st': State, until: Option<nat>)
    requires OnlyEnds(st, st')
    ensures Onward(st, st', until)
  {
  }

  lemma PassIsOnward(st: State, mode: PassMode, env: Env)
    requires Inv(st)
    ensures Onward(st, MatchPass(st, mode, env), None)
  {
    PassCreatesOnlyMatched(st, mode, env);
    PassNumbersRooms(st, mode, env);
    var st' := MatchPass(st, mode, env);
    forall r | r in st'.rooms ensures Later(st, st', r, None) {
      if r !in st.rooms {
        assert MatchedByPass(st, st'.rooms[r], env);
      }
    }
  }

  lemma PassNumbersRooms(st: State, mode: PassMode, env: Env)
    requires Inv(st)
    ensures var st' := MatchPass(st, mode, env);
      st'.nextRoom >= st.nextRoom && forall r :: r in st'.rooms && r !in st.rooms ==> r >= st.nextRoom
  {
    if NoScan(st, mode, env) {
      SkippedPass(st, mode, env);
    } else {
      PassIsScan(st, mode, env);
      ScannedIsLoaded(st, mode);
      ScanNumbersRooms(ScanFrom(st, mode), Loads(st), ScanFocus(st, mode), env);
    }
  }

  lemma ScanNumbersRooms(st: State, waiting: seq<Waiter>, focus: Option<set<SocketId>>, env: Env)
    requires Inv(st) && Loaded(st, waiting)
    ensures var st' := RunScan(st, waiting, focus, env);
      st'.nextRoom >= st.nextRoom && forall r :: r in st'.rooms && r !in st.rooms ==> r >= st.nextRoom
  {
    var bd := MakeBoard(st, waiting, focus, env);
    var scan := Scan(bd, 0, {}, st.wakeAt);
    ScanIsCreatable(bd, st.wakeAt);
    var woken := st.(wakeAt := scan.wake);
    assert SameStory(st, woken) && Inv(woken) && Loaded(woken, waiting);
    CreateRoomsOneEach(woken, waiting, scan.pairs, env);
  }

  lemma EndIsOnlyEnds(st: State, r: RoomId, s: SocketId, mine: Option<EndReason>, theirs: Option<EndReason>, env: Env)
    requires Inv(st) && r in st.rooms
    ensures OnlyEnds(st, EndRoomOf(st, r, s, mine, theirs, env))
  {
    assert RoomOk(st.sessions, r, st.rooms[r]);
    var (reasonA, reasonB) := ReasonsFor(st.rooms[r], s, mine, theirs);
    EndRoomFrame(st, r, reasonA, reasonB, env);
  }

  lemma RemoveIsOnlyEnds(st: State, s: SocketId, reason: EndReason, env: Env)
    requires Inv(st)
    ensures OnlyEnds(st, RemoveIfPresent(st, s, reason, env))
  {
    if s in st.sessions {
      LeaversRoomFrame(st, s, reason, env);
    }
  }

  lemma {:induction false} RemoveAllIsOnlyEnds(st: State, sockets: seq<SocketId>, env: Env)
    requires Inv(st)
    ensures OnlyEnds(st, RemoveAll(st, sockets, env))
  {
    if sockets != [] {
      var n := |sockets| - 1;
      RemoveAllIsOnlyEnds(st, sockets[..n], env);
      RemoveAllKeeps(st, sockets[..n], env);
      RemoveIsOnlyEnds(RemoveAll(st, sockets[..n], env), sockets[n], PartnerUnavailable, env);
    }
  }

  lemma {:induction false} RemoveGhostsIsOnlyEnds(st: State, ghosts: seq<SocketId>, env: Env)
    requires Inv(st)
    ensures OnlyEnds(st, RemoveGhosts(st, ghosts, env))
  {
    if ghosts != [] {
      var n := |ghosts| - 1;
      RemoveGhostsIsOnlyEnds(st, ghosts[..n], env);
      RemoveGhostsKeeps(st, ghosts[..n], env);
      var before := RemoveGhosts(st, ghosts[..n], env);
      assert SameStory(before, Forget(before, ghosts[n])) && Inv(Forget(before, ghosts[n]));
      RemoveIsOnlyEnds(Forget(before, ghosts[n]), ghosts[n], PartnerLeft, env);
    }
  }

  lemma ExpireIsOnlyEnds(st: State, r: RoomId, env: Env)
    requires Inv(st)
    ensures OnlyEnds(st, ExpireRoom(st, r, env))
  {
    if r in st.rooms && !st.rooms[r].active {
      var room := st.rooms[r];
      var blocked := BlockPair(st, room.deviceA, room.deviceB, st.cfg.declineBlockMs, false, env.now);
      BlockedKeeps(st, r, st.cfg.declineBlockMs, false, env.now);
      assert RoomOk(blocked.sessions, r, room);
      EndRoomFrame(blocked, r, ExpiredReason(room.acceptedA), ExpiredReason(room.acceptedB), env);
    }
  }

  lemma {:induction false} ExpireRoomsIsOnlyEnds(st: State, expired: seq<RoomId>, env: Env)
    requires Inv(st)
    ensures OnlyEnds(st, ExpireRooms(st, expired, env))
  {
    if expired != [] {
      var n := |expired| - 1;
      ExpireRoomsIsOnlyEnds(st, expired[..n], env);
      ExpireRoomsKeeps(st, expired[..n], env);
      ExpireIsOnlyEnds(ExpireRooms(st, expired[..n], env), expired[n], env);
    }
  }

  /** A section that only ends rooms and then runs the pass. */
  lemma EndsThenPass(st: State, ended: State, mode: PassMode, env: Env)
    requires Inv(st) && OnlyEnds(st, ended) && Inv(ended)
    ensures Onward(st, MatchPass(ended, mode, env), None)
  {
    EndsAreOnward(st, ended, None);
    PassIsOnward(ended, mode, env);
    OnwardTwice(st, ended, MatchPass(ended, mode, env), None, None, None);
  }

  /* ---------------------------------------------------------------- */
  /* Up to the pass: rooms only end                                    */
  /* ---------------------------------------------------------------- */

  /** The state and clock an event's pass starts from, and its mode, if it runs one. */
  datatype Start = Start(st: State, mode: PassMode, env: Env)

  function PassStart(st: State, ev: Event, env: Env): Option<Start> {
    match ev
    case Sweep(input) =>
      Some(Start(SweepPrepared(st, input, env), if RecheckDue(st, env) then RecheckPass else DirtyPass, env.(now := input.passAt)))
    case RunWholePass => Some(Start(st, WholePass, env))
    case _ =>
      if BeforePass(st, ev, env).Some? then Some(Start(BeforePass(st, ev, env).value, DirtyPass, env)) else None
  }

  lemma StepIsPass(st: State, ev: Event, env: Env)
    requires PassStart(st, ev, env).Some?
    ensures var start := PassStart(st, ev, env).value;
      Step(st, ev, env) == AfterPass(MatchPass(start.st, start.mode, start.env), ev)
  {
    if !ev.Sweep? && !ev.RunWholePass? {
      EventIsPass(st, ev, env);
    }
  }

  ghost predicate OnlyEnded(st: State, st': State) {
    Inv(st') && OnlyEnds(st, st')
  }

  lemma StoredIsOnlyEnds(st: State, s: SocketId, p: HelloPayload, env: Env)
    requires Inv(st) && (s in st.sessions ==> st.sessions[s].who.deviceId == p.device)
    ensures OnlyEnded(st, HelloStored(st, s, p, env))
  {
    HelloStoredKeeps(st, s, p, env);
    if s !in st.sessions && p.device in st.devices && st.devices[p.device] != s {
      var previous := st.devices[p.device];
      var told := Emit(st, previous, SessionReplaced, env.now);
      assert SameStory(st, told) && Inv(told);
      RemoveIsOnlyEnds(told, previous, PartnerUnavailable, env);
    }
  }

  lemma HelloOnlyEnds(st: State, s: SocketId, p: HelloPayload, answers: HelloAnswers, env: Env)
    requires Inv(st) && BeforePass(st, Hello(s, p, answers), env).Some?
    ensures OnlyEnded(st, BeforePass(st, Hello(s, p, answers), env).value)
  {
    StoredIsOnlyEnds(st, s, p, env);
    var stored := HelloStored(st, s, p, env);
    var acked := HelloAcked(stored, s, HelloWho(p, env).preferences.genderFilter, env.now);
    assert SameStory(stored, acked) && Inv(acked) && OnlyEnds(st, acked);
    var session := acked.sessions[s];
    QueueingOnlyEnds(st, acked, s, if session.state == Waiting then session.waitingSince else None, env);
  }

  lemma QueueingIsSafe(acked: State, s: SocketId, since: Option<nat>, env: Env)
    requires Inv(acked) && s in acked.sessions && (acked.sessions[s].state == Idle || acked.sessions[s].state == Waiting)
    ensures Inv(Enqueue(acked, s, since, env))
  {
    assert SessionOk(acked.rooms, s, acked.sessions[s]);
    RoomlessIsUnroomed(acked.sessions, acked.rooms, s);
    EnqueueKeeps(acked, s, since, env, {});
  }

  lemma QueueingOnlyEnds(st: State, acked: State, s: SocketId, since: Option<nat>, env: Env)
    requires OnlyEnded(st, acked) && s in acked.sessions && (acked.sessions[s].state == Idle || acked.sessions[s].state == Waiting)
    ensures OnlyEnded(st, Enqueue(acked, s, since, env))
  {
    QueueingIsSafe(acked, s, since, env);
    EnqueueFrame(acked, s, since, env);
  }

  lemma PreferencesOnlyEnd(st: State, s: SocketId, preferences: Preferences, env: Env)
    requires Inv(st) && BeforePass(st, UpdatePreferences(s, preferences), env).Some?
    ensures OnlyEnded(st, BeforePass(st, UpdatePreferences(s, preferences), env).value)
  {
    var session := st.sessions[s];
    var who := session.who.(preferences := preferences);
    RewriteKeeps(st, s, who, session.mode);
    assert SameStory(st.(sessions := st.sessions[s := session.(who := who)]), BeforePass(st, UpdatePreferences(s, preferences), env).value);
  }

  lemma PartingOnlyEnds(st: State, r: RoomId, s: SocketId, durationMs: nat, escalate: bool, mine: EndReason, theirs: EndReason, env: Env)
    requires Inv(st) && r in st.rooms
    ensures OnlyEnded(st, BlockedAndEnded(st, r, s, durationMs, escalate, mine, theirs, env))
  {
    var blocked := BlockPair(st, st.rooms[r].deviceA, st.rooms[r].deviceB, durationMs, escalate, env.now);
    BlockedKeeps(st, r, durationMs, escalate, env.now);
    EndRoomOfKeeps(blocked, r, s, mine, theirs, env);
    EndIsOnlyEnds(blocked, r, s, Some(mine), Some(theirs), env);
  }

  lemma RoomEventOnlyEnds(st: State, ev: Event, env: Env)
    requires Inv(st) && BeforePass(st, ev, env).Some? && (ev.Decline? || ev.Skip? || ev.Report? || ev.CallFailed?)
    ensures OnlyEnded(st, BeforePass(st, ev, env).value)
  {
    match ev
    case Decline(s, r) => PartingOnlyEnds(st, r, s, st.cfg.declineBlockMs, false, Declined, PartnerDeclined, env);
    case Skip(s, _) => PartingOnlyEnds(st, st.sessions[s].roomId.value, s, 0, true, Skipped, PartnerSkipped, env);
    case Report(s, r, _) => PartingOnlyEnds(st, r, s, st.cfg.reportBlockMs, false, Reported, PartnerSkipped, env);
    case CallFailed(s, r) => PartingOnlyEnds(st, r, s, st.cfg.declineBlockMs, false, ConnectionFailed, ConnectionFailed, env);
  }

  lemma RestrictOnlyEnds(st: State, device: DeviceId, blocking: bool, env: Env)
    requires Inv(st) && BeforePass(st, Restrict(device, blocking), env).Some?
    ensures OnlyEnded(st, BeforePass(st, Restrict(device, blocking), env).value)
  {
    var s := st.devices[device];
    SidelinedTold(st, s, blocking, env);
    if blocking && st.sessions[s].roomId.Some? {
      RoomedIsMember(st, s);
      EndIsOnlyEnds(st, st.sessions[s].roomId.value, s, Some(Restricted), Some(PartnerSkipped), env);
    }
  }

  lemma DisconnectOnlyEnds(st: State, s: SocketId, env: Env)
    requires Inv(st) && s in st.sessions
    ensures OnlyEnded(st, RemoveSession(Forget(st, s), s, PartnerLeft, env))
  {
    var forgotten := Forget(st, s);
    assert SameStory(st, forgotten) && Inv(forgotten);
    RemoveIsOnlyEnds(forgotten, s, PartnerLeft, env);
    RemoveIfPresentKeeps(forgotten, s, PartnerLeft, env);
  }

  lemma ShutdownOnlyEnds(st: State, locals: seq<SocketId>, env: Env)
    requires Inv(st)
    ensures OnlyEnded(st, RemoveAll(st.(stopped := true), locals, env))
  {
    var stopped := st.(stopped := true);
    assert SameStory(st, stopped) && Inv(stopped);
    RemoveAllIsOnlyEnds(stopped, locals, env);
    RemoveAllKeeps(stopped, locals, env);
  }

  lemma SweepOnlyEnds(st: State, input: SweepInput, env: Env)
    requires Inv(st)
    ensures OnlyEnded(st, SweepPrepared(st, input, env))
  {
    var marked := st.(lastReapAt := env.now);
    assert SameStory(st, marked) && Inv(marked);
    RemoveGhostsIsOnlyEnds(marked, input.ghosts, env);
    RemoveGhostsKeeps(marked, input.ghosts, env);
    var reaped := Reaped(st, input.ghosts, env);
    assert Inv(reaped) && OnlyEnds(st, reaped);
    ExpireRoomsIsOnlyEnds(reaped, input.expired, env);
    RelaxTickSameStory(Roused(st, input.ghosts, input.expired, env), input.order, env.now);
    SweepPreparedKeeps(st, input, env);
  }

  /** Whatever the event, up to its pass rooms only end. */
  lemma StartOnlyEnds(st: State, ev: Event, env: Env)
    requires Inv(st) && PassStart(st, ev, env).Some?
    ensures OnlyEnded(st, PassStart(st, ev, env).value.st)
  {
    match ev
    case Hello(s, p, answers) => HelloOnlyEnds(st, s, p, answers, env);
    case UpdatePreferences(s, preferences) => PreferencesOnlyEnd(st, s, preferences, env);
    case Restrict(device, blocking) => RestrictOnlyEnds(st, device, blocking, env);
    case Disconnect(s) => DisconnectOnlyEnds(st, s, env);
    case Shutdown(locals) => ShutdownOnlyEnds(st, locals, env);
    case Sweep(input) => SweepOnlyEnds(st, input, env);
    case RunWholePass =>
    case _ => RoomEventOnlyEnds(st, ev, env);
  }

  /* ---------------------------------------------------------------- */
  /* Every event                                                       */
  /* ---------------------------------------------------------------- */

  lemma PassEventIsOnward(st: State, ev: Event, env: Env)
    requires Inv(st) && PassStart(st, ev, env).Some?
    ensures Onward(st, Step(st, ev, env), None)
  {
    var start := PassStart(st, ev, env).value;
    StartOnlyEnds(st, ev, env);
    StepIsPass(st, ev, env);
    EndsThenPass(st, start.st, start.mode, start.env);
  }

  lemma QuietHelloRooms(st: State, s: SocketId, p: HelloPayload, answers: HelloAnswers, env: Env)
    requires BeforePass(st, Hello(s, p, answers), env) == None
    ensures HelloStep(st, s, p, answers, env).rooms == st.rooms && HelloStep(st, s, p, answers, env).nextRoom == st.nextRoom
  {
    if HelloRefusal(st, s, p, answers, env) == None {
      RoomedHelloRooms(st, s, p, env);
    }
  }

  lemma RoomedHelloRooms(st: State, s: SocketId, p: HelloPayload, env: Env)
    requires s in HelloStored(st, s, p, env).sessions && HelloStored(st, s, p, env).sessions[s].state != Idle
    ensures HelloStored(st, s, p, env).rooms == st.rooms && HelloStored(st, s, p, env).nextRoom == st.nextRoom
  {
  }

  lemma QuietRoomEvents(st: State, ev: Event, env: Env)
    requires BeforePass(st, ev, env) == None && (ev.Decline? || ev.Skip? || ev.Report? || ev.CallFailed?)
    ensures Step(st, ev, env).rooms == st.rooms && Step(st, ev, env).nextRoom == st.nextRoom
  {
    match ev
    case Decline(s, r) =>
    case Skip(s, _) =>
    case Report(s, r, _) =>
    case CallFailed(s, r) =>
  }

  lemma QuietPreferences(st: State, s: SocketId, preferences: Preferences, env: Env)
    requires BeforePass(st, UpdatePreferences(s, preferences), env) == None
    ensures var st' := UpdatePreferencesStep(st, s, preferences, env); st'.rooms == st.rooms && st'.nextRoom == st.nextRoom
  {
  }

  lemma QuietOtherEvents(st: State, ev: Event, env: Env)
    requires PassStart(st, ev, env) == None
    requires ev.Restrict? || ev.Disconnect? || ev.Shutdown? || ev.StartCall? || ev.Aside? || ev.Act?
    ensures Step(st, ev, env).rooms == st.rooms && Step(st, ev, env).nextRoom == st.nextRoom
  {
    match ev
    case Restrict(_, _) =>
    case Disconnect(_) =>
    case Shutdown(_) =>
    case StartCall(task, ready) => StartCallIsQuiet(st, task, ready, env);
    case Aside(s, e) =>
    case Act(s, act) =>
  }

  lemma StartCallIsQuiet(st: State, task: nat, ready: bool, env: Env)
    ensures SameStory(st, StartCallStep(st, task, ready, env))
  {
  }

  /** An event without a pass leaves every room alone, unless it accepts one or reports its connection. */
  lemma PasslessRooms(st: State, ev: Event, env: Env)
    requires PassStart(st, ev, env) == None && !ev.Accept? && !ev.Connected?
    ensures Step(st, ev, env).rooms == st.rooms && Step(st, ev, env).nextRoom == st.nextRoom
  {
    match ev
    case Hello(s, p, answers) => QuietHelloRooms(st, s, p, answers, env);
    case UpdatePreferences(s, preferences) => QuietPreferences(st, s, preferences, env);
    case Decline(_, _) => QuietRoomEvents(st, ev, env);
    case Skip(_, _) => QuietRoomEvents(st, ev, env);
    case Report(_, _, _) => QuietRoomEvents(st, ev, env);
    case CallFailed(_, _) => QuietRoomEvents(st, ev, env);
    case _ => QuietOtherEvents(st, ev, env);
  }

  lemma AcceptingIsForward(st: State, s: SocketId, r: RoomId, now: nat)
    requires r in st.rooms && RoomShape(st.rooms[r]) && !st.rooms[r].active
    ensures Forward(st.rooms[r], AcceptedRoom(st, s, r, now), None)
  {
  }

  lemma AcceptIsOnward(st: State, s: SocketId, r: RoomId, env: Env)
    requires Inv(st)
    ensures Onward(st, AcceptStep(st, s, r, env), None)
  {
    if MemberOf(st, s, r) && !st.rooms[r].active {
      assert RoomOk(st.sessions, r, st.rooms[r]);
      AcceptLeaves(st, s, r, env);
      AcceptingIsForward(st, s, r, env.now);
      OneRoomOnward(st, AcceptStep(st, s, r, env), r, AcceptedRoom(st, s, r, env.now), None);
    }
  }

  /** What a report makes of the room: the reporter is connected, and the second report sets the time. */
  predicate AfterReport(room: Room, room': Room, s: SocketId, now: nat) {
    && room' == room.(connectedA := room.connectedA || s == room.a, connectedB := room.connectedB || s == room.b,
                      connectedSince := room'.connectedSince)
    && room'.connectedSince ==
        if room.connectedA && room.connectedB then room.connectedSince
        else if room'.connectedA && room'.connectedB then Some(now) else None
  }

  /** A report counts when its sender is in that room and the room is active. */
  predicate Counts(st: State, s: SocketId, r: RoomId) {
    && s in st.sessions && st.sessions[s].roomId == Some(r)
    && r in st.rooms && st.rooms[r].active && (st.rooms[r].a == s || st.rooms[r].b == s)
  }

  /**
   * The room is connected from the clock of the second report that counts; a
   * report changes nothing else, and none that does not count changes anything.
   */
  lemma ConnectedEffect(st: State, s: SocketId, r: RoomId, env: Env)
    requires Inv(st)
    ensures var st' := Step(st, Connected(s, r), env);
      if Counts(st, s, r) then
        && r in st'.rooms && AfterReport(st.rooms[r], st'.rooms[r], s, env.now)
        && st' == st.(rooms := st.rooms[r := st'.rooms[r]])
      else st' == st
  {
    if Counts(st, s, r) {
      assert RoomOk(st.sessions, r, st.rooms[r]);
      CountedReport(st, s, r, env);
    } else if MemberOf(st, s, r) {
      assert !st.rooms[r].active;
    }
  }

  lemma CountedReport(st: State, s: SocketId, r: RoomId, env: Env)
    requires Counts(st, s, r) && RoomShape(st.rooms[r])
    ensures var st' := ConnectedStep(st, s, r, env);
      && r in st'.rooms && AfterReport(st.rooms[r], st'.rooms[r], s, env.now)
      && st' == st.(rooms := st.rooms[r := st'.rooms[r]])
  {
    var st' := ConnectedStep(st, s, r, env);
    assert st'.rooms == st.rooms[r := st'.rooms[r]];
  }

  lemma ConnectedIsOnward(st: State, s: SocketId, r: RoomId, env: Env)
    requires Inv(st)
    ensures Onward(st, Step(st, Connected(s, r), env), Some(env.now))
  {
    ConnectedEffect(st, s, r, env);
    if Counts(st, s, r) {
      assert RoomOk(st.sessions, r, st.rooms[r]);
      OneRoomOnward(st, Step(st, Connected(s, r), env), r, Step(st, Connected(s, r), env).rooms[r], Some(env.now));
    } else {
      EndsAreOnward(st, st, Some(env.now));
    }
  }

  lemma OneRoomOnward(st: State, st': State, r: RoomId, room: Room, until: Option<nat>)
    requires r in st.rooms && Forward(st.rooms[r], room, until) && st'.rooms == st.rooms[r := room] && st'.nextRoom == st.nextRoom
    ensures Onward(st, st', until)
  {
    forall q | q in st'.rooms ensures Later(st, st', q, until) {
    }
  }

  /** When an event may report a connection. */
  function ReportTime(ev: Event, env: Env): Option<nat> {
    if ev.Connected? then Some(env.now) else None
  }

  /**
   * No event takes a room's story back or brings an ended room back, and none
   * but a report touches its connection.
   */
  lemma RoomsOnlyMoveForward(st: State, ev: Event, env: Env)
    requires Inv(st)
    ensures Onward(st, Step(st, ev, env), ReportTime(ev, env))
  {
    match ev
    case Accept(s, r) => AcceptIsOnward(st, s, r, env);
    case Connected(s, r) => ConnectedIsOnward(st, s, r, env);
    case _ =>
      if PassStart(st, ev, env).Some? {
        PassEventIsOnward(st, ev, env);
      } else {
        PasslessRooms(st, ev, env);
        EndsAreOnward(st, Step(st, ev, env), None);
      }
  }

  /**
   * Over any stretch of a run: a room present at both ends has kept its
   * members and its connection time, which is what rewards are counted from,
   * and one that had ended by the first is gone at the second. A connection
   * made in between was made by the latest time a report of the stretch read.
   */
  lemma {:induction false} RoomsOverARun(cfg: Config, run: seq<(Event, Env)>, k: nat, until: nat)
    requires k <= |run| && forall i :: k <= i < |run| && run[i].0.Connected? ==> run[i].1.now <= until
    ensures Onward(Run(Init(cfg), run[..k]), Run(Init(cfg), run), Some(until))
  {
    if k == |run| {
      assert run[..k] == run;
      EndsAreOnward(Run(Init(cfg), run[..k]), Run(Init(cfg), run), Some(until));
    } else {
      var n := |run| - 1;
      RoomsOverARun(cfg, run[..n], k, until);
      assert run[..n][..k] == run[..k];
      EveryRunIsConsistent(cfg, run[..n]);
      EveryRunIsConsistent(cfg, run[..k]);
      RoomsOnlyMoveForward(Run(Init(cfg), run[..n]), run[n].0, run[n].1);
      OnwardTwice(Run(Init(cfg), run[..k]), Run(Init(cfg), run[..n]), Run(Init(cfg), run),
                  Some(until), ReportTime(run[n].0, run[n].1), Some(until));
    }
  }

  /* ---------------------------------------------------------------- */
  /* From when a room is connected                                     */
  /* ---------------------------------------------------------------- */

  /** Event `k` of the run is a report by `s` about room `r`, and it counts. */
  predicate ReportsAt(cfg: Config, run: seq<(Event, Env)>, k: nat, s: SocketId, r: RoomId)
    requires k < |run|
  {
    run[k].0 == Connected(s, r) && Counts(Run(Init(cfg), run[..k]), s, r)
  }

  /** The first of them. */
  function FirstReport(cfg: Config, run: seq<(Event, Env)>, s: SocketId, r: RoomId): (k: Option<nat>)
    ensures k.Some? ==> k.value < |run|
  {
    if run == [] then None
    else
      var before := FirstReport(cfg, run[..|run| - 1], s, r);
      if before.Some? then before else if ReportsAt(cfg, run, |run| - 1, s, r) then Some(|run| - 1) else None
  }

  lemma {:induction false} FirstReportIsFirst(cfg: Config, run: seq<(Event, Env)>, s: SocketId, r: RoomId)
    ensures var first := FirstReport(cfg, run, s, r);
      && (forall k :: 0 <= k < |run| && ReportsAt(cfg, run, k, s, r) ==> first.Some? && first.value <= k)
      && (first.Some? ==> ReportsAt(cfg, run, first.value, s, r))
  {
    if run != [] {
      var n := |run| - 1;
      FirstReportIsFirst(cfg, run[..n], s, r);
      forall k | 0 <= k < n ensures ReportsAt(cfg, run[..n], k, s, r) <==> ReportsAt(cfg, run, k, s, r) {
        assert run[..n][..k] == run[..k];
      }
    }
  }

  /** The clock of the later of the two members' first reports. */
  function ConnectionTime(cfg: Config, run: seq<(Event, Env)>, r: RoomId, a: SocketId, b: SocketId): Option<nat> {
    var i, j := FirstReport(cfg, run, a, r), FirstReport(cfg, run, b, r);
    if i == None || j == None then None
    else Some(run[if i.value < j.value then j.value else i.value].1.now)
  }

  predicate ConnectionIs(cfg: Config, run: seq<(Event, Env)>, r: RoomId, room: Room) {
    && room.connectedA == FirstReport(cfg, run, room.a, r).Some?
    && room.connectedB == FirstReport(cfg, run, room.b, r).Some?
    && room.connectedSince == ConnectionTime(cfg, run, r, room.a, room.b)
  }

  lemma ConnectionUnmoved(cfg: Config, run: seq<(Event, Env)>, r: RoomId, room: Room, room': Room)
    requires run != [] && ConnectionIs(cfg, run[..|run| - 1], r, room) && SameConnection(room, room') && room'.a == room.a && room'.b == room.b
    requires !ReportsAt(cfg, run, |run| - 1, room.a, r) && !ReportsAt(cfg, run, |run| - 1, room.b, r)
    ensures ConnectionIs(cfg, run, r, room')
  {
  }

  lemma ConnectionReported(cfg: Config, run: seq<(Event, Env)>, r: RoomId, room: Room, room': Room, s: SocketId)
    requires run != [] && ConnectionIs(cfg, run[..|run| - 1], r, room) && room.a != room.b && (s == room.a || s == room.b)
    requires AfterReport(room, room', s, run[|run| - 1].1.now)
    requires ReportsAt(cfg, run, |run| - 1, s, r)
    ensures ConnectionIs(cfg, run, r, room')
  {
    assert s == room.a ==> !ReportsAt(cfg, run, |run| - 1, room.b, r);
    assert s == room.b ==> !ReportsAt(cfg, run, |run| - 1, room.a, r);
  }

  /** Nobody reported about a room before it was there. */
  lemma NewRoomIsUnreported(cfg: Config, run: seq<(Event, Env)>, s: SocketId, r: RoomId)
    requires r >= Run(Init(cfg), run).nextRoom
    ensures FirstReport(cfg, run, s, r) == None
  {
    FirstReportIsFirst(cfg, run, s, r);
    forall k | 0 <= k < |run| ensures !ReportsAt(cfg, run, k, s, r) {
      EveryRunIsConsistent(cfg, run[..k]);
      NumbersGrow(cfg, run, k);
    }
  }

  lemma {:induction false} NumbersGrow(cfg: Config, run: seq<(Event, Env)>, k: nat)
    requires k <= |run|
    ensures Run(Init(cfg), run[..k]).nextRoom <= Run(Init(cfg), run).nextRoom
  {
    if k == |run| {
      assert run[..k] == run;
    } else {
      var n := |run| - 1;
      NumbersGrow(cfg, run[..n], k);
      assert run[..n][..k] == run[..k];
      EveryRunIsConsistent(cfg, run[..n]);
      RoomsOnlyMoveForward(Run(Init(cfg), run[..n]), run[n].0, run[n].1);
    }
  }

  /**
   * In every run a stored room counts as connected on a side exactly when that
   * member has reported it, and its connection time is the clock of the event
   * by which the second of the two first reported.
   */
  lemma {:induction false} ConnectedFromSecondReport(cfg: Config, run: seq<(Event, Env)>, r: RoomId)
    requires r in Run(Init(cfg), run).rooms
    ensures ConnectionIs(cfg, run, r, Run(Init(cfg), run).rooms[r])
  {
    var n := |run| - 1;
    var before, after := Run(Init(cfg), run[..n]), Run(Init(cfg), run);
    var ev, env := run[n].0, run[n].1;
    EveryRunIsConsistent(cfg, run[..n]);
    RoomsOnlyMoveForward(before, ev, env);
    assert Later(before, after, r, ReportTime(ev, env));
    if r in before.rooms {
      ConnectedFromSecondReport(cfg, run[..n], r);
      assert RoomOk(before.sessions, r, before.rooms[r]);
      if ev.Connected? {
        ReportMovesConnection(cfg, run, r);
      } else {
        ConnectionUnmoved(cfg, run, r, before.rooms[r], after.rooms[r]);
      }
    } else {
      NewRoomIsUnconnected(cfg, run, r);
    }
  }

  lemma NewRoomIsUnconnected(cfg: Config, run: seq<(Event, Env)>, r: RoomId)
    requires run != [] && r in Run(Init(cfg), run).rooms && r !in Run(Init(cfg), run[..|run| - 1]).rooms
    ensures ConnectionIs(cfg, run, r, Run(Init(cfg), run).rooms[r])
  {
    var n := |run| - 1;
    var before, room := Run(Init(cfg), run[..n]), Run(Init(cfg), run).rooms[r];
    var ev, env := run[n].0, run[n].1;
    EveryRunIsConsistent(cfg, run[..n]);
    RoomsOnlyMoveForward(before, ev, env);
    assert Later(before, Step(before, ev, env), r, ReportTime(ev, env));
    NewRoomIsUnreported(cfg, run[..n], room.a, r);
    NewRoomIsUnreported(cfg, run[..n], room.b, r);
    if ev.Connected? {
      ConnectedEffect(before, ev.s, ev.r, env);
    }
  }

  lemma ReportMovesConnection(cfg: Config, run: seq<(Event, Env)>, r: RoomId)
    requires run != [] && run[|run| - 1].0.Connected?
    requires var before := Run(Init(cfg), run[..|run| - 1]);
      Inv(before) && r in before.rooms && ConnectionIs(cfg, run[..|run| - 1], r, before.rooms[r])
    ensures r in Run(Init(cfg), run).rooms && ConnectionIs(cfg, run, r, Run(Init(cfg), run).rooms[r])
  {
    var n := |run| - 1;
    var before, ev := Run(Init(cfg), run[..n]), run[n].0;
    assert RoomOk(before.sessions, r, before.rooms[r]);
    ConnectedEffect(before, ev.s, ev.r, run[n].1);
    if Counts(before, ev.s, ev.r) && ev.r == r {
      ConnectionReported(cfg, run, r, before.rooms[r], Run(Init(cfg), run).rooms[r], ev.s);
    } else {
      ReportElsewhere(cfg, run, r);
    }
  }

  lemma ReportElsewhere(cfg: Config, run: seq<(Event, Env)>, r: RoomId)
    requires run != [] && run[|run| - 1].0.Connected?
    requires var before, ev := Run(Init(cfg), run[..|run| - 1]), run[|run| - 1].0;
      r in before.rooms && ConnectionIs(cfg, run[..|run| - 1], r, before.rooms[r]) && !(Counts(before, ev.s, ev.r) && ev.r == r)
    ensures ConnectionIs(cfg, run, r, Run(Init(cfg), run[..|run| - 1]).rooms[r])
  {
    var room := Run(Init(cfg), run[..|run| - 1]).rooms[r];
    ConnectionUnmoved(cfg, run, r, room, room);
  }
}
