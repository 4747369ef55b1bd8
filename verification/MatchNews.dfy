/**
 * Who is told what besides the lifecycle of rooms, and what a sweep's timers do.
 */
module MatchNews {
  import opened Wrappers
  import opened Compatibility
  import opened Protocol
  import opened Greedy
  import opened MatchModel
  import opened MatchInvariant
  import opened MatchSteps
  import opened MatchEffects

  /* ---------------------------------------------------------------- */
  /* The end of a room                                                 */
  /* ---------------------------------------------------------------- */

  /** What a member hears after the end of its room: why it is not queued again, or that it is, and whether its filter lapsed. */
  function AfterEnd(session: Session, s: SocketId, reason: EndReason, env: Env): seq<Item> {
    var device := session.who.deviceId;
    if reason == AcceptTimeout then []
    else if device in env.capped then [Sent(s, ServerError(RateLimited), env.now)]
    else if device in env.banned then []
    else if session.who.preferences.genderFilter != AllGenders && device !in env.premium then
      [Sent(s, ServerError(PremiumRequired), env.now), Sent(s, WalletUpdate, env.now), Sent(s, QueueWaiting(0), env.now)]
    else [Sent(s, QueueWaiting(0), env.now)]
  }

  /** A member hears first that its room ended and why, and then only what follows for itself. */
  lemma MemberHears(st: State, r: RoomId, s: SocketId, reason: EndReason, env: Env)
    ensures FreeMember(st, r, s, Some(reason), env).out ==
      st.out + [Sent(s, MatchEnded(r, reason), env.now)]
      + if s in st.sessions && st.sessions[s].roomId == Some(r) then AfterEnd(st.sessions[s], s, reason, env) else []
  {
    var told := Emit(st, s, MatchEnded(r, reason), env.now);
    assert told.out + [] == told.out;
    if s in st.sessions && st.sessions[s].roomId == Some(r) {
      MemberFreed(told, s, reason, env);
    }
  }

  lemma MemberFreed(told: State, s: SocketId, reason: EndReason, env: Env)
    requires s in told.sessions
    ensures var device := told.sessions[s].who.deviceId;
      var capped := reason != AcceptTimeout && device in env.capped;
      && LeaveIdle(told, s, capped, env.now).out == told.out + (if capped then [Sent(s, ServerError(RateLimited), env.now)] else [])
      && (reason != AcceptTimeout && !capped && device !in env.banned ==>
            Enqueue(told, s, None, env).out == told.out + AfterEnd(told.sessions[s], s, reason, env))
  {
    QueuedNews(s, NeedsPremium(told.sessions[s].who, env), env.now);
  }

  lemma QueuedNews(s: SocketId, lapsed: bool, now: nat)
    ensures EnqueueNews(s, lapsed, now) ==
      if lapsed then [Sent(s, ServerError(PremiumRequired), now), Sent(s, WalletUpdate, now), Sent(s, QueueWaiting(0), now)]
      else [Sent(s, QueueWaiting(0), now)]
  {
  }

  /** The sender is in that room. */
  predicate Sits(st: State, s: SocketId, r: RoomId) {
    s in st.sessions && st.sessions[s].roomId == Some(r) && r in st.rooms && (st.rooms[r].a == s || st.rooms[r].b == s)
  }

  function PartnerOf(room: Room, s: SocketId): SocketId {
    if s == room.a then room.b else room.a
  }

  /** When one member of a room leaves, the other hears that the room ended and why. */
  lemma LeaverTellsPartner(st: State, s: SocketId, r: RoomId, reason: EndReason, env: Env)
    requires Inv(st) && Sits(st, s, r)
    ensures Sent(PartnerOf(st.rooms[r], s), MatchEnded(r, reason), env.now) in RemoveSession(st, s, reason, env).out
  {
    var room, deleted := st.rooms[r], st.(rooms := st.rooms - {r});
    assert RoomOk(st.sessions, r, room);
    MemberHears(deleted, r, PartnerOf(room, s), reason, env);
    var out := deleted.out + [Sent(PartnerOf(room, s), MatchEnded(r, reason), env.now)];
    assert out[|st.out|] == Sent(PartnerOf(room, s), MatchEnded(r, reason), env.now);
  }

  lemma LeaverTellsBeforePass(st: State, s: SocketId, r: RoomId, env: Env)
    requires Inv(st) && Sits(st, s, r)
    ensures Sent(PartnerOf(st.rooms[r], s), MatchEnded(r, PartnerLeft), env.now) in MatchPass(RemoveSession(st, s, PartnerLeft, env), DirtyPass, env).out
  {
    var left := RemoveSession(st, s, PartnerLeft, env);
    LeaverTellsPartner(st, s, r, PartnerLeft, env);
    RemoveIfPresentKeeps(st, s, PartnerLeft, env);
    MatchPassGrows(left, DirtyPass, env);
    StaysTold(left.out, MatchPass(left, DirtyPass, env).out);
  }

  /** A socket that disconnects: its partner left. */
  lemma DisconnectTellsPartner(st: State, s: SocketId, r: RoomId, env: Env)
    requires Inv(st) && Sits(st, s, r)
    ensures Sent(PartnerOf(st.rooms[r], s), MatchEnded(r, PartnerLeft), env.now) in Step(st, Disconnect(s), env).out
  {
    ForgottenSits(st, s, r);
    DisconnectIsPass(st, s, env);
    LeaverTellsBeforePass(Forget(st, s), s, r, env);
  }

  lemma ForgottenSits(st: State, s: SocketId, r: RoomId)
    requires Inv(st) && Sits(st, s, r)
    ensures Inv(Forget(st, s)) && Sits(Forget(st, s), s, r) && Forget(st, s).rooms == st.rooms
  {
    assert SameStory(st, Forget(st, s));
  }

  lemma DisconnectIsPass(st: State, s: SocketId, env: Env)
    requires s in st.sessions
    ensures Step(st, Disconnect(s), env) == MatchPass(RemoveSession(Forget(st, s), s, PartnerLeft, env), DirtyPass, env)
  {
  }

  lemma StaysTold(out: seq<Item>, out': seq<Item>)
    requires out <= out'
    ensures forall x :: x in out ==> x in out'
  {
  }

  /** A socket found gone by a sweep: its partner left. */
  lemma GhostTellsPartner(st: State, ghosts: seq<SocketId>, s: SocketId, r: RoomId, env: Env)
    requires Inv(st) && Sits(RemoveGhosts(st, ghosts, env), s, r)
    ensures Sent(PartnerOf(RemoveGhosts(st, ghosts, env).rooms[r], s), MatchEnded(r, PartnerLeft), env.now)
            in RemoveGhosts(st, ghosts + [s], env).out
  {
    var before := RemoveGhosts(st, ghosts, env);
    assert (ghosts + [s])[..|ghosts|] == ghosts;
    RemoveGhostsKeeps(st, ghosts, env);
    var forgotten := Forget(before, s);
    assert SameStory(before, forgotten) && Inv(forgotten);
    LeaverTellsPartner(forgotten, s, r, PartnerLeft, env);
  }

  /** A socket whose device connected elsewhere, or whose instance shuts down: its partner is unavailable. */
  lemma RetiredTellsPartner(st: State, previous: SocketId, r: RoomId, env: Env)
    requires Inv(st) && Sits(st, previous, r)
    ensures Sent(PartnerOf(st.rooms[r], previous), MatchEnded(r, PartnerUnavailable), env.now) in Replace(st, previous, env).out
    ensures Sent(PartnerOf(st.rooms[r], previous), MatchEnded(r, PartnerUnavailable), env.now) in RemoveAll(st, [previous], env).out
  {
    var told := Emit(st, previous, SessionReplaced, env.now);
    assert SameStory(st, told) && Inv(told);
    LeaverTellsPartner(told, previous, r, PartnerUnavailable, env);
    LeaverTellsPartner(st, previous, r, PartnerUnavailable, env);
    assert RemoveAll(st, [previous][..0], env) == st;
  }

  /** A restricted device: it hears so, and its partner that it was skipped. */
  lemma RestrictedTellsBoth(st: State, s: SocketId, r: RoomId, env: Env)
    requires Inv(st) && Sits(st, s, r)
    ensures var room, out := st.rooms[r], EndRestrictedRoom(st, s, env).out;
      Sent(s, MatchEnded(r, Restricted), env.now) in out && Sent(PartnerOf(room, s), MatchEnded(r, PartnerSkipped), env.now) in out
  {
    var room, deleted := st.rooms[r], st.(rooms := st.rooms - {r});
    assert RoomOk(st.sessions, r, room);
    var (reasonA, reasonB) := ReasonsFor(room, s, Some(Restricted), Some(PartnerSkipped));
    BothHear(st, r, reasonA.value, reasonB.value, env);
  }

  lemma BothHear(st: State, r: RoomId, reasonA: EndReason, reasonB: EndReason, env: Env)
    requires r in st.rooms
    ensures var out := EndRoom(st, r, Some(reasonA), Some(reasonB), env).out;
      Sent(st.rooms[r].a, MatchEnded(r, reasonA), env.now) in out && Sent(st.rooms[r].b, MatchEnded(r, reasonB), env.now) in out
  {
    var room, deleted := st.rooms[r], st.(rooms := st.rooms - {r});
    MemberHears(deleted, r, room.a, reasonA, env);
    MemberHears(FreeMember(deleted, r, room.a, Some(reasonA), env), r, room.b, reasonB, env);
  }

  /* ---------------------------------------------------------------- */
  /* The start of a call                                               */
  /* ---------------------------------------------------------------- */

  /** The task's call is still the one it was left for. */
  predicate StillOn(st: State, t: CallTask) {
    t.room in st.rooms && st.rooms[t.room].active && st.rooms[t.room].activeSince == Some(t.activeSince)
  }

  /** A call task sends call:start to its two sockets, and is gone, exactly if its call is still on and it could be prepared. */
  lemma CallStartsIff(st: State, task: nat, ready: bool, env: Env)
    requires task < |st.calls|
    ensures var t, st' := st.calls[task], Step(st, StartCall(task, ready), env);
      && st'.calls == st.calls[..task] + st.calls[task + 1..]
      && st'.(out := st.out, calls := st.calls) == st
      && st'.out == st.out + if ready && !st.stopped && StillOn(st, t)
                             then [Sent(t.a, CallStart(t.room, true), env.now), Sent(t.b, CallStart(t.room, false), env.now)] else []
  {
    var t := st.calls[task];
    assert st.out + [] == st.out;
    assert st.out + [Sent(t.a, CallStart(t.room, true), env.now)] + [Sent(t.b, CallStart(t.room, false), env.now)]
      == st.out + [Sent(t.a, CallStart(t.room, true), env.now), Sent(t.b, CallStart(t.room, false), env.now)];
  }

  /* ---------------------------------------------------------------- */
  /* Sweeps                                                            */
  /* ---------------------------------------------------------------- */

  /** The ladder's news for one waiter: its new step, if it has risen above the first. */
  lemma RisenStepIsTold(st: State, s: SocketId, now: nat)
    requires s in st.relaxing && s in st.sessions && st.sessions[s].state == Waiting && st.sessions[s].waitingSince == Some(st.relaxing[s].since)
    ensures var entry, st' := st.relaxing[s], RelaxOne(st, s, now);
      var step := RelaxStep(now - entry.since, st.cfg.ladder, entry.low);
      && (step > entry.step ==> s in st'.dirty && (if step == MAX_STEP then s !in st'.relaxing else s in st'.relaxing && st'.relaxing[s] == entry.(step := step)))
      && (step <= entry.step ==> st' == st)
      && st'.out == st.out + if step > entry.step && step > 0 then [Sent(s, QueueWaiting(step), now)] else []
  {
    assert st.out + [] == st.out;
  }

  predicate SameTimers(st: State, st': State) {
    st'.lastReapAt == st.lastReapAt && st'.lastRecheckAt == st.lastRecheckAt
  }

  lemma MemberTimers(st: State, r: RoomId, s: SocketId, reason: Option<EndReason>, env: Env)
    ensures SameTimers(st, FreeMember(st, r, s, reason, env))
  {
  }

  lemma EndTimers(st: State, r: RoomId, reasonA: Option<EndReason>, reasonB: Option<EndReason>, env: Env)
    requires r in st.rooms
    ensures SameTimers(st, EndRoom(st, r, reasonA, reasonB, env))
  {
    var room, deleted := st.rooms[r], st.(rooms := st.rooms - {r});
    MemberTimers(deleted, r, room.a, reasonA, env);
    MemberTimers(FreeMember(deleted, r, room.a, reasonA, env), r, room.b, reasonB, env);
  }

  lemma RemoveTimers(st: State, s: SocketId, reason: EndReason, env: Env)
    ensures SameTimers(st, RemoveIfPresent(st, s, reason, env))
  {
    if s in st.sessions && st.sessions[s].roomId.Some? && MemberOf(st, s, st.sessions[s].roomId.value) {
      var r := st.sessions[s].roomId.value;
      var (reasonA, reasonB) := ReasonsFor(st.rooms[r], s, None, Some(reason));
      EndTimers(st, r, reasonA, reasonB, env);
    }
  }

  lemma {:induction false} GhostTimers(st: State, ghosts: seq<SocketId>, env: Env)
    ensures SameTimers(st, RemoveGhosts(st, ghosts, env))
  {
    if ghosts != [] {
      var n := |ghosts| - 1;
      GhostTimers(st, ghosts[..n], env);
      RemoveTimers(Forget(RemoveGhosts(st, ghosts[..n], env), ghosts[n]), ghosts[n], PartnerLeft, env);
    }
  }

  lemma ExpiryTimers(st: State, r: RoomId, env: Env)
    ensures SameTimers(st, ExpireRoom(st, r, env))
  {
    if r in st.rooms && !st.rooms[r].active {
      var room := st.rooms[r];
      var blocked := BlockPair(st, room.deviceA, room.deviceB, st.cfg.declineBlockMs, false, env.now);
      EndTimers(blocked, r, ExpiredReason(room.acceptedA), ExpiredReason(room.acceptedB), env);
    }
  }

  lemma {:induction false} ExpiriesTimers(st: State, expired: seq<RoomId>, env: Env)
    ensures SameTimers(st, ExpireRooms(st, expired, env))
  {
    if expired != [] {
      var n := |expired| - 1;
      ExpiriesTimers(st, expired[..n], env);
      ExpiryTimers(ExpireRooms(st, expired[..n], env), expired[n], env);
    }
  }

  lemma {:induction false} LadderTimers(st: State, order: seq<SocketId>, now: nat)
    ensures SameTimers(st, RelaxTick(st, order, now))
  {
    if order != [] {
      LadderTimers(st, order[..|order| - 1], now);
    }
  }

  lemma CreateTimers(st: State, a: SocketId, b: SocketId, env: Env)
    requires a in st.sessions && b in st.sessions
    ensures SameTimers(st, CreateRoom(st, a, b, env))
  {
  }

  lemma {:induction false} RoomsTimers(st: State, waiting: seq<Waiter>, pairs: seq<Pairing>, env: Env)
    ensures SameTimers(st, CreateRooms(st, waiting, pairs, env))
  {
    if pairs != [] {
      var n := |pairs| - 1;
      RoomsTimers(st, waiting, pairs[..n], env);
      var before, p := CreateRooms(st, waiting, pairs[..n], env), pairs[n];
      if p.i < |waiting| && p.j < |waiting| && waiting[p.i].socket in before.sessions && waiting[p.j].socket in before.sessions {
        CreateTimers(before, waiting[p.i].socket, waiting[p.j].socket, env);
      }
    }
  }

  lemma ScanTimers(st: State, waiting: seq<Waiter>, focus: Option<set<SocketId>>, env: Env)
    ensures SameTimers(st, RunScan(st, waiting, focus, env))
  {
    var scan := Scan(MakeBoard(st, waiting, focus, env), 0, {}, st.wakeAt);
    RoomsTimers(st.(wakeAt := scan.wake), waiting, scan.pairs, env);
  }

  lemma PassTimers(st: State, mode: PassMode, env: Env)
    requires Inv(st)
    ensures SameTimers(st, MatchPass(st, mode, env))
  {
    if !NoScan(st, mode, env) {
      PassIsScan(st, mode, env);
      ScanTimers(ScanFrom(st, mode), Loads(st), ScanFocus(st, mode), env);
    }
  }

  lemma RousedTimers(st: State, ghosts: seq<SocketId>, expired: seq<RoomId>, env: Env)
    ensures var st' := Roused(st, ghosts, expired, env);
      && st'.lastReapAt == (if env.now - st.lastReapAt >= st.cfg.heartbeatIntervalMs then env.now else st.lastReapAt)
      && st'.lastRecheckAt == (if env.now - st.lastRecheckAt >= st.cfg.recheckIntervalMs then env.now else st.lastRecheckAt)
  {
    GhostTimers(st.(lastReapAt := env.now), ghosts, env);
    ExpiriesTimers(Reaped(st, ghosts, env), expired, env);
  }

  /** A sweep notes when it looked for dead sockets and when it began a recheck, and does neither more often than it should. */
  lemma SweepTimers(st: State, input: SweepInput, env: Env)
    requires Inv(st)
    ensures var st' := Step(st, Sweep(input), env);
      && st'.lastReapAt == (if env.now - st.lastReapAt >= st.cfg.heartbeatIntervalMs then env.now else st.lastReapAt)
      && st'.lastRecheckAt == (if env.now - st.lastRecheckAt >= st.cfg.recheckIntervalMs then env.now else st.lastRecheckAt)
  {
    RousedTimers(st, input.ghosts, input.expired, env);
    LadderTimers(Roused(st, input.ghosts, input.expired, env), input.order, env.now);
    SweepPreparedKeeps(st, input, env);
    PassTimers(SweepPrepared(st, input, env), if RecheckDue(st, env) then RecheckPass else DirtyPass, env.(now := input.passAt));
  }

  /* ---------------------------------------------------------------- */
  /* Restrictions                                                      */
  /* ---------------------------------------------------------------- */

  /** Whoever restricts a device that has a session, its client is told, blocking or not. */
  lemma RestrictedIsTold(st: State, device: DeviceId, blocking: bool, env: Env)
    requires Inv(st) && device in st.devices
    ensures Sent(st.devices[device], SessionRestricted, env.now) in Step(st, Restrict(device, blocking), env).out
  {
    var s := st.devices[device];
    var told := Emit(if blocking then Sideline(st, s, env) else st, s, SessionRestricted, env.now);
    assert BoundIsStored(st, device);
    SidelinedTold(st, s, blocking, env);
    RestrictIsPass(st, device, blocking, env);
    MatchPassGrows(told, DirtyPass, env);
    ToldStaysTold(told.out, MatchPass(told, DirtyPass, env).out, Sent(s, SessionRestricted, env.now));
  }

  /** A warning changes nothing else up to the pass. */
  lemma WarningOnlyTells(st: State, device: DeviceId, env: Env)
    requires Inv(st) && device in st.devices
    ensures Step(st, Restrict(device, false), env) ==
      MatchPass(st.(out := st.out + [Sent(st.devices[device], SessionRestricted, env.now)]), DirtyPass, env)
  {
    assert BoundIsStored(st, device);
    RestrictIsPass(st, device, false, env);
  }

  predicate BoundIsStored(st: State, device: DeviceId) {
    device in st.devices && st.devices[device] in st.sessions
  }

  lemma RestrictIsPass(st: State, device: DeviceId, blocking: bool, env: Env)
    requires BoundIsStored(st, device)
    ensures var s := st.devices[device];
      Step(st, Restrict(device, blocking), env) ==
        MatchPass(Emit(if blocking then Sideline(st, s, env) else st, s, SessionRestricted, env.now), DirtyPass, env)
  {
  }

  lemma ToldStaysTold(out: seq<Item>, out': seq<Item>, item: Item)
    requires out <= out' && out != [] && out[|out| - 1] == item
    ensures item in out'
  {
    assert out'[|out| - 1] == item;
  }

  /** A device without a session is not looked for. */
  lemma UnknownIsNotRestricted(st: State, device: DeviceId, blocking: bool, env: Env)
    requires device !in st.devices
    ensures Step(st, Restrict(device, blocking), env) == st
  {
  }

  /* ---------------------------------------------------------------- */
  /* Shutting down                                                     */
  /* ---------------------------------------------------------------- */

  lemma {:induction false} AllAreGone(st: State, sockets: seq<SocketId>, env: Env)
    requires Inv(st)
    ensures RemoveAll(st, sockets, env).sessions.Keys == st.sessions.Keys - set s | s in sockets
  {
    if sockets != [] {
      var n := |sockets| - 1;
      AllAreGone(st, sockets[..n], env);
      RemoveAllKeeps(st, sockets[..n], env);
      RemoveIfPresentKeeps(RemoveAll(st, sockets[..n], env), sockets[n], PartnerUnavailable, env);
      assert sockets == sockets[..n] + [sockets[n]];
    }
  }

  /** An instance that shuts down, for the first time, drops exactly its own sessions and sockets. */
  lemma ShutdownDropsItsOwn(st: State, locals: seq<SocketId>, env: Env)
    requires Inv(st) && !st.stopped
    ensures var st' := Step(st, Shutdown(locals), env);
      st'.local == {} && st'.sessions.Keys == st.sessions.Keys - set s | s in locals
  {
    var stopped := st.(stopped := true);
    assert SameStory(st, stopped) && Inv(stopped);
    AllAreGone(stopped, locals, env);
    RemoveAllKeeps(stopped, locals, env);
    MatchPassKeeps(RemoveAll(stopped, locals, env), DirtyPass, env);
  }

  /** A second shutdown does nothing. */
  lemma ShutdownIsOnce(st: State, locals: seq<SocketId>, env: Env)
    requires st.stopped
    ensures Step(st, Shutdown(locals), env) == st
  {
  }
}
