/**
 * Does a browser that shows a search belong to a session that is queued? A
 * client hears that its room ended and shows a search; whether its session is
 * queued again depends on what the server knows about the device.
 */
module MatchSearch {
  import opened Wrappers
  import opened Compatibility
  import opened Protocol
  import opened Greedy
  import opened MatchModel
  import opened MatchInvariant
  import opened MatchSteps
  import opened MatchTrace
  import opened MatchClients
  import opened Signaling

  /** A search shown is a search run. */
  ghost predicate SearchOk(st: State) {
    forall s :: s in st.sessions && Client(st.out, s).status == Searching ==> st.sessions[s].state == Waiting
  }

  /** Left idle, and still showing a search. */
  predicate Astray(st: State, s: SocketId) {
    s in st.sessions && st.sessions[s].state == Idle && Client(st.out, s).status == Searching
  }

  ghost predicate AstrayAre(st: State, strays: set<SocketId>) {
    forall s :: Astray(st, s) <==> s in strays
  }

  /** While clients agree with their sessions on the room, a search shown in vain is one of an idle session. */
  lemma SearchOkIsNoneAstray(st: State)
    requires Agree(st, {}) && Inv(st)
    ensures SearchOk(st) <==> AstrayAre(st, {})
  {
    forall s | s in st.sessions && Client(st.out, s).status == Searching
      ensures st.sessions[s].state == Waiting || Astray(st, s)
    {
      assert Seated(Client(st.out, s), st.sessions[s]) && SessionOk(st.rooms, s, st.sessions[s]);
    }
    forall s | Astray(st, s) ensures !SearchOk(st) {
    }
  }

  /* ---------------------------------------------------------------- */
  /* Whom an event strands                                             */
  /* ---------------------------------------------------------------- */

  /** A member told that its room ended, other than for want of its own answer, is not queued if capped or banned. */
  function StrandedMember(st: State, s: SocketId, reason: Option<EndReason>, env: Env): set<SocketId> {
    if reason.Some? && reason.value != AcceptTimeout && s in st.sessions && st.sessions[s].who.deviceId in env.capped + env.banned
    then {s} else {}
  }

  function StrandedByEnd(st: State, r: RoomId, reasonA: Option<EndReason>, reasonB: Option<EndReason>, env: Env): set<SocketId>
    requires r in st.rooms
  {
    StrandedMember(st, st.rooms[r].a, reasonA, env) + StrandedMember(st, st.rooms[r].b, reasonB, env)
  }

  function StrandedByEndOf(st: State, r: RoomId, s: SocketId, mine: Option<EndReason>, theirs: Option<EndReason>, env: Env)
    : set<SocketId>
    requires r in st.rooms
  {
    var (reasonA, reasonB) := ReasonsFor(st.rooms[r], s, mine, theirs);
    StrandedByEnd(st, r, reasonA, reasonB, env)
  }

  /** The partner of a session that leaves. */
  function StrandedByLeave(st: State, s: SocketId, reason: EndReason, env: Env): set<SocketId> {
    if s in st.sessions && st.sessions[s].roomId.Some? && MemberOf(st, s, st.sessions[s].roomId.value)
    then StrandedByEndOf(st, st.sessions[s].roomId.value, s, None, Some(reason), env)
    else {}
  }

  function StrandedByGhosts(st: State, ghosts: seq<SocketId>, env: Env): set<SocketId> {
    if ghosts == [] then {}
    else
      var first, s := ghosts[..|ghosts| - 1], ghosts[|ghosts| - 1];
      StrandedByGhosts(st, first, env) + StrandedByLeave(Forget(RemoveGhosts(st, first, env), s), s, PartnerLeft, env) - {s}
  }

  function StrandedByExpiry(st: State, r: RoomId, env: Env): set<SocketId> {
    if r !in st.rooms || st.rooms[r].active then {}
    else StrandedByEnd(st, r, ExpiredReason(st.rooms[r].acceptedA), ExpiredReason(st.rooms[r].acceptedB), env)
  }

  function StrandedByExpiries(st: State, expired: seq<RoomId>, env: Env): set<SocketId> {
    if expired == [] then {}
    else
      var first := expired[..|expired| - 1];
      StrandedByExpiries(st, first, env) + StrandedByExpiry(ExpireRooms(st, first, env), expired[|expired| - 1], env)
  }

  function StrandedBySweep(st: State, input: SweepInput, env: Env): set<SocketId> {
    (if env.now - st.lastReapAt >= st.cfg.heartbeatIntervalMs
     then StrandedByGhosts(st.(lastReapAt := env.now), input.ghosts, env) else {})
    + StrandedByExpiries(Reaped(st, input.ghosts, env), input.expired, env)
  }

  function StrandedByRemovals(st: State, sockets: seq<SocketId>, env: Env): set<SocketId> {
    if sockets == [] then {}
    else
      var first, s := sockets[..|sockets| - 1], sockets[|sockets| - 1];
      StrandedByRemovals(st, first, env) + StrandedByLeave(RemoveAll(st, first, env), s, PartnerUnavailable, env) - {s}
  }

  /** A device taken out of a room or the queue hears nothing that ends its search. */
  function StrandedByRestriction(st: State, s: SocketId, env: Env): set<SocketId>
    requires s in st.sessions
  {
    var session := st.sessions[s];
    if session.roomId.Some? && MemberOf(st, s, session.roomId.value)
    then StrandedByEndOf(st, session.roomId.value, s, Some(Restricted), Some(PartnerSkipped), env) + {s}
    else if session.state != Idle && Client(st.out, s).status == Searching then {s}
    else {}
  }

  /** The sessions an event leaves idle while their clients show a search. */
  function Strands(st: State, ev: Event, env: Env): set<SocketId> {
    match ev
    case Hello(s, payload, answers) =>
      if HelloRefusal(st, s, payload, answers, env).Some? || s in st.sessions || payload.device !in st.devices then {}
      else StrandedByLeave(st, st.devices[payload.device], PartnerUnavailable, env)
    case Decline(s, r) =>
      if MemberOf(st, s, r) && !st.rooms[r].active then StrandedByEndOf(st, r, s, Some(Declined), Some(PartnerDeclined), env) else {}
    case Skip(s, only) =>
      if s in st.sessions && st.sessions[s].roomId.Some? && (only.Some? ==> only == st.sessions[s].roomId)
         && MemberOf(st, s, st.sessions[s].roomId.value)
      then StrandedByEndOf(st, st.sessions[s].roomId.value, s, Some(Skipped), Some(PartnerSkipped), env) else {}
    case Report(s, r, _) =>
      if MemberOf(st, s, r) then StrandedByEndOf(st, r, s, Some(Reported), Some(PartnerSkipped), env) else {}
    case CallFailed(s, r) =>
      if MemberOf(st, s, r) && st.rooms[r].active
      then StrandedByEndOf(st, r, s, Some(ConnectionFailed), Some(ConnectionFailed), env) else {}
    case Restrict(device, blocking) =>
      if blocking && device in st.devices && st.devices[device] in st.sessions
      then StrandedByRestriction(st, st.devices[device], env) else {}
    case Disconnect(s) => StrandedByLeave(Forget(st, s), s, PartnerLeft, env)
    case Sweep(input) => StrandedBySweep(st, input, env)
    case Shutdown(locals) => if st.stopped then {} else StrandedByRemovals(st.(stopped := true), locals, env)
    case _ => {}
  }

  /* ---------------------------------------------------------------- */
  /* Small steps                                                       */
  /* ---------------------------------------------------------------- */

  lemma StillStrays(st: State, st': State, news: seq<Item>, strays: set<SocketId>)
    requires AstrayAre(st, strays) && StillStep(st, st', news)
    ensures AstrayAre(st', strays)
  {
    forall s ensures Astray(st', s) <==> s in strays {
      assert Astray(st, s) <==> s in strays;
      StillNews(st.out, news, s);
    }
  }

  lemma SameStrays(st: State, st': State, strays: set<SocketId>)
    requires AstrayAre(st, strays) && st'.sessions == st.sessions && st'.out == st.out
    ensures AstrayAre(st', strays)
  {
    assert st'.out == st.out + [];
    StillStrays(st, st', [], strays);
  }

  /** Only `s` is told and restated. */
  lemma OneStrays(st: State, st': State, s: SocketId, news: seq<Item>, strays: set<SocketId>)
    requires AstrayAre(st, strays) && s in st.sessions && s in st'.sessions
    requires st'.sessions == st.sessions[s := st'.sessions[s]] && st'.out == st.out + news
    requires forall x :: x in news ==> x.to == s
    ensures AstrayAre(st', if Astray(st', s) then strays + {s} else strays - {s})
  {
    var strays' := if Astray(st', s) then strays + {s} else strays - {s};
    forall x ensures Astray(st', x) <==> x in strays' {
      assert Astray(st, x) <==> x in strays;
      if x != s {
        ClientOfOthers(st.out, news, x);
      }
    }
  }

  lemma EnqueueStrays(st: State, s: SocketId, since: Option<nat>, env: Env, strays: set<SocketId>)
    requires AstrayAre(st, strays) && s in st.sessions
    ensures AstrayAre(Enqueue(st, s, since, env), strays - {s})
  {
    EnqueueFrame(st, s, since, env);
    EnqueueTells(st, s, since, env);
    OneStrays(st, Enqueue(st, s, since, env), s, EnqueueNews(s, NeedsPremium(st.sessions[s].who, env), env.now), strays);
  }

  lemma LeaveIdleStrays(st: State, s: SocketId, capped: bool, now: nat, strays: set<SocketId>)
    requires AstrayAre(st, strays) && s in st.sessions
    ensures AstrayAre(LeaveIdle(st, s, capped, now), if Client(st.out, s).status == Searching then strays + {s} else strays - {s})
  {
    var news := if capped then [Sent(s, ServerError(RateLimited), now)] else [];
    StillNews(st.out, news, s);
    OneStrays(st, LeaveIdle(st, s, capped, now), s, news, strays);
  }

  lemma FreeMemberStrays(st: State, r: RoomId, s: SocketId, reason: Option<EndReason>, env: Env, strays: set<SocketId>)
    requires AstrayAre(st, strays) && s in st.sessions && st.sessions[s].roomId == Some(r) && st.sessions[s].state != Idle
    requires reason.Some? ==> Client(st.out, s).roomId == Some(r) && !Terminal(Client(st.out, s))
    ensures AstrayAre(FreeMember(st, r, s, reason, env), strays + StrandedMember(st, s, reason, env))
  {
    assert !Astray(st, s);
    if reason.Some? {
      var told := Emit(st, s, MatchEnded(r, reason.value), env.now);
      EndedClient(st.out, s, r, reason.value, env.now);
      OneStrays(st, told, s, [Sent(s, MatchEnded(r, reason.value), env.now)], strays);
      assert !Astray(told, s) && strays - {s} == strays;
      var device := st.sessions[s].who.deviceId;
      var capped := reason.value != AcceptTimeout && device in env.capped;
      if reason.value == AcceptTimeout || capped || device in env.banned {
        LeaveIdleStrays(told, s, capped, env.now, strays);
      } else {
        EnqueueStrays(told, s, None, env, strays);
      }
    } else {
      assert strays + {} == strays;
    }
  }

  /** Freeing the two members of a deleted room, one after the other. */
  lemma BothFreedStrays(st: State, r: RoomId, a: SocketId, b: SocketId, reasonA: Option<EndReason>, reasonB: Option<EndReason>,
                        env: Env, strays: set<SocketId>)
    requires AstrayAre(st, strays) && a != b && a in st.sessions && b in st.sessions
    requires st.sessions[a].roomId == Some(r) && st.sessions[a].state != Idle
    requires st.sessions[b].roomId == Some(r) && st.sessions[b].state != Idle
    requires reasonA.Some? ==> Client(st.out, a).roomId == Some(r) && !Terminal(Client(st.out, a))
    requires reasonB.Some? ==> Client(st.out, b).roomId == Some(r) && !Terminal(Client(st.out, b))
    ensures AstrayAre(FreeMember(FreeMember(st, r, a, reasonA, env), r, b, reasonB, env),
                      strays + StrandedMember(st, a, reasonA, env) + StrandedMember(st, b, reasonB, env))
  {
    FreeMemberStrays(st, r, a, reasonA, env, strays);
    FreeMemberFrame(st, r, a, reasonA, env);
    FreeMemberTells(st, r, a, reasonA, env, b);
    FreeMemberStrays(FreeMember(st, r, a, reasonA, env), r, b, reasonB, env, strays + StrandedMember(st, a, reasonA, env));
  }

  lemma Regroup(x: set<SocketId>, a: set<SocketId>, b: set<SocketId>)
    ensures x + a + b == x + (a + b)
  {
  }

  lemma MemberShowsRoom(st: State, r: RoomId, s: SocketId, but: set<SocketId>)
    requires Inv(st) && Agree(st, but) && s in st.sessions && st.sessions[s].roomId == Some(r)
    ensures st.sessions[s].state != Idle
    ensures s !in but ==> Client(st.out, s).roomId == Some(r) && !Terminal(Client(st.out, s))
  {
    assert SessionOk(st.rooms, s, st.sessions[s]);
    assert s !in but ==> Seated(Client(st.out, s), st.sessions[s]);
  }

  lemma EndRoomStrays(st: State, r: RoomId, reasonA: Option<EndReason>, reasonB: Option<EndReason>, env: Env,
                      but: set<SocketId>, strays: set<SocketId>)
    requires Inv(st) && Agree(st, but) && r in st.rooms && AstrayAre(st, strays)
    requires (reasonA.Some? ==> st.rooms[r].a !in but) && (reasonB.Some? ==> st.rooms[r].b !in but)
    ensures AstrayAre(EndRoom(st, r, reasonA, reasonB, env), strays + StrandedByEnd(st, r, reasonA, reasonB, env))
  {
    var room := st.rooms[r];
    assert RoomOk(st.sessions, r, room);
    MemberShowsRoom(st, r, room.a, but);
    MemberShowsRoom(st, r, room.b, but);
    var deleted := RoomDeleted(st, r);
    SameStrays(st, deleted, strays);
    BothFreedStrays(deleted, r, room.a, room.b, reasonA, reasonB, env, strays);
    Regroup(strays, StrandedMember(st, room.a, reasonA, env), StrandedMember(st, room.b, reasonB, env));
  }

  /* ---------------------------------------------------------------- */
  /* A session leaves                                                  */
  /* ---------------------------------------------------------------- */

  lemma LeaversRoomStrays(st: State, s: SocketId, reason: EndReason, env: Env, but: set<SocketId>, strays: set<SocketId>)
    requires Inv(st) && Agree(st, but) && s in st.sessions && but <= {s} && AstrayAre(st, strays)
    ensures AstrayAre(EndLeaversRoom(st, s, reason, env), strays + StrandedByLeave(st, s, reason, env))
  {
    var roomId := st.sessions[s].roomId;
    if roomId.Some? {
      RoomedIsMember(st, s);
      var (reasonA, reasonB) := ReasonsFor(st.rooms[roomId.value], s, None, Some(reason));
      EndRoomStrays(st, roomId.value, reasonA, reasonB, env, but, strays);
    } else {
      assert strays + {} == strays;
    }
  }

  lemma RemoveStrays(st: State, s: SocketId, reason: EndReason, env: Env, but: set<SocketId>, strays: set<SocketId>)
    requires Inv(st) && Agree(st, but) && but <= {s} && AstrayAre(st, strays)
    ensures AstrayAre(RemoveIfPresent(st, s, reason, env), strays + StrandedByLeave(st, s, reason, env) - {s})
  {
    var strays' := strays + StrandedByLeave(st, s, reason, env);
    if s in st.sessions {
      LeaversRoomStrays(st, s, reason, env, but, strays);
      var ended := EndLeaversRoom(st, s, reason, env);
      var st' := DropSession(ended, s, st.sessions[s].who.deviceId);
      forall x ensures Astray(st', x) <==> x in strays' - {s} {
        assert Astray(ended, x) <==> x in strays';
      }
    } else {
      assert !Astray(st, s);
      assert strays' - {s} == strays;
    }
  }

  lemma ToldReplaced(st: State, previous: SocketId, now: nat, strays: set<SocketId>)
    requires Inv(st) && Agree(st, {}) && previous in st.sessions && AstrayAre(st, strays)
    ensures var told := Emit(st, previous, SessionReplaced, now);
      Inv(told) && Agree(told, {previous}) && AstrayAre(told, if Astray(told, previous) then strays + {previous} else strays - {previous})
  {
    var told := Emit(st, previous, SessionReplaced, now);
    OneMoves(st, told, previous, [Sent(previous, SessionReplaced, now)], {});
    OneStrays(st, told, previous, [Sent(previous, SessionReplaced, now)], strays);
    assert {} + {previous} == {previous};
    assert SameStory(st, told);
  }

  lemma SameLeaveStrands(st: State, st': State, s: SocketId, reason: EndReason, env: Env)
    requires st'.sessions == st.sessions && st'.rooms == st.rooms
    ensures StrandedByLeave(st', s, reason, env) == StrandedByLeave(st, s, reason, env)
  {
  }

  lemma ReplaceStrays(st: State, previous: SocketId, env: Env, strays: set<SocketId>)
    requires Inv(st) && Agree(st, {}) && previous in st.sessions && AstrayAre(st, strays)
    ensures AstrayAre(Replace(st, previous, env), strays + StrandedByLeave(st, previous, PartnerUnavailable, env) - {previous})
  {
    var told := Emit(st, previous, SessionReplaced, env.now);
    ToldReplaced(st, previous, env.now, strays);
    var strays' := if Astray(told, previous) then strays + {previous} else strays - {previous};
    RemoveStrays(told, previous, PartnerUnavailable, env, {previous}, strays');
    var left := StrandedByLeave(st, previous, PartnerUnavailable, env);
    SameLeaveStrands(st, told, previous, PartnerUnavailable, env);
    LessOne(strays, left, previous);
    SameStrays(RemoveIfPresent(told, previous, PartnerUnavailable, env), Replace(st, previous, env), strays + left - {previous});
  }

  lemma LessOne(x: set<SocketId>, a: set<SocketId>, s: SocketId)
    ensures (x + {s}) + a - {s} == x + a - {s} && (x - {s}) + a - {s} == x + a - {s}
  {
  }

  /* ---------------------------------------------------------------- */
  /* The match pass strands nobody                                     */
  /* ---------------------------------------------------------------- */

  lemma ActivateStrays(st: State, r: RoomId, room: Room, now: nat, strays: set<SocketId>)
    requires AstrayAre(st, strays) && Inactive(st, room.a, r) && Inactive(st, room.b, r)
    ensures AstrayAre(ActivateRoom(st, r, room, now), strays)
  {
    var st' := ActivateRoom(st, r, room, now);
    forall s ensures Astray(st', s) <==> s in strays {
      assert Astray(st, s) <==> s in strays;
    }
  }

  /** Not idle if it has this room. */
  predicate Inactive(st: State, s: SocketId, r: RoomId) {
    s in st.sessions && st.sessions[s].roomId == Some(r) ==> st.sessions[s].state != Idle
  }

  lemma CreateRoomStrays(st: State, a: SocketId, b: SocketId, env: Env, strays: set<SocketId>)
    requires AstrayAre(st, strays) && Pairable(st, a, b)
    ensures AstrayAre(CreateRoom(st, a, b, env), strays)
  {
    var room := NewRoom(st, a, b, env);
    var news := FoundNews(st, a, b, room, env);
    var stored := StoreRoom(st, a, b, room, news);
    forall s ensures Astray(stored, s) <==> s in strays {
      assert Astray(st, s) <==> s in strays;
      if s != a && s != b {
        ClientOfOthers(st.out, news, s);
      }
    }
    if room.acceptedA && room.acceptedB {
      ActivateStrays(stored, st.nextRoom, room, env.now, strays);
    }
  }

  lemma {:induction false} CreateRoomsStrays(st: State, waiting: seq<Waiter>, pairs: seq<Pairing>, env: Env, strays: set<SocketId>)
    requires AstrayAre(st, strays) && Inv(st) && Loaded(st, waiting) && Creatable(waiting, pairs)
    ensures AstrayAre(CreateRooms(st, waiting, pairs, env), strays)
  {
    if pairs != [] {
      var n := |pairs| - 1;
      LastPairIsFree(waiting, pairs);
      CreateRoomsStrays(st, waiting, pairs[..n], env, strays);
      CreateRoomsKeeps(st, waiting, pairs[..n], env);
      var before := CreateRooms(st, waiting, pairs[..n], env);
      LastRoomKeeps(before, waiting, pairs, env);
      CreateRoomStrays(before, waiting[pairs[n].i].socket, waiting[pairs[n].j].socket, env, strays);
    }
  }

  lemma RunScanStrays(st: State, waiting: seq<Waiter>, focus: Option<set<SocketId>>, env: Env, strays: set<SocketId>)
    requires AstrayAre(st, strays) && Inv(st) && Loaded(st, waiting)
    ensures AstrayAre(RunScan(st, waiting, focus, env), strays)
  {
    var bd := MakeBoard(st, waiting, focus, env);
    var scan := Scan(bd, 0, {}, st.wakeAt);
    ScanIsCreatable(bd, st.wakeAt);
    var woken := st.(wakeAt := scan.wake);
    assert SameStory(st, woken);
    SameStrays(st, woken, strays);
    CreateRoomsStrays(woken, waiting, scan.pairs, env, strays);
  }

  lemma PassOverStrays(st: State, mode: PassMode, waiting: seq<Waiter>, env: Env, strays: set<SocketId>)
    requires AstrayAre(st, strays) && Inv(st) && waiting == LoadWaiting(st.queue, st.sessions) && |waiting| > 0
    ensures AstrayAre(PassOver(st, mode, waiting, env), strays)
  {
    QueueIsLoaded(st);
    var pruned := Pruned(st, mode, waiting);
    assert SameStory(st, pruned);
    SameStrays(st, pruned, strays);
    if mode == RecheckPass {
      var slice := RecheckSlice(|waiting|, st.cfg.recheckPairBudget, st.recheckCursor);
      var moved := pruned.(recheckCursor := slice.cursor);
      SameStrays(pruned, moved, strays);
      RunScanStrays(moved, waiting, Some(st.dirty + SliceSockets(waiting, slice)), env, strays);
    } else {
      RunScanStrays(pruned, waiting, if mode == WholePass then None else Some(st.dirty), env, strays);
    }
  }

  lemma MatchPassStrays(st: State, mode: PassMode, env: Env, strays: set<SocketId>)
    requires AstrayAre(st, strays) && Inv(st)
    ensures AstrayAre(MatchPass(st, mode, env), strays)
  {
    if !env.open {
    } else if (mode == DirtyPass && st.dirty == {}) || |st.queue| < 2 {
      SameStrays(st, st.(dirty := {}), strays);
    } else {
      QueueIsLoaded(st);
      var waiting := LoadWaiting(st.queue, st.sessions);
      PassOverStrays(st, mode, waiting, env, strays);
    }
  }

  /* ---------------------------------------------------------------- */
  /* Events                                                            */
  /* ---------------------------------------------------------------- */

  lemma EndRoomOfStrays(st: State, r: RoomId, s: SocketId, mine: EndReason, theirs: EndReason, env: Env)
    requires Agree(st, {}) && Inv(st) && r in st.rooms && AstrayAre(st, {})
    ensures AstrayAre(EndRoomOf(st, r, s, Some(mine), Some(theirs), env), StrandedByEndOf(st, r, s, Some(mine), Some(theirs), env))
  {
    var (reasonA, reasonB) := ReasonsFor(st.rooms[r], s, Some(mine), Some(theirs));
    EndRoomStrays(st, r, reasonA, reasonB, env, {}, {});
    NothingAndMore(StrandedByEnd(st, r, reasonA, reasonB, env));
  }

  lemma NoneOfThem(x: set<SocketId>, s: SocketId)
    requires s !in x
    ensures {} + x - {s} == x
  {
  }

  lemma NothingAndMore(x: set<SocketId>)
    ensures {} + x == x
  {
  }

  lemma EndAndMatchStrays(st: State, r: RoomId, s: SocketId, mine: EndReason, theirs: EndReason, env: Env)
    requires Agree(st, {}) && Inv(st) && r in st.rooms && AstrayAre(st, {})
    ensures AstrayAre(MatchPass(EndRoomOf(st, r, s, Some(mine), Some(theirs), env), DirtyPass, env),
                      StrandedByEndOf(st, r, s, Some(mine), Some(theirs), env))
  {
    EndRoomOfKeeps(st, r, s, mine, theirs, env);
    EndRoomOfStrays(st, r, s, mine, theirs, env);
    MatchPassStrays(EndRoomOf(st, r, s, Some(mine), Some(theirs), env), DirtyPass, env,
                    StrandedByEndOf(st, r, s, Some(mine), Some(theirs), env));
  }

  lemma SameEndStrands(st: State, st': State, r: RoomId, s: SocketId, mine: Option<EndReason>, theirs: Option<EndReason>, env: Env)
    requires st'.sessions == st.sessions && st'.rooms == st.rooms && r in st.rooms
    ensures StrandedByEndOf(st', r, s, mine, theirs, env) == StrandedByEndOf(st, r, s, mine, theirs, env)
  {
  }

  lemma BlockedStrays(st: State, r: RoomId, durationMs: nat, escalate: bool, now: nat, strays: set<SocketId>)
    requires Agree(st, {}) && Inv(st) && r in st.rooms && AstrayAre(st, strays)
    ensures var blocked := BlockPair(st, st.rooms[r].deviceA, st.rooms[r].deviceB, durationMs, escalate, now);
      Agree(blocked, {}) && Inv(blocked) && AstrayAre(blocked, strays) && blocked.sessions == st.sessions && blocked.rooms == st.rooms
  {
    BlockedKeeps(st, r, durationMs, escalate, now);
    var blocked := BlockPair(st, st.rooms[r].deviceA, st.rooms[r].deviceB, durationMs, escalate, now);
    SameStrays(st, blocked, strays);
    StillStepKeeps(st, blocked, [], {});
  }

  lemma BlockEndAndMatchStrays(st: State, r: RoomId, s: SocketId, durationMs: nat, escalate: bool,
                               mine: EndReason, theirs: EndReason, env: Env)
    requires Agree(st, {}) && Inv(st) && r in st.rooms && AstrayAre(st, {})
    ensures var blocked := BlockPair(st, st.rooms[r].deviceA, st.rooms[r].deviceB, durationMs, escalate, env.now);
      && r in blocked.rooms
      && AstrayAre(MatchPass(EndRoomOf(blocked, r, s, Some(mine), Some(theirs), env), DirtyPass, env),
                   StrandedByEndOf(st, r, s, Some(mine), Some(theirs), env))
  {
    BlockedStrays(st, r, durationMs, escalate, env.now, {});
    var blocked := BlockPair(st, st.rooms[r].deviceA, st.rooms[r].deviceB, durationMs, escalate, env.now);
    EndAndMatchStrays(blocked, r, s, mine, theirs, env);
    SameEndStrands(st, blocked, r, s, Some(mine), Some(theirs), env);
  }

  lemma DeclineStrays(st: State, s: SocketId, r: RoomId, env: Env)
    requires Agree(st, {}) && Inv(st) && AstrayAre(st, {})
    ensures AstrayAre(DeclineStep(st, s, r, env),
                      if MemberOf(st, s, r) && !st.rooms[r].active
                      then StrandedByEndOf(st, r, s, Some(Declined), Some(PartnerDeclined), env) else {})
  {
    if MemberOf(st, s, r) && !st.rooms[r].active {
      BlockEndAndMatchStrays(st, r, s, st.cfg.declineBlockMs, false, Declined, PartnerDeclined, env);
    }
  }

  lemma SkipStrays(st: State, s: SocketId, only: Option<RoomId>, env: Env)
    requires Agree(st, {}) && Inv(st) && AstrayAre(st, {})
    ensures AstrayAre(SkipStep(st, s, only, env),
                      if s in st.sessions && st.sessions[s].roomId.Some? && (only.Some? ==> only == st.sessions[s].roomId)
                         && MemberOf(st, s, st.sessions[s].roomId.value)
                      then StrandedByEndOf(st, st.sessions[s].roomId.value, s, Some(Skipped), Some(PartnerSkipped), env) else {})
  {
    if s in st.sessions && st.sessions[s].roomId.Some? && MemberOf(st, s, st.sessions[s].roomId.value) {
      BlockEndAndMatchStrays(st, st.sessions[s].roomId.value, s, 0, true, Skipped, PartnerSkipped, env);
    }
  }

  lemma ReportStrays(st: State, s: SocketId, r: RoomId, target: (DeviceId, DeviceId), env: Env)
    requires Agree(st, {}) && Inv(st) && AstrayAre(st, {})
    ensures AstrayAre(ReportStep(st, s, r, target, env),
                      if MemberOf(st, s, r) then StrandedByEndOf(st, r, s, Some(Reported), Some(PartnerSkipped), env) else {})
  {
    if MemberOf(st, s, r) {
      BlockEndAndMatchStrays(st, r, s, st.cfg.reportBlockMs, false, Reported, PartnerSkipped, env);
    } else {
      SameStrays(st, ReportStep(st, s, r, target, env), {});
    }
  }

  lemma CallFailedStrays(st: State, s: SocketId, r: RoomId, env: Env)
    requires Agree(st, {}) && Inv(st) && AstrayAre(st, {})
    ensures AstrayAre(CallFailedStep(st, s, r, env),
                      if MemberOf(st, s, r) && st.rooms[r].active
                      then StrandedByEndOf(st, r, s, Some(ConnectionFailed), Some(ConnectionFailed), env) else {})
  {
    if MemberOf(st, s, r) && st.rooms[r].active {
      BlockEndAndMatchStrays(st, r, s, st.cfg.declineBlockMs, false, ConnectionFailed, ConnectionFailed, env);
    }
  }

  lemma RestrictedMemberStrays(st: State, s: SocketId, env: Env)
    requires Agree(st, {}) && Inv(st) && s in st.sessions && AstrayAre(st, {}) && st.sessions[s].roomId.Some?
    ensures MemberOf(st, s, st.sessions[s].roomId.value)
    ensures var ended := EndRestrictedRoom(st, s, env);
      && AstrayAre(ended, StrandedByEndOf(st, st.sessions[s].roomId.value, s, Some(Restricted), Some(PartnerSkipped), env))
      && Client(ended.out, s).status == Searching
  {
    RoomedIsMember(st, s);
    EndRoomOfStrays(st, st.sessions[s].roomId.value, s, Restricted, PartnerSkipped, env);
    RestrictedShowsSearch(st, st.sessions[s].roomId.value, s, env);
  }

  /** The restricted member hears that its room ended, and is then taken out of the queue as well. */
  lemma SidelineStrays(st: State, s: SocketId, env: Env)
    requires Agree(st, {}) && Inv(st) && s in st.sessions && AstrayAre(st, {})
    ensures AstrayAre(Sideline(st, s, env), StrandedByRestriction(st, s, env))
  {
    EndRestrictedKeeps(st, s, env);
    var ended := EndRestrictedRoom(st, s, env);
    if st.sessions[s].roomId.Some? {
      RestrictedMemberStrays(st, s, env);
      MadeIdleStrays(ended, Sideline(st, s, env), s,
                     StrandedByEndOf(st, st.sessions[s].roomId.value, s, Some(Restricted), Some(PartnerSkipped), env));
    } else {
      assert !Astray(st, s);
      MadeIdleStrays(st, Sideline(st, s, env), s, {});
      NothingAndMore({s});
      assert {} - {s} == {};
    }
  }

  lemma MadeIdleStrays(st: State, st': State, s: SocketId, strays: set<SocketId>)
    requires AstrayAre(st, strays) && s in st.sessions
    requires st'.sessions == MadeIdle(st.sessions, s) && st'.out == st.out
    ensures AstrayAre(st', if Client(st.out, s).status == Searching then strays + {s} else strays - {s})
  {
    var strays' := if Client(st.out, s).status == Searching then strays + {s} else strays - {s};
    forall x ensures Astray(st', x) <==> x in strays' {
      assert Astray(st, x) <==> x in strays;
    }
  }

  /** Freed for another reason than its own silence, a member's client shows a search. */
  lemma FreedShowsSearch(st: State, r: RoomId, s: SocketId, reason: EndReason, env: Env)
    requires s in st.sessions && st.sessions[s].roomId == Some(r) && reason != AcceptTimeout
    requires Client(st.out, s).roomId == Some(r) && !Terminal(Client(st.out, s))
    ensures Client(FreeMember(st, r, s, Some(reason), env).out, s).status == Searching
  {
    var told := Emit(st, s, MatchEnded(r, reason), env.now);
    EndedClient(st.out, s, r, reason, env.now);
    var device := st.sessions[s].who.deviceId;
    var capped := device in env.capped;
    if capped || device in env.banned {
      assert FreeMember(st, r, s, Some(reason), env) == LeaveIdle(told, s, capped, env.now);
      IdledShowsSame(told, s, capped, env.now);
    } else {
      assert FreeMember(st, r, s, Some(reason), env) == Enqueue(told, s, None, env);
      QueuedShowsSearch(told, s, env);
    }
  }

  lemma IdledShowsSame(st: State, s: SocketId, capped: bool, now: nat)
    requires s in st.sessions
    ensures Client(LeaveIdle(st, s, capped, now).out, s).status == Client(st.out, s).status
  {
    StillNews(st.out, if capped then [Sent(s, ServerError(RateLimited), now)] else [], s);
  }

  lemma QueuedShowsSearch(st: State, s: SocketId, env: Env)
    requires s in st.sessions && !Terminal(Client(st.out, s))
    ensures Client(Enqueue(st, s, None, env).out, s).status == Searching
  {
    EnqueueTells(st, s, None, env);
    QueuedClient(st.out, s, NeedsPremium(st.sessions[s].who, env), env.now);
  }

  /** Of the two freed, one after the other, the first still shows what it did. */
  lemma FirstFreedShowsSearch(st: State, r: RoomId, s: SocketId, other: SocketId, env: Env)
    requires s in st.sessions && other in st.sessions && s != other && st.sessions[s].roomId == Some(r)
    requires Client(st.out, s).roomId == Some(r) && !Terminal(Client(st.out, s))
    ensures Client(FreeMember(FreeMember(st, r, s, Some(Restricted), env), r, other, Some(PartnerSkipped), env).out, s).status == Searching
  {
    FreedShowsSearch(st, r, s, Restricted, env);
    FreeMemberFrame(st, r, s, Some(Restricted), env);
    FreeMemberTells(FreeMember(st, r, s, Some(Restricted), env), r, other, Some(PartnerSkipped), env, s);
  }

  lemma SecondFreedShowsSearch(st: State, r: RoomId, s: SocketId, other: SocketId, env: Env)
    requires s in st.sessions && other in st.sessions && s != other && st.sessions[s].roomId == Some(r)
    requires Client(st.out, s).roomId == Some(r) && !Terminal(Client(st.out, s))
    ensures Client(FreeMember(FreeMember(st, r, other, Some(PartnerSkipped), env), r, s, Some(Restricted), env).out, s).status == Searching
  {
    FreeMemberTells(st, r, other, Some(PartnerSkipped), env, s);
    FreeMemberFrame(st, r, other, Some(PartnerSkipped), env);
    FreedShowsSearch(FreeMember(st, r, other, Some(PartnerSkipped), env), r, s, Restricted, env);
  }

  lemma RestrictedShowsSearch(st: State, r: RoomId, s: SocketId, env: Env)
    requires Agree(st, {}) && Inv(st) && MemberOf(st, s, r)
    ensures Client(EndRoomOf(st, r, s, Some(Restricted), Some(PartnerSkipped), env).out, s).status == Searching
  {
    var room := st.rooms[r];
    assert RoomOk(st.sessions, r, room);
    assert Seated(Client(st.out, s), st.sessions[s]) && SessionOk(st.rooms, s, st.sessions[s]);
    if room.a == s {
      FirstFreedShowsSearch(RoomDeleted(st, r), r, s, room.b, env);
    } else {
      SecondFreedShowsSearch(RoomDeleted(st, r), r, s, room.a, env);
    }
  }

  lemma SidelinedStrays(st: State, s: SocketId, env: Env)
    requires Agree(st, {}) && Inv(st) && s in st.sessions && AstrayAre(st, {})
    ensures Inv(Sideline(st, s, env)) && AstrayAre(Sideline(st, s, env), StrandedByRestriction(st, s, env))
  {
    EndRestrictedKeeps(st, s, env);
    SidelinedKeeps(EndRestrictedRoom(st, s, env), s);
    SidelineStrays(st, s, env);
  }

  lemma ToldAndMatchedStrays(side: State, s: SocketId, env: Env, strays: set<SocketId>)
    requires Inv(side) && AstrayAre(side, strays)
    ensures AstrayAre(MatchPass(Emit(side, s, SessionRestricted, env.now), DirtyPass, env), strays)
  {
    var told := Emit(side, s, SessionRestricted, env.now);
    StillStrays(side, told, [Sent(s, SessionRestricted, env.now)], strays);
    assert SameStory(side, told) && Inv(told);
    MatchPassStrays(told, DirtyPass, env, strays);
  }

  lemma RestrictStrays(st: State, device: DeviceId, blocking: bool, env: Env)
    requires Agree(st, {}) && Inv(st) && AstrayAre(st, {})
    ensures AstrayAre(RestrictStep(st, device, blocking, env),
                      if blocking && device in st.devices && st.devices[device] in st.sessions
                      then StrandedByRestriction(st, st.devices[device], env) else {})
  {
    if device in st.devices && st.devices[device] in st.sessions {
      var s := st.devices[device];
      if blocking {
        SidelinedStrays(st, s, env);
        ToldAndMatchedStrays(Sideline(st, s, env), s, env, StrandedByRestriction(st, s, env));
      } else {
        ToldAndMatchedStrays(st, s, env, {});
      }
    }
  }

  /** Who leaves is not stranded by leaving. */
  lemma LeaverIsNotStranded(st: State, s: SocketId, reason: EndReason, env: Env)
    requires Inv(st)
    ensures s !in StrandedByLeave(st, s, reason, env)
  {
    if s in st.sessions && st.sessions[s].roomId.Some? {
      RoomedIsMember(st, s);
    }
  }

  lemma ForgottenStrays(st: State, s: SocketId, strays: set<SocketId>)
    requires Agree(st, {}) && Inv(st) && AstrayAre(st, strays)
    ensures Agree(Forget(st, s), {}) && Inv(Forget(st, s)) && AstrayAre(Forget(st, s), strays)
  {
    var forgotten := Forget(st, s);
    assert SameStory(st, forgotten);
    SameStrays(st, forgotten, strays);
  }

  lemma LeftAndMatchedStrays(st: State, s: SocketId, env: Env)
    requires Agree(st, {}) && Inv(st) && AstrayAre(st, {}) && s in st.sessions
    ensures AstrayAre(MatchPass(RemoveSession(st, s, PartnerLeft, env), DirtyPass, env), StrandedByLeave(st, s, PartnerLeft, env))
  {
    var left := StrandedByLeave(st, s, PartnerLeft, env);
    LeaverIsNotStranded(st, s, PartnerLeft, env);
    RemoveStrays(st, s, PartnerLeft, env, {}, {});
    NoneOfThem(left, s);
    RemoveIfPresentKeeps(st, s, PartnerLeft, env);
    MatchPassStrays(RemoveSession(st, s, PartnerLeft, env), DirtyPass, env, left);
  }

  lemma DisconnectStrays(st: State, s: SocketId, env: Env)
    requires Agree(st, {}) && Inv(st) && AstrayAre(st, {})
    ensures AstrayAre(DisconnectStep(st, s, env), StrandedByLeave(Forget(st, s), s, PartnerLeft, env))
  {
    ForgottenStrays(st, s, {});
    if s in st.sessions {
      LeftAndMatchedStrays(Forget(st, s), s, env);
    }
  }

  lemma {:induction false} RemoveAllStrays(st: State, sockets: seq<SocketId>, env: Env)
    requires Agree(st, {}) && Inv(st) && AstrayAre(st, {})
    ensures AstrayAre(RemoveAll(st, sockets, env), StrandedByRemovals(st, sockets, env))
  {
    if sockets != [] {
      var n := |sockets| - 1;
      RemoveAllStrays(st, sockets[..n], env);
      RemoveAllAgrees(st, sockets[..n], env);
      RemoveAllKeeps(st, sockets[..n], env);
      RemoveStrays(RemoveAll(st, sockets[..n], env), sockets[n], PartnerUnavailable, env, {}, StrandedByRemovals(st, sockets[..n], env));
    }
  }

  lemma ShutdownStrays(st: State, locals: seq<SocketId>, env: Env)
    requires Agree(st, {}) && Inv(st) && AstrayAre(st, {})
    ensures AstrayAre(ShutdownStep(st, locals, env),
                      if st.stopped then {} else StrandedByRemovals(st.(stopped := true), locals, env))
  {
    if !st.stopped {
      var stopped := st.(stopped := true);
      assert SameStory(st, stopped) && Inv(stopped) && Agree(stopped, {});
      SameStrays(st, stopped, {});
      var stranded := StrandedByRemovals(stopped, locals, env);
      RemoveAllStrays(stopped, locals, env);
      RemoveAllKeeps(stopped, locals, env);
      MatchPassStrays(RemoveAll(stopped, locals, env), DirtyPass, env, stranded);
      SameStrays(MatchPass(RemoveAll(stopped, locals, env), DirtyPass, env), ShutdownStep(st, locals, env), stranded);
    }
  }

  lemma {:induction false} RemoveGhostsStrays(st: State, ghosts: seq<SocketId>, env: Env)
    requires Agree(st, {}) && Inv(st) && AstrayAre(st, {})
    ensures AstrayAre(RemoveGhosts(st, ghosts, env), StrandedByGhosts(st, ghosts, env))
  {
    if ghosts != [] {
      var n := |ghosts| - 1;
      RemoveGhostsStrays(st, ghosts[..n], env);
      RemoveGhostsAgrees(st, ghosts[..n], env);
      RemoveGhostsKeeps(st, ghosts[..n], env);
      var before, stranded := RemoveGhosts(st, ghosts[..n], env), StrandedByGhosts(st, ghosts[..n], env);
      var forgotten := Forget(before, ghosts[n]);
      assert SameStory(before, forgotten) && Inv(forgotten) && Agree(forgotten, {});
      SameStrays(before, forgotten, stranded);
      RemoveStrays(forgotten, ghosts[n], PartnerLeft, env, {}, stranded);
    }
  }

  lemma SameExpiryStrands(st: State, st': State, r: RoomId, env: Env)
    requires st'.sessions == st.sessions && st'.rooms == st.rooms
    ensures StrandedByExpiry(st', r, env) == StrandedByExpiry(st, r, env)
  {
  }

  lemma ExpireRoomStrays(st: State, r: RoomId, env: Env, strays: set<SocketId>)
    requires Agree(st, {}) && Inv(st) && AstrayAre(st, strays)
    ensures AstrayAre(ExpireRoom(st, r, env), strays + StrandedByExpiry(st, r, env))
  {
    if r in st.rooms && !st.rooms[r].active {
      var room := st.rooms[r];
      BlockedStrays(st, r, st.cfg.declineBlockMs, false, env.now, strays);
      var blocked := BlockPair(st, room.deviceA, room.deviceB, st.cfg.declineBlockMs, false, env.now);
      EndRoomStrays(blocked, r, ExpiredReason(room.acceptedA), ExpiredReason(room.acceptedB), env, {}, strays);
      SameExpiryStrands(st, blocked, r, env);
    } else {
      assert strays + {} == strays;
    }
  }

  lemma {:induction false} ExpireRoomsStrays(st: State, expired: seq<RoomId>, env: Env, strays: set<SocketId>)
    requires Agree(st, {}) && Inv(st) && AstrayAre(st, strays)
    ensures AstrayAre(ExpireRooms(st, expired, env), strays + StrandedByExpiries(st, expired, env))
  {
    if expired != [] {
      var n := |expired| - 1;
      ExpireRoomsStrays(st, expired[..n], env, strays);
      ExpireRoomsAgrees(st, expired[..n], env);
      ExpireRoomsKeeps(st, expired[..n], env);
      var before := ExpireRooms(st, expired[..n], env);
      var stranded := StrandedByExpiries(st, expired[..n], env);
      ExpireRoomStrays(before, expired[n], env, strays + stranded);
      Regroup(strays, stranded, StrandedByExpiry(before, expired[n], env));
    } else {
      assert strays + {} == strays;
    }
  }

  lemma RelaxOneStrays(st: State, s: SocketId, now: nat, strays: set<SocketId>)
    requires AstrayAre(st, strays)
    ensures AstrayAre(RelaxOne(st, s, now), strays)
  {
    var st' := RelaxOne(st, s, now);
    RelaxOneFrame(st, s, now);
    if st'.out == st.out {
      SameStrays(st, st', strays);
    } else {
      var step: nat :| st'.out == st.out + [Sent(s, QueueWaiting(step), now)];
      assert !Astray(st, s) && strays - {s} == strays;
      assert st'.sessions == st.sessions[s := st'.sessions[s]];
      OneStrays(st, st', s, [Sent(s, QueueWaiting(step), now)], strays);
    }
  }

  lemma {:induction false} RelaxTickStrays(st: State, order: seq<SocketId>, now: nat, strays: set<SocketId>)
    requires AstrayAre(st, strays)
    ensures AstrayAre(RelaxTick(st, order, now), strays)
  {
    if order != [] {
      var rest := order[..|order| - 1];
      RelaxTickStrays(st, rest, now, strays);
      RelaxOneStrays(RelaxTick(st, rest, now), order[|order| - 1], now, strays);
    }
  }

  lemma ReapedStrays(st: State, ghosts: seq<SocketId>, env: Env)
    requires Agree(st, {}) && Inv(st) && AstrayAre(st, {})
    ensures var reaped := Reaped(st, ghosts, env);
      && Agree(reaped, {}) && Inv(reaped)
      && AstrayAre(reaped, if env.now - st.lastReapAt >= st.cfg.heartbeatIntervalMs
                           then StrandedByGhosts(st.(lastReapAt := env.now), ghosts, env) else {})
  {
    var marked := st.(lastReapAt := env.now);
    assert SameStory(st, marked) && Inv(marked) && Agree(marked, {});
    SameStrays(st, marked, {});
    RemoveGhostsStrays(marked, ghosts, env);
    RemoveGhostsAgrees(marked, ghosts, env);
    RemoveGhostsKeeps(marked, ghosts, env);
  }

  lemma SweepStrays(st: State, input: SweepInput, env: Env)
    requires Agree(st, {}) && Inv(st) && AstrayAre(st, {})
    ensures AstrayAre(SweepStep(st, input, env), StrandedBySweep(st, input, env))
  {
    ReapedStrays(st, input.ghosts, env);
    var reaped := Reaped(st, input.ghosts, env);
    var byGhosts := if env.now - st.lastReapAt >= st.cfg.heartbeatIntervalMs
                    then StrandedByGhosts(st.(lastReapAt := env.now), input.ghosts, env) else {};
    ExpireRoomsStrays(reaped, input.expired, env, byGhosts);
    var expired, stranded := ExpireRooms(reaped, input.expired, env), StrandedBySweep(st, input, env);
    var timed := WakeLapsed(expired, env.now).(lastRecheckAt := if RecheckDue(st, env) then env.now else st.lastRecheckAt);
    SameStrays(expired, timed, stranded);
    RelaxTickStrays(timed, input.order, env.now, stranded);
    SweepPreparedKeeps(st, input, env);
    MatchPassStrays(SweepPrepared(st, input, env), if RecheckDue(st, env) then RecheckPass else DirtyPass,
                    env.(now := input.passAt), stranded);
  }

  /* ---------------------------------------------------------------- */
  /* Hello                                                             */
  /* ---------------------------------------------------------------- */

  lemma UnknownTold(st: State, st': State, s: SocketId, news: seq<Item>, strays: set<SocketId>)
    requires AstrayAre(st, strays) && s !in st.sessions && st'.sessions == st.sessions && st'.out == st.out + news
    requires forall x :: x in news ==> x.to == s
    ensures AstrayAre(st', strays)
  {
    forall x ensures Astray(st', x) <==> x in strays {
      assert Astray(st, x) <==> x in strays;
      if x != s {
        ClientOfOthers(st.out, news, x);
      }
    }
  }

  lemma RefusedStrays(st: State, s: SocketId, error: ErrorCode, now: nat)
    requires AstrayAre(st, {}) && !Terminal(Client(st.out, s))
    ensures AstrayAre(Emit(st, s, HelloRefused(error), now), {})
  {
    var st' := Emit(st, s, HelloRefused(error), now);
    RefusedClient(st, s, error, now);
    if s in st.sessions {
      OneStrays(st, st', s, [Sent(s, HelloRefused(error), now)], {});
      assert {} - {s} == {};
    } else {
      UnknownTold(st, st', s, [Sent(s, HelloRefused(error), now)], {});
    }
  }

  /** Whom the retirement of a device's previous socket strands, and perhaps the new session itself for now. */
  lemma HelloStoredStrays(st: State, s: SocketId, p: HelloPayload, answers: HelloAnswers, env: Env)
    requires Agree(st, {}) && Inv(st) && AstrayAre(st, {}) && HelloRefusal(st, s, p, answers, env) == None
    ensures var stored, stranded := HelloStored(st, s, p, env), Strands(st, Hello(s, p, answers), env);
      s !in stranded && AstrayAre(stored, if Astray(stored, s) then stranded + {s} else stranded)
  {
    var stored := HelloStored(st, s, p, env);
    if s in st.sessions {
      forall x ensures !Astray(stored, x) {
        assert !Astray(st, x);
      }
    } else {
      RetiredStrays(st, s, p.device, env);
      NewSessionStrays(RetirePrevious(st, s, p.device, env), stored, s, Strands(st, Hello(s, p, answers), env));
    }
  }

  lemma NewSessionStrays(st: State, st': State, s: SocketId, strays: set<SocketId>)
    requires AstrayAre(st, strays) && s !in strays && s in st'.sessions
    requires st'.sessions == st.sessions[s := st'.sessions[s]] && st'.out == st.out
    ensures AstrayAre(st', if Astray(st', s) then strays + {s} else strays)
  {
    forall x ensures Astray(st', x) <==> x in if Astray(st', s) then strays + {s} else strays {
      assert Astray(st, x) <==> x in strays;
    }
  }

  lemma ReplacedStrays(st: State, previous: SocketId, env: Env)
    requires Agree(st, {}) && Inv(st) && AstrayAre(st, {}) && previous in st.sessions
    ensures AstrayAre(Replace(st, previous, env), StrandedByLeave(st, previous, PartnerUnavailable, env))
  {
    LeaverIsNotStranded(st, previous, PartnerUnavailable, env);
    ReplaceStrays(st, previous, env, {});
    NoneOfThem(StrandedByLeave(st, previous, PartnerUnavailable, env), previous);
  }

  lemma UnknownIsNotStranded(st: State, s: SocketId, previous: SocketId, reason: EndReason, env: Env)
    requires s !in st.sessions
    ensures s !in StrandedByLeave(st, previous, reason, env)
  {
  }

  lemma RetiredStrays(st: State, s: SocketId, device: DeviceId, env: Env)
    requires Agree(st, {}) && Inv(st) && AstrayAre(st, {}) && s !in st.sessions
    ensures var stranded := if device in st.devices then StrandedByLeave(st, st.devices[device], PartnerUnavailable, env) else {};
      s !in stranded && AstrayAre(RetirePrevious(st, s, device, env), stranded)
  {
    if device in st.devices {
      ReplacedStrays(st, st.devices[device], env);
      UnknownIsNotStranded(st, s, st.devices[device], PartnerUnavailable, env);
    }
  }

  lemma PutAndTaken(x: set<SocketId>, s: SocketId)
    requires s !in x
    ensures x + {s} - {s} == x && x - {s} == x
  {
  }

  lemma AdmittedStrays(acked: State, s: SocketId, since: Option<nat>, env: Env, strays: set<SocketId>)
    requires AstrayAre(acked, if Astray(acked, s) then strays + {s} else strays) && s !in strays && Inv(acked) && s in acked.sessions
    requires acked.sessions[s].state == Idle || acked.sessions[s].state == Waiting
    ensures AstrayAre(MatchPass(Enqueue(acked, s, since, env), DirtyPass, env), strays)
  {
    assert SessionOk(acked.rooms, s, acked.sessions[s]);
    RoomlessIsUnroomed(acked.sessions, acked.rooms, s);
    EnqueueKeeps(acked, s, since, env, {});
    assert {} - {s} == {};
    EnqueueStrays(acked, s, since, env, if Astray(acked, s) then strays + {s} else strays);
    PutAndTaken(strays, s);
    MatchPassStrays(Enqueue(acked, s, since, env), DirtyPass, env, strays);
  }

  lemma AckedStrays(stored: State, s: SocketId, filter: GenderFilter, now: nat, stranded: set<SocketId>)
    requires s in stored.sessions && s !in stranded && AstrayAre(stored, if Astray(stored, s) then stranded + {s} else stranded)
    ensures var acked := HelloAcked(stored, s, filter, now);
      AstrayAre(acked, if Astray(acked, s) then stranded + {s} else stranded)
  {
    var acked := HelloAcked(stored, s, filter, now);
    var strays := if Astray(stored, s) then stranded + {s} else stranded;
    assert acked.sessions == stored.sessions[s := acked.sessions[s]];
    OneStrays(stored, acked, s, [Sent(s, HelloAccepted(filter), now), Sent(s, WalletUpdate, now)], strays);
    assert strays + {s} == stranded + {s} && strays - {s} == stranded;
  }

  lemma HelloAckedStrays(st: State, s: SocketId, p: HelloPayload, answers: HelloAnswers, env: Env)
    requires Agree(st, {}) && Inv(st) && AstrayAre(st, {}) && HelloRefusal(st, s, p, answers, env) == None
    ensures var acked := HelloAcked(HelloStored(st, s, p, env), s, HelloWho(p, env).preferences.genderFilter, env.now);
      var stranded := Strands(st, Hello(s, p, answers), env);
      && Inv(acked) && s in acked.sessions && s !in stranded
      && AstrayAre(acked, if Astray(acked, s) then stranded + {s} else stranded)
  {
    HelloStoredKeeps(st, s, p, env);
    HelloStoredStrays(st, s, p, answers, env);
    var stored := HelloStored(st, s, p, env);
    AckedStrays(stored, s, HelloWho(p, env).preferences.genderFilter, env.now, Strands(st, Hello(s, p, answers), env));
    assert SameStory(stored, HelloAcked(stored, s, HelloWho(p, env).preferences.genderFilter, env.now));
  }

  lemma HelloAcceptedStrays(st: State, s: SocketId, p: HelloPayload, answers: HelloAnswers, env: Env)
    requires Agree(st, {}) && Inv(st) && AstrayAre(st, {}) && HelloRefusal(st, s, p, answers, env) == None
    ensures AstrayAre(HelloStep(st, s, p, answers, env), Strands(st, Hello(s, p, answers), env))
  {
    HelloAckedStrays(st, s, p, answers, env);
    var acked := HelloAcked(HelloStored(st, s, p, env), s, HelloWho(p, env).preferences.genderFilter, env.now);
    var session := acked.sessions[s];
    if session.state == Idle || session.state == Waiting {
      AdmittedStrays(acked, s, if session.state == Waiting then session.waitingSince else None, env,
                     Strands(st, Hello(s, p, answers), env));
    }
  }

  lemma HelloStrays(st: State, s: SocketId, p: HelloPayload, answers: HelloAnswers, env: Env)
    requires Agree(st, {}) && Inv(st) && AstrayAre(st, {}) && !Terminal(Client(st.out, s))
    ensures AstrayAre(HelloStep(st, s, p, answers, env), Strands(st, Hello(s, p, answers), env))
  {
    var refusal := HelloRefusal(st, s, p, answers, env);
    if refusal.Some? {
      RefusedStrays(st, s, refusal.value, env.now);
    } else {
      HelloAcceptedStrays(st, s, p, answers, env);
    }
  }

  /* ---------------------------------------------------------------- */
  /* The other events                                                  */
  /* ---------------------------------------------------------------- */

  lemma UpdatePreferencesStrays(st: State, s: SocketId, preferences: Preferences, env: Env)
    requires Agree(st, {}) && Inv(st) && AstrayAre(st, {})
    ensures AstrayAre(UpdatePreferencesStep(st, s, preferences, env), {})
  {
    if s in st.sessions {
      var session := st.sessions[s];
      var who := session.who.(preferences := preferences);
      if !NeedsPremium(who, env) && session.who.preferences != preferences {
        var stored := st.(sessions := st.sessions[s := session.(who := who)]);
        var acked := Emit(stored, s, PreferencesSaved(preferences.genderFilter), env.now);
        PreferencesStored(st, stored, s, who, preferences.genderFilter, env.now);
        RewrittenStrays(st, stored, s, preferences.genderFilter, env.now);
        var marked := acked.(dirty := acked.dirty + {s});
        SameStrays(acked, marked, {});
        if session.state == Waiting {
          MatchPassStrays(marked, DirtyPass, env, {});
        }
      }
    }
  }

  lemma RewrittenStrays(st: State, stored: State, s: SocketId, filter: GenderFilter, now: nat)
    requires AstrayAre(st, {}) && s in st.sessions && s in stored.sessions && stored.out == st.out
    requires stored.sessions == st.sessions[s := st.sessions[s].(who := stored.sessions[s].who)]
    ensures AstrayAre(Emit(stored, s, PreferencesSaved(filter), now), {})
  {
    forall x ensures !Astray(stored, x) {
      assert !Astray(st, x);
    }
    StillStrays(stored, Emit(stored, s, PreferencesSaved(filter), now), [Sent(s, PreferencesSaved(filter), now)], {});
  }

  lemma AcceptStrays(st: State, s: SocketId, r: RoomId, env: Env)
    requires Inv(st) && AstrayAre(st, {})
    ensures AstrayAre(AcceptStep(st, s, r, env), {})
  {
    if MemberOf(st, s, r) && !st.rooms[r].active {
      var room := st.rooms[r];
      if env.now > room.expiresAt + st.cfg.matchAcceptGraceMs {
        StillStrays(st, AcceptStep(st, s, r, env), [Sent(s, ServerError(NotInRoom), env.now)], {});
      } else if !HasAccepted(room, s) {
        AcceptedStrays(st, s, r, env);
      }
    }
  }

  lemma AcceptedStrays(st: State, s: SocketId, r: RoomId, env: Env)
    requires Inv(st) && AstrayAre(st, {}) && r in st.rooms
    ensures var room' := AcceptedBy(st.rooms[r], s);
      AstrayAre(if room'.acceptedA && room'.acceptedB then ActivateRoom(st, r, room', env.now)
                else Emit(st.(rooms := st.rooms[r := room']), Partner(st.rooms[r], s), PartnerAccepted(r), env.now), {})
  {
    var room' := AcceptedBy(st.rooms[r], s);
    if room'.acceptedA && room'.acceptedB {
      assert RoomOk(st.sessions, r, st.rooms[r]);
      assert SessionOk(st.rooms, room'.a, st.sessions[room'.a]) && SessionOk(st.rooms, room'.b, st.sessions[room'.b]);
      ActivateStrays(st, r, room', env.now, {});
    } else {
      var stored := st.(rooms := st.rooms[r := room']);
      SameStrays(st, stored, {});
      StillStrays(stored, Emit(stored, Partner(st.rooms[r], s), PartnerAccepted(r), env.now),
                  [Sent(Partner(st.rooms[r], s), PartnerAccepted(r), env.now)], {});
    }
  }

  /** An item after which a client shows a search exactly when it did before. */
  predicate KeepsSearch(item: Item) {
    item.Acted? || item.event.CallStart? || IsStill(item)
  }

  lemma SearchKept(c: ClientState, item: Item, s: SocketId)
    requires KeepsSearch(item)
    ensures Hear(c, item, s).status == Searching <==> c.status == Searching
  {
    if IsStill(item) {
      StillItem(c, item, s);
    }
  }

  lemma {:induction false} QuietStrays(st: State, st': State, news: seq<Item>)
    requires AstrayAre(st, {}) && st'.sessions == st.sessions && st'.out == st.out + news
    requires forall x :: x in news ==> KeepsSearch(x)
    ensures AstrayAre(st', {})
  {
    forall s ensures !Astray(st', s) {
      assert !Astray(st, s);
      SearchKeptAll(st.out, news, s);
    }
  }

  lemma {:induction false} SearchKeptAll(trace: seq<Item>, news: seq<Item>, s: SocketId)
    requires forall x :: x in news ==> KeepsSearch(x)
    ensures Client(trace + news, s).status == Searching <==> Client(trace, s).status == Searching
  {
    if news == [] {
      assert trace + news == trace;
    } else {
      var n := |news| - 1;
      assert trace + news == (trace + news[..n]) + [news[n]];
      SearchKeptAll(trace, news[..n], s);
      ClientSnoc(trace + news[..n], news[n], s);
      SearchKept(Client(trace + news[..n], s), news[n], s);
    }
  }

  lemma StartCallStrays(st: State, task: nat, ready: bool, env: Env)
    requires AstrayAre(st, {})
    ensures AstrayAre(StartCallStep(st, task, ready, env), {})
  {
    var st' := StartCallStep(st, task, ready, env);
    if st'.out == st.out {
      SameStrays(st, st', {});
    } else {
      var t := st.calls[task];
      var news := [Sent(t.a, CallStart(t.room, true), env.now), Sent(t.b, CallStart(t.room, false), env.now)];
      assert st'.out == st.out + news;
      QuietStrays(st, st', news);
    }
  }

  lemma QuietEventsStray(st: State, ev: Event, env: Env)
    requires Agree(st, {}) && Inv(st) && AstrayAre(st, {})
    requires ev.UpdatePreferences? || ev.Accept? || ev.Connected? || ev.StartCall? || ev.RunWholePass? || ev.Aside? || ev.Act?
    ensures AstrayAre(Step(st, ev, env), {})
  {
    match ev
    case UpdatePreferences(s, preferences) => UpdatePreferencesStrays(st, s, preferences, env);
    case Accept(s, r) => AcceptStrays(st, s, r, env);
    case Connected(s, r) => SameStrays(st, ConnectedStep(st, s, r, env), {});
    case StartCall(task, ready) => StartCallStrays(st, task, ready, env);
    case RunWholePass => MatchPassStrays(st, WholePass, env, {});
    case Aside(s, e) => if IsAside(e) { QuietStrays(st, Step(st, ev, env), [Sent(s, e, env.now)]); }
    case Act(s, act) => QuietStrays(st, Step(st, ev, env), [Acted(s, act)]);
  }

  /** After an event exactly those it strands are idle and show a search. */
  lemma StepStrays(st: State, ev: Event, env: Env)
    requires Agree(st, {}) && Inv(st) && AstrayAre(st, {}) && (ev.Hello? ==> !Terminal(Client(st.out, ev.s)))
    ensures AstrayAre(Step(st, ev, env), Strands(st, ev, env))
  {
    match ev
    case Hello(s, payload, answers) => HelloStrays(st, s, payload, answers, env);
    case Decline(s, r) => DeclineStrays(st, s, r, env);
    case Skip(s, only) => SkipStrays(st, s, only, env);
    case Report(s, r, target) => ReportStrays(st, s, r, target, env);
    case CallFailed(s, r) => CallFailedStrays(st, s, r, env);
    case Restrict(device, blocking) => RestrictStrays(st, device, blocking, env);
    case Disconnect(s) => DisconnectStrays(st, s, env);
    case Sweep(input) => SweepStrays(st, input, env);
    case Shutdown(locals) => ShutdownStrays(st, locals, env);
    case _ => QuietEventsStray(st, ev, env);
  }

  lemma NoneAstray(st: State, strays: set<SocketId>)
    requires AstrayAre(st, strays)
    ensures AstrayAre(st, {}) <==> strays == {}
  {
    forall s | s in strays ensures Astray(st, s) {
    }
  }

  /**
   * One event keeps every shown search a real one exactly when it strands
   * nobody: it frees no capped or banned member for another reason than its
   * own silence, and takes no device out of a room or the queue.
   */
  lemma SearchAgreesUnlessStranded(st: State, ev: Event, env: Env)
    requires Agree(st, {}) && Inv(st) && Orderly(st) && SearchOk(st)
    requires !Disrupts(st, ev, env) && (ev.Hello? ==> !Terminal(Client(st.out, ev.s)))
    ensures SearchOk(Step(st, ev, env)) <==> Strands(st, ev, env) == {}
  {
    SearchOkIsNoneAstray(st);
    StepStrays(st, ev, env);
    StepAgreesUnlessDisrupted(st, ev, env);
    StepKeeps(st, ev, env);
    SearchOkIsNoneAstray(Step(st, ev, env));
    NoneAstray(Step(st, ev, env), Strands(st, ev, env));
  }

  ghost predicate SearchOkAt(cfg: Config, run: seq<(Event, Env)>, k: nat)
    requires k <= |run|
  {
    SearchOk(Run(Init(cfg), run[..k]))
  }

  /** Every moment of the run. */
  ghost predicate AlwaysSearchOk(cfg: Config, run: seq<(Event, Env)>) {
    forall k :: 0 <= k <= |run| ==> SearchOkAt(cfg, run, k)
  }

  predicate StrandsAt(cfg: Config, run: seq<(Event, Env)>, k: nat)
    requires k < |run|
  {
    Strands(Run(Init(cfg), run[..k]), run[k].0, run[k].1) != {}
  }

  ghost predicate NeverStrands(cfg: Config, run: seq<(Event, Env)>) {
    forall k :: 0 <= k < |run| ==> !StrandsAt(cfg, run, k)
  }

  lemma PoliteBefore(cfg: Config, run: seq<(Event, Env)>)
    requires |run| > 0 && PoliteRun(cfg, run)
    ensures PoliteRun(cfg, run[..|run| - 1])
  {
    var first := run[..|run| - 1];
    forall k | 0 <= k < |first| ensures Polite(Run(Init(cfg), first[..k]), first[k].0) {
      assert first[..k] == run[..k];
    }
  }

  lemma AlwaysBefore(cfg: Config, run: seq<(Event, Env)>)
    requires |run| > 0
    ensures AlwaysSearchOk(cfg, run) <==> AlwaysSearchOk(cfg, run[..|run| - 1]) && SearchOkAt(cfg, run, |run|)
  {
    var first := run[..|run| - 1];
    forall k | 0 <= k <= |first| ensures SearchOkAt(cfg, first, k) <==> SearchOkAt(cfg, run, k) {
      assert first[..k] == run[..k];
    }
  }

  lemma NeverBefore(cfg: Config, run: seq<(Event, Env)>)
    requires |run| > 0
    ensures NeverStrands(cfg, run) <==> NeverStrands(cfg, run[..|run| - 1]) && !StrandsAt(cfg, run, |run| - 1)
  {
    var first := run[..|run| - 1];
    forall k | 0 <= k < |first| ensures StrandsAt(cfg, first, k) <==> StrandsAt(cfg, run, k) {
      assert first[..k] == run[..k];
    }
  }

  /**
   * In every run in which clients say hello only on connect or from idle: at
   * every moment each client that shows a search is queued, exactly when no
   * event of the run strands anybody.
   */
  lemma {:induction false} SearchAgreesInEveryRun(cfg: Config, run: seq<(Event, Env)>)
    requires PoliteRun(cfg, run)
    ensures AlwaysSearchOk(cfg, run) <==> NeverStrands(cfg, run)
  {
    if run != [] {
      var n := |run| - 1;
      PoliteBefore(cfg, run);
      AlwaysBefore(cfg, run);
      NeverBefore(cfg, run);
      SearchAgreesInEveryRun(cfg, run[..n]);
      if AlwaysSearchOk(cfg, run[..n]) {
        var before := Run(Init(cfg), run[..n]);
        assert run[..n][..n] == run[..n] && run[..|run|] == run;
        assert SearchOkAt(cfg, run[..n], n);
        ClientsAgreeInEveryRun(cfg, run[..n]);
        EveryRunIsConsistent(cfg, run[..n]);
        EveryRunIsOrderly(cfg, run[..n]);
        PoliteHelloDisruptsNothing(before, run[n].0, run[n].1);
        SearchAgreesUnlessStranded(before, run[n].0, run[n].1);
      }
    } else {
      assert run[..0] == [];
      assert SearchOk(Init(cfg));
    }
  }
}
