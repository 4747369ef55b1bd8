/**
 * Client and server agree on the room: the reducer folded over everything a
 * socket saw names the same room as the stored session, at every moment.
 */
module MatchClients {
  import opened Wrappers
  import opened Compatibility
  import opened Protocol
  import opened Greedy
  import opened MatchModel
  import opened MatchInvariant
  import opened MatchSteps
  import opened MatchTrace
  import opened Signaling

  predicate InRoomStatus(status: Status) {
    status == Offered || status == StartingCall || status == InCall
  }

  /** The client's view fits its session: same room, in a call only while active, idle only while idle. */
  predicate Seated(c: ClientState, session: Session) {
    && c.roomId == session.roomId
    && (c.roomId.Some? <==> InRoomStatus(c.status))
    && (c.status == InCall ==> session.state == Active)
    && (c.status == IdleOut || Terminal(c) ==> session.state == Idle)
    && c.status != Connecting
  }

  /** Every client that has a session, except those in `but`, fits it. */
  ghost predicate Agree(st: State, but: set<SocketId>) {
    forall s :: s in st.sessions && s !in but ==> Seated(Client(st.out, s), st.sessions[s])
  }

  /* ---------------------------------------------------------------- */
  /* News that moves no client                                         */
  /* ---------------------------------------------------------------- */

  /** An item that changes neither the room nor the status of a client. */
  predicate IsStill(item: Item) {
    match item
    case Acted(_, act) => act != PressAccept
    case Sent(_, e, _) =>
      e.PreferencesSaved? || e.PartnerAccepted? || e.CoinsUpdate? || e.FriendsNew? || e.ChatMessage? || e.ChatTyping?
      || e.SessionRestricted? || e.ServerShutdown? || e.WalletUpdate? || (e.ServerError? && e.code != Banned)
  }

  predicate SamePlace(c: ClientState, c': ClientState) {
    c'.roomId == c.roomId && c'.status == c.status
  }

  lemma StillAct(c: ClientState, act: ClientAct)
    requires act != PressAccept
    ensures SamePlace(c, Do(c, act))
  {
  }

  lemma StillEvent(c: ClientState, e: ServerEvent, at: nat)
    requires IsStill(Sent(0, e, at))
    ensures SamePlace(c, Receive(c, e, at))
  {
  }

  lemma StillItem(c: ClientState, item: Item, s: SocketId)
    requires IsStill(item)
    ensures SamePlace(c, Hear(c, item, s))
  {
    if item.Sent? {
      StillEvent(c, item.event, item.at);
    } else {
      StillAct(c, item.act);
    }
  }

  lemma {:induction false} StillNews(trace: seq<Item>, news: seq<Item>, s: SocketId)
    requires forall x :: x in news ==> IsStill(x)
    ensures SamePlace(Client(trace, s), Client(trace + news, s))
  {
    if news == [] {
      assert trace + news == trace;
    } else {
      var n := |news| - 1;
      assert trace + news == (trace + news[..n]) + [news[n]];
      StillNews(trace, news[..n], s);
      ClientSnoc(trace + news[..n], news[n], s);
      StillItem(Client(trace + news[..n], s), news[n], s);
    }
  }

  ghost predicate StillStep(st: State, st': State, news: seq<Item>) {
    st'.sessions == st.sessions && st'.out == st.out + news && forall x :: x in news ==> IsStill(x)
  }

  lemma StillStepKeeps(st: State, st': State, news: seq<Item>, but: set<SocketId>)
    requires Agree(st, but) && StillStep(st, st', news)
    ensures Agree(st', but)
  {
    forall s | s in st'.sessions && s !in but ensures Seated(Client(st'.out, s), st'.sessions[s]) {
      StillNews(st.out, news, s);
    }
  }

  /** A step that tells only `s` and restates only its session, leaving the two in agreement. */
  lemma OneMoves(st: State, st': State, s: SocketId, news: seq<Item>, but: set<SocketId>)
    requires Agree(st, but) && s in st.sessions && s in st'.sessions
    requires st'.sessions == st.sessions[s := st'.sessions[s]] && st'.out == st.out + news
    requires forall x :: x in news ==> x.to == s
    ensures Agree(st', but + {s})
    ensures Seated(Client(st'.out, s), st'.sessions[s]) ==> Agree(st', but - {s})
  {
    forall x | x in st'.sessions && x !in but && x != s ensures Seated(Client(st'.out, x), st'.sessions[x]) {
      ClientOfOthers(st.out, news, x);
    }
  }

  /* ---------------------------------------------------------------- */
  /* A session is queued or freed                                      */
  /* ---------------------------------------------------------------- */

  /** Whatever it showed before, a client told to wait shows no room. */
  lemma QueuedClient(trace: seq<Item>, s: SocketId, lapsed: bool, now: nat)
    requires !Terminal(Client(trace, s))
    ensures var c := Client(trace + EnqueueNews(s, lapsed, now), s); c.roomId == None && c.status == Searching
  {
    var first := if lapsed then [Sent(s, ServerError(PremiumRequired), now), Sent(s, WalletUpdate, now)] else [];
    assert trace + EnqueueNews(s, lapsed, now) == (trace + first) + [Sent(s, QueueWaiting(0), now)];
    StillNews(trace, first, s);
    ClientHears(trace + first, s, QueueWaiting(0), now);
    HearsWaiting(Client(trace + first, s), 0, now);
  }

  lemma EnqueueTells(st: State, s: SocketId, since: Option<nat>, env: Env)
    requires s in st.sessions
    ensures Enqueue(st, s, since, env).out == st.out + EnqueueNews(s, NeedsPremium(st.sessions[s].who, env), env.now)
  {
  }

  lemma QueuedSeat(c: ClientState, session: Session)
    requires c.roomId == None && c.status == Searching && session.roomId == None
    ensures Seated(c, session)
  {
  }

  lemma EnqueueAgrees(st: State, s: SocketId, since: Option<nat>, env: Env, but: set<SocketId>)
    requires Agree(st, but) && s in st.sessions && !Terminal(Client(st.out, s))
    ensures Agree(Enqueue(st, s, since, env), but - {s})
  {
    var lapsed := NeedsPremium(st.sessions[s].who, env);
    var st' := Enqueue(st, s, since, env);
    EnqueueFrame(st, s, since, env);
    EnqueueTells(st, s, since, env);
    QueuedClient(st.out, s, lapsed, env.now);
    QueuedSeat(Client(st'.out, s), st'.sessions[s]);
    OneMoves(st, st', s, EnqueueNews(s, lapsed, env.now), but);
  }

  lemma LeaveIdleAgrees(st: State, s: SocketId, capped: bool, now: nat, but: set<SocketId>)
    requires Agree(st, but) && s in st.sessions
    requires var c := Client(st.out, s); c.roomId == None && !InRoomStatus(c.status) && c.status != Connecting
    ensures Agree(LeaveIdle(st, s, capped, now), but - {s})
  {
    var news := if capped then [Sent(s, ServerError(RateLimited), now)] else [];
    StillNews(st.out, news, s);
    OneMoves(st, LeaveIdle(st, s, capped, now), s, news, but);
  }

  /** A client that hears its own room ended leaves it. */
  lemma EndedClient(trace: seq<Item>, s: SocketId, r: RoomId, reason: EndReason, now: nat)
    requires !Terminal(Client(trace, s))
    ensures var c, c' := Client(trace, s), Client(trace + [Sent(s, MatchEnded(r, reason), now)], s);
      if c.roomId == Some(r) then c'.roomId == None && c'.status == (if reason == AcceptTimeout then IdleOut else Searching)
      else SamePlace(c, c')
  {
    ClientHears(trace, s, MatchEnded(r, reason), now);
    HearsEnded(Client(trace, s), r, reason, now);
  }

  lemma FreeMemberAgrees(st: State, r: RoomId, s: SocketId, reason: Option<EndReason>, env: Env, but: set<SocketId>)
    requires Agree(st, but) && s in st.sessions
    requires reason.Some? ==> s !in but && st.sessions[s].roomId == Some(r) && st.sessions[s].state != Idle
    ensures Agree(FreeMember(st, r, s, reason, env), but)
  {
    if reason.Some? {
      var told := Emit(st, s, MatchEnded(r, reason.value), env.now);
      assert Seated(Client(st.out, s), st.sessions[s]);
      EndedClient(st.out, s, r, reason.value, env.now);
      OneMoves(st, told, s, [Sent(s, MatchEnded(r, reason.value), env.now)], but);
      var device := st.sessions[s].who.deviceId;
      var capped := reason.value != AcceptTimeout && device in env.capped;
      assert but + {s} - {s} == but;
      if reason.value == AcceptTimeout || capped || device in env.banned {
        LeaveIdleAgrees(told, s, capped, env.now, but + {s});
      } else {
        EnqueueAgrees(told, s, None, env, but + {s});
      }
    }
  }

  lemma EndRoomAgrees(st: State, r: RoomId, reasonA: Option<EndReason>, reasonB: Option<EndReason>, env: Env, but: set<SocketId>)
    requires Inv(st) && Agree(st, but) && r in st.rooms
    requires (reasonA.Some? ==> st.rooms[r].a !in but) && (reasonB.Some? ==> st.rooms[r].b !in but)
    ensures Agree(EndRoom(st, r, reasonA, reasonB, env), but)
  {
    var room := st.rooms[r];
    assert RoomOk(st.sessions, r, room);
    assert SessionOk(st.rooms, room.a, st.sessions[room.a]) && SessionOk(st.rooms, room.b, st.sessions[room.b]);
    var deleted := RoomDeleted(st, r);
    StillStepKeeps(st, deleted, [], but);
    FreeMemberAgrees(deleted, r, room.a, reasonA, env, but);
    FreeMemberFrame(deleted, r, room.a, reasonA, env);
    FreeMemberAgrees(FreeMember(deleted, r, room.a, reasonA, env), r, room.b, reasonB, env, but);
  }

  /* ---------------------------------------------------------------- */
  /* A session leaves                                                  */
  /* ---------------------------------------------------------------- */

  lemma LeaversRoomAgrees(st: State, s: SocketId, reason: EndReason, env: Env, but: set<SocketId>)
    requires Inv(st) && Agree(st, but) && s in st.sessions && but <= {s}
    ensures Agree(EndLeaversRoom(st, s, reason, env), but)
  {
    var roomId := st.sessions[s].roomId;
    if roomId.Some? {
      RoomedIsMember(st, s);
      var (reasonA, reasonB) := ReasonsFor(st.rooms[roomId.value], s, None, Some(reason));
      EndRoomAgrees(st, roomId.value, reasonA, reasonB, env, but);
    }
  }

  lemma RemoveSessionAgrees(st: State, s: SocketId, reason: EndReason, env: Env, but: set<SocketId>)
    requires Inv(st) && Agree(st, but) && but <= {s}
    ensures Agree(RemoveIfPresent(st, s, reason, env), {})
  {
    if s in st.sessions {
      LeaversRoomAgrees(st, s, reason, env, but);
      DroppedAgrees(EndLeaversRoom(st, s, reason, env), s, st.sessions[s].who.deviceId, but);
    }
  }

  lemma DroppedAgrees(st: State, s: SocketId, device: DeviceId, but: set<SocketId>)
    requires Agree(st, but) && but <= {s}
    ensures Agree(DropSession(st, s, device), {})
  {
    var st' := DropSession(st, s, device);
    forall x | x in st'.sessions ensures Seated(Client(st'.out, x), st'.sessions[x]) {
      assert st'.sessions[x] == st.sessions[x];
    }
  }

  lemma ReplaceAgrees(st: State, previous: SocketId, env: Env)
    requires Inv(st) && Agree(st, {}) && previous in st.sessions
    ensures Agree(Replace(st, previous, env), {})
  {
    var told := Emit(st, previous, SessionReplaced, env.now);
    OneMoves(st, told, previous, [Sent(previous, SessionReplaced, env.now)], {});
    assert {} + {previous} == {previous};
    assert SameStory(st, told) && Inv(told);
    RemoveSessionAgrees(told, previous, PartnerUnavailable, env, {previous});
    StillStepKeeps(RemoveIfPresent(told, previous, PartnerUnavailable, env), Replace(st, previous, env), [], {});
  }

  /* ---------------------------------------------------------------- */
  /* A room starts                                                     */
  /* ---------------------------------------------------------------- */

  lemma FoundClient(trace: seq<Item>, s: SocketId, r: RoomId, expiresAt: nat, now: nat, mode: MatchMode)
    requires !Terminal(Client(trace, s))
    ensures var c := Client(trace + [Sent(s, MatchFound(r, expiresAt, now, mode), now)], s);
      c.roomId == Some(r) && (c.status == Offered || c.status == StartingCall)
  {
    ClientHears(trace, s, MatchFound(r, expiresAt, now, mode), now);
    HearsFound(Client(trace, s), r, expiresAt, now, mode, now);
  }

  /** Both members of a new room see it. */
  lemma FoundClients(trace: seq<Item>, st: State, a: SocketId, b: SocketId, room: Room, env: Env)
    requires a in st.sessions && b in st.sessions && a != b
    requires !Terminal(Client(trace, a)) && !Terminal(Client(trace, b))
    ensures forall s :: s == a || s == b ==>
      var c := Client(trace + FoundNews(st, a, b, room, env), s);
      c.roomId == Some(st.nextRoom) && (c.status == Offered || c.status == StartingCall)
  {
    var news := FoundNews(st, a, b, room, env);
    var one, last := trace + [news[0]], news[2..];
    FoundClient(trace, a, st.nextRoom, room.expiresAt, env.now, news[0].event.mode);
    ClientOfOthers(trace, [news[0]], b);
    FoundClient(one, b, st.nextRoom, room.expiresAt, env.now, news[1].event.mode);
    ClientOfOthers(one, [news[1]], a);
    assert trace + news == (one + [news[1]]) + last;
    StillNews(one + [news[1]], last, a);
    StillNews(one + [news[1]], last, b);
  }

  lemma ActivateAgrees(st: State, r: RoomId, room: Room, now: nat)
    requires Agree(st, {})
    ensures Agree(ActivateRoom(st, r, room, now), {})
  {
    var st' := ActivateRoom(st, r, room, now);
    forall s | s in st'.sessions ensures Seated(Client(st'.out, s), st'.sessions[s]) {
      assert Seated(Client(st.out, s), st.sessions[s]);
    }
  }

  lemma StoreRoomAgrees(st: State, a: SocketId, b: SocketId, env: Env)
    requires Agree(st, {}) && Pairable(st, a, b)
    ensures var room := NewRoom(st, a, b, env); Agree(StoreRoom(st, a, b, room, FoundNews(st, a, b, room, env)), {})
  {
    var room := NewRoom(st, a, b, env);
    var news := FoundNews(st, a, b, room, env);
    var st' := StoreRoom(st, a, b, room, news);
    assert Seated(Client(st.out, a), st.sessions[a]) && Seated(Client(st.out, b), st.sessions[b]);
    FoundClients(st.out, st, a, b, room, env);
    forall s | s in st'.sessions ensures Seated(Client(st'.out, s), st'.sessions[s]) {
      if s != a && s != b {
        ClientOfOthers(st.out, news, s);
        assert st'.sessions[s] == st.sessions[s];
      }
    }
  }

  lemma CreateRoomAgrees(st: State, a: SocketId, b: SocketId, env: Env)
    requires Agree(st, {}) && Pairable(st, a, b)
    ensures Agree(CreateRoom(st, a, b, env), {})
  {
    var room := NewRoom(st, a, b, env);
    StoreRoomAgrees(st, a, b, env);
    if room.acceptedA && room.acceptedB {
      ActivateAgrees(StoreRoom(st, a, b, room, FoundNews(st, a, b, room, env)), st.nextRoom, room, env.now);
    }
  }

  lemma {:induction false} CreateRoomsAgree(st: State, waiting: seq<Waiter>, pairs: seq<Pairing>, env: Env)
    requires Agree(st, {}) && Inv(st) && Loaded(st, waiting) && Creatable(waiting, pairs)
    ensures Agree(CreateRooms(st, waiting, pairs, env), {})
  {
    if pairs != [] {
      var n := |pairs| - 1;
      LastPairIsFree(waiting, pairs);
      CreateRoomsAgree(st, waiting, pairs[..n], env);
      CreateRoomsKeeps(st, waiting, pairs[..n], env);
      var before := CreateRooms(st, waiting, pairs[..n], env);
      LastRoomKeeps(before, waiting, pairs, env);
      CreateRoomAgrees(before, waiting[pairs[n].i].socket, waiting[pairs[n].j].socket, env);
    }
  }

  lemma RunScanAgrees(st: State, waiting: seq<Waiter>, focus: Option<set<SocketId>>, env: Env)
    requires Agree(st, {}) && Inv(st) && Loaded(st, waiting)
    ensures Agree(RunScan(st, waiting, focus, env), {})
  {
    var bd := MakeBoard(st, waiting, focus, env);
    var scan := Scan(bd, 0, {}, st.wakeAt);
    ScanIsCreatable(bd, st.wakeAt);
    var woken := st.(wakeAt := scan.wake);
    assert SameStory(st, woken) && Agree(woken, {});
    CreateRoomsAgree(woken, waiting, scan.pairs, env);
  }

  lemma PassOverAgrees(st: State, mode: PassMode, waiting: seq<Waiter>, env: Env)
    requires Agree(st, {}) && Inv(st) && waiting == LoadWaiting(st.queue, st.sessions) && |waiting| > 0
    ensures Agree(PassOver(st, mode, waiting, env), {})
  {
    QueueIsLoaded(st);
    var pruned := Pruned(st, mode, waiting);
    assert SameStory(st, pruned) && Agree(pruned, {});
    if mode == RecheckPass {
      var slice := RecheckSlice(|waiting|, st.cfg.recheckPairBudget, st.recheckCursor);
      var moved := pruned.(recheckCursor := slice.cursor);
      assert Agree(moved, {});
      RunScanAgrees(moved, waiting, Some(st.dirty + SliceSockets(waiting, slice)), env);
    } else {
      RunScanAgrees(pruned, waiting, if mode == WholePass then None else Some(st.dirty), env);
    }
  }

  lemma MatchPassAgrees(st: State, mode: PassMode, env: Env)
    requires Agree(st, {}) && Inv(st)
    ensures Agree(MatchPass(st, mode, env), {})
  {
    if !env.open {
    } else if (mode == DirtyPass && st.dirty == {}) || |st.queue| < 2 {
      assert Agree(st.(dirty := {}), {});
    } else {
      QueueIsLoaded(st);
      var waiting := LoadWaiting(st.queue, st.sessions);
      PassOverAgrees(st, mode, waiting, env);
    }
  }

  /* ---------------------------------------------------------------- */
  /* Events                                                            */
  /* ---------------------------------------------------------------- */

  lemma EndAndMatchAgrees(st: State, r: RoomId, s: SocketId, mine: EndReason, theirs: EndReason, env: Env)
    requires Agree(st, {}) && Inv(st) && r in st.rooms
    ensures Agree(MatchPass(EndRoomOf(st, r, s, Some(mine), Some(theirs), env), DirtyPass, env), {})
  {
    EndRoomOfKeeps(st, r, s, mine, theirs, env);
    var (reasonA, reasonB) := ReasonsFor(st.rooms[r], s, Some(mine), Some(theirs));
    EndRoomAgrees(st, r, reasonA, reasonB, env, {});
    MatchPassAgrees(EndRoomOf(st, r, s, Some(mine), Some(theirs), env), DirtyPass, env);
  }

  lemma BlockEndAndMatchAgrees(st: State, r: RoomId, s: SocketId, durationMs: nat, escalate: bool,
                               mine: EndReason, theirs: EndReason, env: Env)
    requires Agree(st, {}) && Inv(st) && r in st.rooms
    ensures var blocked := BlockPair(st, st.rooms[r].deviceA, st.rooms[r].deviceB, durationMs, escalate, env.now);
      r in blocked.rooms && Agree(MatchPass(EndRoomOf(blocked, r, s, Some(mine), Some(theirs), env), DirtyPass, env), {})
  {
    BlockedKeeps(st, r, durationMs, escalate, env.now);
    var blocked := BlockPair(st, st.rooms[r].deviceA, st.rooms[r].deviceB, durationMs, escalate, env.now);
    assert Agree(blocked, {});
    EndAndMatchAgrees(blocked, r, s, mine, theirs, env);
  }

  /** The client of a socket that is told something it stays put on. */
  lemma EmitAgrees(st: State, s: SocketId, e: ServerEvent, now: nat)
    requires Agree(st, {}) && IsStill(Sent(s, e, now))
    ensures Agree(Emit(st, s, e, now), {})
  {
    StillStepKeeps(st, Emit(st, s, e, now), [Sent(s, e, now)], {});
  }

  /** A hello whose session is stored leaves only a brand-new session's client behind. */
  lemma HelloStoredAgrees(st: State, s: SocketId, p: HelloPayload, env: Env)
    requires Agree(st, {}) && Inv(st)
    ensures Agree(HelloStored(st, s, p, env), if s in st.sessions then {} else {s})
    ensures s in HelloStored(st, s, p, env).sessions
    ensures s !in st.sessions ==> HelloStored(st, s, p, env).sessions[s].state == Idle
    ensures s !in st.sessions ==> Client(HelloStored(st, s, p, env).out, s) == Client(st.out, s)
  {
    var st' := HelloStored(st, s, p, env);
    if s in st.sessions {
      forall x | x in st'.sessions ensures Seated(Client(st'.out, x), st'.sessions[x]) {
        assert Seated(Client(st.out, x), st.sessions[x]);
      }
    } else {
      var retired := RetirePrevious(st, s, p.device, env);
      assert Agree(retired, {}) && Client(retired.out, s) == Client(st.out, s) by {
        if p.device in st.devices && st.devices[p.device] != s {
          ReplaceAgrees(st, st.devices[p.device], env);
          ReplaceTellsOthers(st, st.devices[p.device], s, env);
        }
      }
      forall x | x in st'.sessions && x !in {s} ensures Seated(Client(st'.out, x), st'.sessions[x]) {
        assert Seated(Client(retired.out, x), retired.sessions[x]);
      }
    }
  }

  /** Retiring another socket says nothing to one that has no session. */
  lemma ReplaceTellsOthers(st: State, previous: SocketId, s: SocketId, env: Env)
    requires Inv(st) && previous in st.sessions && s !in st.sessions
    ensures Client(Replace(st, previous, env).out, s) == Client(st.out, s)
  {
    var told := Emit(st, previous, SessionReplaced, env.now);
    ClientOfOthers(st.out, [Sent(previous, SessionReplaced, env.now)], s);
    var roomId := told.sessions[previous].roomId;
    if roomId.Some? && MemberOf(told, previous, roomId.value) {
      var room := told.rooms[roomId.value];
      assert RoomOk(st.sessions, roomId.value, room);
      var (reasonA, reasonB) := ReasonsFor(room, previous, None, Some(PartnerUnavailable));
      var deleted := RoomDeleted(told, roomId.value);
      FreeMemberTells(deleted, roomId.value, room.a, reasonA, env, s);
      FreeMemberFrame(deleted, roomId.value, room.a, reasonA, env);
      FreeMemberTells(FreeMember(deleted, roomId.value, room.a, reasonA, env), roomId.value, room.b, reasonB, env, s);
    }
  }

  /** Freeing a member tells that member alone. */
  lemma FreeMemberTells(st: State, r: RoomId, s: SocketId, reason: Option<EndReason>, env: Env, other: SocketId)
    requires s in st.sessions && other != s
    ensures Client(FreeMember(st, r, s, reason, env).out, other) == Client(st.out, other)
  {
    if reason.Some? {
      var told := Emit(st, s, MatchEnded(r, reason.value), env.now);
      ClientOfOthers(st.out, [Sent(s, MatchEnded(r, reason.value), env.now)], other);
      var device := st.sessions[s].who.deviceId;
      var capped := reason.value != AcceptTimeout && device in env.capped;
      if st.sessions[s].roomId != Some(r) {
        assert FreeMember(st, r, s, reason, env) == told;
      } else if reason.value == AcceptTimeout || capped || device in env.banned {
        assert FreeMember(st, r, s, reason, env) == LeaveIdle(told, s, capped, env.now);
        ClientOfOthers(told.out, if capped then [Sent(s, ServerError(RateLimited), env.now)] else [], other);
      } else {
        assert FreeMember(st, r, s, reason, env) == Enqueue(told, s, None, env);
        ClientOfOthers(told.out, EnqueueNews(s, NeedsPremium(told.sessions[s].who, env), env.now), other);
      }
    }
  }

  lemma HelloAckedClient(st: State, s: SocketId, filter: GenderFilter, now: nat)
    requires !Terminal(Client(st.out, s))
    ensures var c, c' := Client(st.out, s), Client(HelloAcked(st, s, filter, now).out, s);
      c'.roomId == c.roomId && !Terminal(c')
      && c'.status == (if c.status == Connecting || c.status == Failed || c.status == IdleOut then Searching else c.status)
  {
    var one := st.out + [Sent(s, HelloAccepted(filter), now)];
    assert HelloAcked(st, s, filter, now).out == one + [Sent(s, WalletUpdate, now)];
    ClientHears(st.out, s, HelloAccepted(filter), now);
    HearsAcceptance(Client(st.out, s), filter, now);
    StillNews(one, [Sent(s, WalletUpdate, now)], s);
  }

  lemma HelloAcceptedAgrees(st: State, s: SocketId, p: HelloPayload, answers: HelloAnswers, env: Env)
    requires Agree(st, {}) && Inv(st) && !Terminal(Client(st.out, s)) && HelloRefusal(st, s, p, answers, env) == None
    ensures Agree(HelloStep(st, s, p, answers, env), {})
  {
    var filter := HelloWho(p, env).preferences.genderFilter;
    HelloStoredKeeps(st, s, p, env);
    HelloStoredAgrees(st, s, p, env);
    var stored := HelloStored(st, s, p, env);
    var acked := HelloAcked(stored, s, filter, env.now);
    assert s in st.sessions ==> stored.out == st.out;
    HelloAckedAgrees(stored, s, filter, env.now, if s in st.sessions then {} else {s});
    assert SameStory(stored, acked) && Inv(acked);
    var session := acked.sessions[s];
    if session.state == Idle || session.state == Waiting {
      AdmittedAgrees(acked, s, if session.state == Waiting then session.waitingSince else None, env);
    }
  }

  lemma HelloAckedAgrees(stored: State, s: SocketId, filter: GenderFilter, now: nat, but: set<SocketId>)
    requires Agree(stored, but) && but <= {s} && s in stored.sessions && !Terminal(Client(stored.out, s))
    requires s in but ==> stored.sessions[s].state == Idle
    ensures var acked := HelloAcked(stored, s, filter, now);
      && !Terminal(Client(acked.out, s)) && Agree(acked, {s})
      && (stored.sessions[s].state != Idle && stored.sessions[s].state != Waiting ==> Agree(acked, {}))
  {
    var acked := HelloAcked(stored, s, filter, now);
    HelloAckedClient(stored, s, filter, now);
    OneMoves(stored, acked, s, [Sent(s, HelloAccepted(filter), now), Sent(s, WalletUpdate, now)], but);
    assert but + {s} == {s} && but - {s} == {};
    if s !in but {
      assert Seated(Client(stored.out, s), stored.sessions[s]);
    }
  }

  lemma AdmittedAgrees(acked: State, s: SocketId, since: Option<nat>, env: Env)
    requires Agree(acked, {s}) && Inv(acked) && s in acked.sessions && !Terminal(Client(acked.out, s))
    requires acked.sessions[s].state == Idle || acked.sessions[s].state == Waiting
    ensures Agree(MatchPass(Enqueue(acked, s, since, env), DirtyPass, env), {})
  {
    assert SessionOk(acked.rooms, s, acked.sessions[s]);
    RoomlessIsUnroomed(acked.sessions, acked.rooms, s);
    EnqueueKeeps(acked, s, since, env, {});
    EnqueueAgrees(acked, s, since, env, {s});
    assert {s} - {s} == {};
    MatchPassAgrees(Enqueue(acked, s, since, env), DirtyPass, env);
  }

  /** A refused hello clears the client's room whatever the server still holds. */
  lemma RefusedClient(st: State, s: SocketId, error: ErrorCode, now: nat)
    requires !Terminal(Client(st.out, s))
    ensures var c := Client(Emit(st, s, HelloRefused(error), now).out, s);
      c.roomId == None && c.status == (if error == Banned then BannedOut else Failed)
  {
    ClientHears(st.out, s, HelloRefused(error), now);
    HearsRefusal(Client(st.out, s), error, now);
  }

  /**
   * The one way out of agreement: a refused hello on a socket whose session has
   * a room, or a ban that reaches a socket whose session is queued.
   */
  predicate Disrupts(st: State, ev: Event, env: Env) {
    ev.Hello? && ev.s in st.sessions
    && var refusal := HelloRefusal(st, ev.s, ev.payload, ev.answers, env);
      refusal.Some? && (st.sessions[ev.s].roomId.Some? || (refusal.value == Banned && st.sessions[ev.s].state != Idle))
  }

  /** A refusal told to a socket with a session. */
  lemma RefusedSession(st: State, st': State, s: SocketId, error: ErrorCode, now: nat)
    requires Agree(st, {}) && s in st.sessions && !Terminal(Client(st.out, s))
    requires SessionOk(st.rooms, s, st.sessions[s]) && st' == Emit(st, s, HelloRefused(error), now)
    ensures Agree(st', {}) <==> st.sessions[s].roomId == None && (error == Banned ==> st.sessions[s].state == Idle)
  {
    RefusedClient(st, s, error, now);
    OneMoves(st, st', s, [Sent(s, HelloRefused(error), now)], {});
    assert {} - {s} == {};
    if Agree(st', {}) {
      assert Seated(Client(st'.out, s), st'.sessions[s]);
    }
  }

  lemma HelloRefusedAgrees(st: State, s: SocketId, p: HelloPayload, answers: HelloAnswers, env: Env)
    requires Agree(st, {}) && Inv(st) && !Terminal(Client(st.out, s)) && HelloRefusal(st, s, p, answers, env).Some?
    ensures Agree(HelloStep(st, s, p, answers, env), {}) <==> !Disrupts(st, Hello(s, p, answers), env)
  {
    var error := HelloRefusal(st, s, p, answers, env).value;
    var st' := Emit(st, s, HelloRefused(error), env.now);
    if s in st.sessions {
      assert SessionOk(st.rooms, s, st.sessions[s]);
      RefusedSession(st, st', s, error, env.now);
    } else {
      UnknownSocketTold(st, st', s, HelloRefused(error), env.now);
    }
  }

  lemma UnknownSocketTold(st: State, st': State, s: SocketId, e: ServerEvent, now: nat)
    requires Agree(st, {}) && s !in st.sessions && st' == Emit(st, s, e, now)
    ensures Agree(st', {})
  {
    forall x | x in st'.sessions ensures Seated(Client(st'.out, x), st'.sessions[x]) {
      ClientOfOthers(st.out, [Sent(s, e, now)], x);
    }
  }

  lemma UpdatePreferencesAgrees(st: State, s: SocketId, preferences: Preferences, env: Env)
    requires Agree(st, {}) && Inv(st)
    ensures Agree(UpdatePreferencesStep(st, s, preferences, env), {})
  {
    if s in st.sessions {
      var session := st.sessions[s];
      var who := session.who.(preferences := preferences);
      if !NeedsPremium(who, env) && session.who.preferences != preferences {
        var stored := st.(sessions := st.sessions[s := session.(who := who)]);
        var acked := Emit(stored, s, PreferencesSaved(preferences.genderFilter), env.now);
        PreferencesStored(st, stored, s, who, preferences.genderFilter, env.now);
        if session.state == Waiting {
          MatchPassAgrees(acked.(dirty := acked.dirty + {s}), DirtyPass, env);
        }
      }
    }
  }

  lemma PreferencesStored(st: State, stored: State, s: SocketId, who: Candidate, filter: GenderFilter, now: nat)
    requires Agree(st, {}) && Inv(st) && s in st.sessions && who.deviceId == st.sessions[s].who.deviceId
    requires stored == st.(sessions := st.sessions[s := st.sessions[s].(who := who)])
    ensures var acked := Emit(stored, s, PreferencesSaved(filter), now);
      var marked := acked.(dirty := acked.dirty + {s});
      Agree(acked, {}) && Inv(marked) && Agree(marked, {})
  {
    RewriteKeeps(st, s, who, st.sessions[s].mode);
    RewrittenAgrees(st, stored, s);
    EmitAgrees(stored, s, PreferencesSaved(filter), now);
    var acked := Emit(stored, s, PreferencesSaved(filter), now);
    var marked := acked.(dirty := acked.dirty + {s});
    assert SameStory(stored, marked);
    StillStepKeeps(acked, marked, [], {});
  }

  lemma RewrittenAgrees(st: State, stored: State, s: SocketId)
    requires Agree(st, {}) && s in st.sessions && s in stored.sessions && stored.out == st.out
    requires stored.sessions == st.sessions[s := st.sessions[s].(who := stored.sessions[s].who)]
    ensures Agree(stored, {})
  {
    forall x | x in stored.sessions ensures Seated(Client(stored.out, x), stored.sessions[x]) {
      assert Seated(Client(st.out, x), st.sessions[x]);
    }
  }

  lemma AcceptAgrees(st: State, s: SocketId, r: RoomId, env: Env)
    requires Agree(st, {}) && Inv(st)
    ensures Agree(AcceptStep(st, s, r, env), {})
  {
    if MemberOf(st, s, r) && !st.rooms[r].active {
      var room := st.rooms[r];
      if env.now > room.expiresAt + st.cfg.matchAcceptGraceMs {
        EmitAgrees(st, s, ServerError(NotInRoom), env.now);
      } else if !HasAccepted(room, s) {
        AcceptedAgrees(st, s, r, env);
      }
    }
  }

  lemma AcceptedAgrees(st: State, s: SocketId, r: RoomId, env: Env)
    requires Agree(st, {}) && r in st.rooms
    ensures var room' := AcceptedBy(st.rooms[r], s);
      Agree(if room'.acceptedA && room'.acceptedB then ActivateRoom(st, r, room', env.now)
            else Emit(st.(rooms := st.rooms[r := room']), Partner(st.rooms[r], s), PartnerAccepted(r), env.now), {})
  {
    var room' := AcceptedBy(st.rooms[r], s);
    if room'.acceptedA && room'.acceptedB {
      ActivateAgrees(st, r, room', env.now);
    } else {
      var stored := st.(rooms := st.rooms[r := room']);
      StillStepKeeps(st, stored, [], {});
      EmitAgrees(stored, Partner(st.rooms[r], s), PartnerAccepted(r), env.now);
    }
  }

  lemma ReportAgrees(st: State, s: SocketId, r: RoomId, target: (DeviceId, DeviceId), env: Env)
    requires Agree(st, {}) && Inv(st)
    ensures Agree(ReportStep(st, s, r, target, env), {})
  {
    if MemberOf(st, s, r) {
      BlockEndAndMatchAgrees(st, r, s, st.cfg.reportBlockMs, false, Reported, PartnerSkipped, env);
    } else {
      StillStepKeeps(st, ReportStep(st, s, r, target, env), [], {});
    }
  }

  lemma SidelineAgrees(st: State, s: SocketId, env: Env)
    requires Agree(st, {}) && Inv(st) && s in st.sessions
    ensures Agree(Sideline(st, s, env), {})
  {
    var roomId := st.sessions[s].roomId;
    EndRestrictedKeeps(st, s, env);
    var ended := EndRestrictedRoom(st, s, env);
    if roomId.Some? {
      RoomedIsMember(st, s);
      var (reasonA, reasonB) := ReasonsFor(st.rooms[roomId.value], s, Some(Restricted), Some(PartnerSkipped));
      EndRoomAgrees(st, roomId.value, reasonA, reasonB, env, {});
    }
    UnroomedHasNoRoom(ended, s);
    MadeIdleAgrees(ended, Sideline(st, s, env), s);
  }

  lemma MadeIdleAgrees(st: State, st': State, s: SocketId)
    requires Agree(st, {}) && s in st.sessions && st.sessions[s].roomId == None
    requires st'.sessions == MadeIdle(st.sessions, s) && st'.out == st.out
    ensures Agree(st', {})
  {
    forall x | x in st'.sessions ensures Seated(Client(st'.out, x), st'.sessions[x]) {
      assert Seated(Client(st.out, x), st.sessions[x]);
    }
  }

  lemma UnroomedHasNoRoom(st: State, s: SocketId)
    requires Inv(st) && s in st.sessions && Unroomed(st.rooms, s)
    ensures st.sessions[s].roomId == None
  {
    assert SessionOk(st.rooms, s, st.sessions[s]);
  }

  lemma RestrictAgrees(st: State, device: DeviceId, blocking: bool, env: Env)
    requires Agree(st, {}) && Inv(st)
    ensures Agree(RestrictStep(st, device, blocking, env), {})
  {
    if device in st.devices && st.devices[device] in st.sessions {
      var s := st.devices[device];
      var side := if blocking then Sideline(st, s, env) else st;
      assert Inv(side) && Agree(side, {}) by {
        if blocking {
          EndRestrictedKeeps(st, s, env);
          SidelinedKeeps(EndRestrictedRoom(st, s, env), s);
          SidelineAgrees(st, s, env);
        }
      }
      var told := Emit(side, s, SessionRestricted, env.now);
      EmitAgrees(side, s, SessionRestricted, env.now);
      assert SameStory(side, told) && Inv(told);
      MatchPassAgrees(told, DirtyPass, env);
    }
  }

  lemma DisconnectAgrees(st: State, s: SocketId, env: Env)
    requires Agree(st, {}) && Inv(st)
    ensures Agree(DisconnectStep(st, s, env), {})
  {
    var forgotten := Forget(st, s);
    assert SameStory(st, forgotten) && Inv(forgotten) && Agree(forgotten, {});
    if s in st.sessions {
      RemoveSessionAgrees(forgotten, s, PartnerLeft, env, {});
      RemoveIfPresentKeeps(forgotten, s, PartnerLeft, env);
      MatchPassAgrees(RemoveSession(forgotten, s, PartnerLeft, env), DirtyPass, env);
    }
  }

  lemma {:induction false} RemoveAllAgrees(st: State, sockets: seq<SocketId>, env: Env)
    requires Agree(st, {}) && Inv(st)
    ensures Agree(RemoveAll(st, sockets, env), {})
  {
    if sockets != [] {
      var n := |sockets| - 1;
      RemoveAllAgrees(st, sockets[..n], env);
      RemoveAllKeeps(st, sockets[..n], env);
      RemoveSessionAgrees(RemoveAll(st, sockets[..n], env), sockets[n], PartnerUnavailable, env, {});
    }
  }

  lemma ShutdownAgrees(st: State, locals: seq<SocketId>, env: Env)
    requires Agree(st, {}) && Inv(st)
    ensures Agree(ShutdownStep(st, locals, env), {})
  {
    if !st.stopped {
      var stopped := st.(stopped := true);
      assert SameStory(st, stopped) && Inv(stopped) && Agree(stopped, {});
      RemoveAllAgrees(stopped, locals, env);
      RemoveAllKeeps(stopped, locals, env);
      MatchPassAgrees(RemoveAll(stopped, locals, env), DirtyPass, env);
      StillStepKeeps(MatchPass(RemoveAll(stopped, locals, env), DirtyPass, env), ShutdownStep(st, locals, env), [], {});
    }
  }

  lemma {:induction false} RemoveGhostsAgrees(st: State, ghosts: seq<SocketId>, env: Env)
    requires Agree(st, {}) && Inv(st)
    ensures Agree(RemoveGhosts(st, ghosts, env), {})
  {
    if ghosts != [] {
      var n := |ghosts| - 1;
      RemoveGhostsAgrees(st, ghosts[..n], env);
      RemoveGhostsKeeps(st, ghosts[..n], env);
      var before := RemoveGhosts(st, ghosts[..n], env);
      var forgotten := Forget(before, ghosts[n]);
      assert SameStory(before, forgotten) && Inv(forgotten) && Agree(forgotten, {});
      RemoveSessionAgrees(forgotten, ghosts[n], PartnerLeft, env, {});
    }
  }

  lemma ExpireRoomAgrees(st: State, r: RoomId, env: Env)
    requires Agree(st, {}) && Inv(st)
    ensures Agree(ExpireRoom(st, r, env), {})
  {
    if r in st.rooms && !st.rooms[r].active {
      var room := st.rooms[r];
      var blocked := BlockPair(st, room.deviceA, room.deviceB, st.cfg.declineBlockMs, false, env.now);
      BlockedKeeps(st, r, st.cfg.declineBlockMs, false, env.now);
      assert Agree(blocked, {});
      EndRoomAgrees(blocked, r, ExpiredReason(room.acceptedA), ExpiredReason(room.acceptedB), env, {});
    }
  }

  lemma {:induction false} ExpireRoomsAgrees(st: State, expired: seq<RoomId>, env: Env)
    requires Agree(st, {}) && Inv(st)
    ensures Agree(ExpireRooms(st, expired, env), {})
  {
    if expired != [] {
      var n := |expired| - 1;
      ExpireRoomsAgrees(st, expired[..n], env);
      ExpireRoomsKeeps(st, expired[..n], env);
      ExpireRoomAgrees(ExpireRooms(st, expired[..n], env), expired[n], env);
    }
  }

  lemma StepToldClient(trace: seq<Item>, s: SocketId, step: nat, now: nat)
    requires !Terminal(Client(trace, s))
    ensures var c := Client(trace + [Sent(s, QueueWaiting(step), now)], s); c.roomId == None && c.status == Searching
  {
    ClientHears(trace, s, QueueWaiting(step), now);
    HearsWaiting(Client(trace, s), step, now);
  }

  lemma RelaxOneFrame(st: State, s: SocketId, now: nat)
    ensures var st' := RelaxOne(st, s, now);
      && st'.sessions == st.sessions
      && (st'.out == st.out
          || (s in st.sessions && st.sessions[s].state == Waiting
              && exists step: nat :: st'.out == st.out + [Sent(s, QueueWaiting(step), now)]))
  {
    if s in st.relaxing {
      var entry := st.relaxing[s];
      var step := RelaxStep(now - entry.since, st.cfg.ladder, entry.low);
      var told := Sent(s, QueueWaiting(Max(0, step)), now);
      assert RelaxOne(st, s, now).out == st.out || RelaxOne(st, s, now).out == st.out + [told];
    }
  }

  /** A client told its ladder step is waiting and stays so. */
  lemma RelaxOneAgrees(st: State, s: SocketId, now: nat)
    requires Agree(st, {}) && Inv(st)
    ensures Agree(RelaxOne(st, s, now), {})
  {
    var st' := RelaxOne(st, s, now);
    RelaxOneFrame(st, s, now);
    if st'.out == st.out {
      assert Agree(st', {});
    } else {
      var step: nat :| st'.out == st.out + [Sent(s, QueueWaiting(step), now)];
      SearchToldAgrees(st, st', s, step, now);
    }
  }

  lemma SearchToldAgrees(st: State, st': State, s: SocketId, step: nat, now: nat)
    requires Agree(st, {}) && SessionsOk(st.sessions, st.rooms, {}) && s in st.sessions && st.sessions[s].state == Waiting
    requires st'.sessions == st.sessions && st'.out == st.out + [Sent(s, QueueWaiting(step), now)]
    ensures Agree(st', {})
  {
    assert SessionOk(st.rooms, s, st.sessions[s]) && Seated(Client(st.out, s), st.sessions[s]);
    StepToldClient(st.out, s, step, now);
    QueuedSeat(Client(st'.out, s), st'.sessions[s]);
    OneMoves(st, st', s, [Sent(s, QueueWaiting(step), now)], {});
    assert {} - {s} == {};
  }

  lemma {:induction false} RelaxTickAgrees(st: State, order: seq<SocketId>, now: nat)
    requires Agree(st, {}) && Inv(st)
    ensures Agree(RelaxTick(st, order, now), {})
  {
    if order != [] {
      var rest := order[..|order| - 1];
      RelaxTickAgrees(st, rest, now);
      RelaxTickSameStory(st, rest, now);
      RelaxOneAgrees(RelaxTick(st, rest, now), order[|order| - 1], now);
    }
  }

  lemma SweepAgrees(st: State, input: SweepInput, env: Env)
    requires Agree(st, {}) && Inv(st)
    ensures Agree(SweepStep(st, input, env), {})
  {
    var marked := st.(lastReapAt := env.now);
    assert SameStory(st, marked) && Inv(marked) && Agree(marked, {});
    RemoveGhostsAgrees(marked, input.ghosts, env);
    RemoveGhostsKeeps(marked, input.ghosts, env);
    var reaped := Reaped(st, input.ghosts, env);
    assert Agree(reaped, {}) && Inv(reaped);
    ExpireRoomsAgrees(reaped, input.expired, env);
    ExpireRoomsKeeps(reaped, input.expired, env);
    var expired := ExpireRooms(reaped, input.expired, env);
    var timed := WakeLapsed(expired, env.now).(lastRecheckAt := if RecheckDue(st, env) then env.now else st.lastRecheckAt);
    assert SameStory(expired, timed) && Inv(timed) && Agree(timed, {});
    RelaxTickAgrees(timed, input.order, env.now);
    SweepPreparedKeeps(st, input, env);
    MatchPassAgrees(SweepPrepared(st, input, env), if RecheckDue(st, env) then RecheckPass else DirtyPass, env.(now := input.passAt));
  }

  /** call:start finds its two clients still in the room it names. */
  lemma StartCallAgrees(st: State, task: nat, ready: bool, env: Env)
    requires Agree(st, {}) && Inv(st) && Orderly(st)
    ensures var st' := StartCallStep(st, task, ready, env);
      && Agree(st', {})
      && (st'.out != st.out ==>
            task < |st.calls| && Client(st'.out, st.calls[task].a).status == InCall && Client(st'.out, st.calls[task].b).status == InCall)
  {
    var st' := StartCallStep(st, task, ready, env);
    if st'.out == st.out {
      StillStepKeeps(st, st', [], {});
    } else {
      var t := st.calls[task];
      assert TaskOk(st.out, st.rooms, st.nextRoom, t);
      assert RoomOk(st.sessions, t.room, st.rooms[t.room]);
      BothStarted(st, st.(calls := st'.calls), t, env.now);
    }
  }

  lemma BothStarted(st: State, taken: State, t: CallTask, now: nat)
    requires Agree(st, {}) && SessionsOk(st.sessions, st.rooms, {}) && taken == st.(calls := taken.calls)
    requires t.room in st.rooms && st.rooms[t.room].active && t.a != t.b
    requires PointsBack(st.sessions, t.room, t.a, st.rooms[t.room].deviceA) && PointsBack(st.sessions, t.room, t.b, st.rooms[t.room].deviceB)
    ensures var st' := Emit(Emit(taken, t.a, CallStart(t.room, true), now), t.b, CallStart(t.room, false), now);
      Agree(st', {}) && Client(st'.out, t.a).status == InCall && Client(st'.out, t.b).status == InCall
  {
    var one := Emit(taken, t.a, CallStart(t.room, true), now);
    var two := Emit(one, t.b, CallStart(t.room, false), now);
    StartedAgrees(st, one, t.a, t.room, true, now);
    ClientOfOthers(one.out, [Sent(t.b, CallStart(t.room, false), now)], t.a);
    StartedAgrees(one, two, t.b, t.room, false, now);
  }

  lemma StartedAgrees(st: State, st': State, s: SocketId, r: RoomId, initiator: bool, now: nat)
    requires Agree(st, {}) && s in st.sessions && st.sessions[s].roomId == Some(r)
    requires SessionsOk(st.sessions, st.rooms, {}) && r in st.rooms && st.rooms[r].active
    requires st'.sessions == st.sessions && st'.out == st.out + [Sent(s, CallStart(r, initiator), now)]
    ensures Agree(st', {}) && Client(st'.out, s).status == InCall
  {
    assert SessionOk(st.rooms, s, st.sessions[s]) && Seated(Client(st.out, s), st.sessions[s]);
    ClientHears(st.out, s, CallStart(r, initiator), now);
    HearsStart(Client(st.out, s), r, initiator, now);
    OneMoves(st, st', s, [Sent(s, CallStart(r, initiator), now)], {});
    assert {} - {s} == {};
  }

  /** A user can only move an offered match to a starting call. */
  lemma ActMovesLittle(c: ClientState, act: ClientAct)
    ensures SamePlace(c, Do(c, act)) || (c.status == Offered && Do(c, act).status == StartingCall && Do(c, act).roomId == c.roomId)
  {
    if act != PressAccept {
      StillAct(c, act);
    }
  }

  lemma ActAgrees(st: State, s: SocketId, act: ClientAct)
    requires Agree(st, {})
    ensures Agree(st.(out := st.out + [Acted(s, act)]), {})
  {
    var st' := st.(out := st.out + [Acted(s, act)]);
    forall x | x in st'.sessions ensures Seated(Client(st'.out, x), st'.sessions[x]) {
      assert Seated(Client(st.out, x), st.sessions[x]);
      ClientSnoc(st.out, Acted(s, act), x);
      ActMovesLittle(Client(st.out, x), act);
    }
  }

  lemma DeclineAgrees(st: State, s: SocketId, r: RoomId, env: Env)
    requires Agree(st, {}) && Inv(st)
    ensures Agree(DeclineStep(st, s, r, env), {})
  {
    if MemberOf(st, s, r) && !st.rooms[r].active {
      BlockEndAndMatchAgrees(st, r, s, st.cfg.declineBlockMs, false, Declined, PartnerDeclined, env);
    }
  }

  lemma SkipAgrees(st: State, s: SocketId, only: Option<RoomId>, env: Env)
    requires Agree(st, {}) && Inv(st)
    ensures Agree(SkipStep(st, s, only, env), {})
  {
    if s in st.sessions && st.sessions[s].roomId.Some? && MemberOf(st, s, st.sessions[s].roomId.value) {
      BlockEndAndMatchAgrees(st, st.sessions[s].roomId.value, s, 0, true, Skipped, PartnerSkipped, env);
    }
  }

  lemma CallFailedAgrees(st: State, s: SocketId, r: RoomId, env: Env)
    requires Agree(st, {}) && Inv(st)
    ensures Agree(CallFailedStep(st, s, r, env), {})
  {
    if MemberOf(st, s, r) && st.rooms[r].active {
      BlockEndAndMatchAgrees(st, r, s, st.cfg.declineBlockMs, false, ConnectionFailed, ConnectionFailed, env);
    }
  }

  /** The events of a member's own room. */
  lemma RoomEventsAgree(st: State, ev: Event, env: Env)
    requires Agree(st, {}) && Inv(st) && Orderly(st)
    requires ev.Accept? || ev.Connected? || ev.Report? || ev.StartCall? || ev.Aside? || ev.Act?
    ensures Agree(Step(st, ev, env), {})
  {
    match ev
    case Accept(s, r) => AcceptAgrees(st, s, r, env);
    case Connected(s, r) => StillStepKeeps(st, ConnectedStep(st, s, r, env), [], {});
    case Report(s, r, target) => ReportAgrees(st, s, r, target, env);
    case StartCall(task, ready) => StartCallAgrees(st, task, ready, env);
    case Aside(s, e) => if IsAside(e) { EmitAgrees(st, s, e, env.now); }
    case Act(s, act) => ActAgrees(st, s, act);
  }

  /** Every event but a hello keeps the agreement. */
  lemma OthersAgree(st: State, ev: Event, env: Env)
    requires Agree(st, {}) && Inv(st) && Orderly(st) && !ev.Hello?
    ensures Agree(Step(st, ev, env), {})
  {
    match ev
    case UpdatePreferences(s, preferences) => UpdatePreferencesAgrees(st, s, preferences, env);
    case Restrict(device, blocking) => RestrictAgrees(st, device, blocking, env);
    case Disconnect(s) => DisconnectAgrees(st, s, env);
    case Sweep(input) => SweepAgrees(st, input, env);
    case RunWholePass => MatchPassAgrees(st, WholePass, env);
    case Shutdown(locals) => ShutdownAgrees(st, locals, env);
    case Decline(s, r) => DeclineAgrees(st, s, r, env);
    case Skip(s, only) => SkipAgrees(st, s, only, env);
    case CallFailed(s, r) => CallFailedAgrees(st, s, r, env);
    case Accept(_, _) => RoomEventsAgree(st, ev, env);
    case Connected(_, _) => RoomEventsAgree(st, ev, env);
    case Report(_, _, _) => RoomEventsAgree(st, ev, env);
    case StartCall(_, _) => RoomEventsAgree(st, ev, env);
    case Aside(_, _) => RoomEventsAgree(st, ev, env);
    case Act(_, _) => RoomEventsAgree(st, ev, env);
  }

  /** One step keeps the agreement exactly when it is not a disruptive hello. */
  lemma StepAgreesUnlessDisrupted(st: State, ev: Event, env: Env)
    requires Agree(st, {}) && Inv(st) && Orderly(st) && (ev.Hello? ==> !Terminal(Client(st.out, ev.s)))
    ensures Agree(Step(st, ev, env), {}) <==> !Disrupts(st, ev, env)
  {
    if ev.Hello? {
      if HelloRefusal(st, ev.s, ev.payload, ev.answers, env).Some? {
        HelloRefusedAgrees(st, ev.s, ev.payload, ev.answers, env);
      } else {
        HelloAcceptedAgrees(st, ev.s, ev.payload, ev.answers, env);
      }
    } else {
      OthersAgree(st, ev, env);
    }
  }

  /** The browser says hello when its socket connects, or to search again once it was left idle. */
  predicate Polite(st: State, ev: Event) {
    ev.Hello? ==> var status := Client(st.out, ev.s).status; status == Connecting || status == IdleOut
  }

  ghost predicate PoliteRun(cfg: Config, run: seq<(Event, Env)>) {
    forall k :: 0 <= k < |run| ==> Polite(Run(Init(cfg), run[..k]), run[k].0)
  }

  /** A polite hello never meets a session that is queued or has a room. */
  lemma PoliteHelloDisruptsNothing(st: State, ev: Event, env: Env)
    requires Agree(st, {}) && Inv(st) && Polite(st, ev)
    ensures !Disrupts(st, ev, env) && (ev.Hello? ==> !Terminal(Client(st.out, ev.s)))
  {
    if ev.Hello? && ev.s in st.sessions {
      assert Seated(Client(st.out, ev.s), st.sessions[ev.s]) && SessionOk(st.rooms, ev.s, st.sessions[ev.s]);
    }
  }

  /**
   * In every run in which clients say hello only on connect or from idle, each
   * client names the room its session is in, and shows a call only while the
   * session is active.
   */
  lemma {:induction false} ClientsAgreeInEveryRun(cfg: Config, run: seq<(Event, Env)>)
    requires PoliteRun(cfg, run)
    ensures Agree(Run(Init(cfg), run), {})
  {
    if run != [] {
      var n := |run| - 1;
      var before := Run(Init(cfg), run[..n]);
      forall k | 0 <= k < n ensures Polite(Run(Init(cfg), run[..n][..k]), run[..n][k].0) {
        assert run[..n][..k] == run[..k];
      }
      ClientsAgreeInEveryRun(cfg, run[..n]);
      EveryRunIsConsistent(cfg, run[..n]);
      EveryRunIsOrderly(cfg, run[..n]);
      PoliteHelloDisruptsNothing(before, run[n].0, run[n].1);
      StepAgreesUnlessDisrupted(before, run[n].0, run[n].1);
    }
  }
}
