/**
 * What each socket is told: the lifecycle of every room, in order and once,
 * and the agreement of the browser's reducer with the server's store.
 */
module MatchTrace {
  import opened Wrappers
  import opened Compatibility
  import opened Protocol
  import opened Greedy
  import opened MatchModel
  import opened MatchInvariant
  import opened MatchSteps

  /* ---------------------------------------------------------------- */
  /* Phases of a room as one member sees it                            */
  /* ---------------------------------------------------------------- */

  datatype Phase = Unseen | Found | Told | Started(initiator: bool) | Over | Broken

  /** The only order the lifecycle events of a room may come in. */
  function Next(p: Phase, e: ServerEvent, r: RoomId): Phase {
    match e
    case MatchFound(room, _, _, _) => if room != r then p else if p == Unseen then Found else Broken
    case PartnerAccepted(room) => if room != r then p else if p == Found then Told else Broken
    case CallStart(room, initiator) => if room != r then p else if p == Found || p == Told then Started(initiator) else Broken
    case MatchEnded(room, _) => if room != r then p else if Live(p) then Over else Broken
    case _ => p
  }

  predicate Live(p: Phase) {
    p == Found || p == Told || p.Started?
  }

  function Advance(p: Phase, item: Item, r: RoomId, s: SocketId): Phase {
    if item.Sent? && item.to == s then Next(p, item.event, r) else p
  }

  function PhaseOf(trace: seq<Item>, r: RoomId, s: SocketId): Phase {
    if trace == [] then Unseen else Advance(PhaseOf(trace[..|trace| - 1], r, s), trace[|trace| - 1], r, s)
  }

  lemma PhaseSnoc(trace: seq<Item>, item: Item, r: RoomId, s: SocketId)
    ensures PhaseOf(trace + [item], r, s) == Advance(PhaseOf(trace, r, s), item, r, s)
  {
    assert (trace + [item])[..|trace|] == trace;
  }

  /** Not a lifecycle event of room `r` sent to `s`. */
  predicate Neutral(item: Item, r: RoomId, s: SocketId) {
    item.Sent? && item.to == s ==>
      match item.event
      case MatchFound(room, _, _, _) => room != r
      case PartnerAccepted(room) => room != r
      case CallStart(room, _) => room != r
      case MatchEnded(room, _) => room != r
      case _ => true
  }

  lemma {:induction false} NeutralNews(trace: seq<Item>, news: seq<Item>, r: RoomId, s: SocketId)
    requires forall x :: x in news ==> Neutral(x, r, s)
    ensures PhaseOf(trace + news, r, s) == PhaseOf(trace, r, s)
  {
    if news == [] {
      assert trace + news == trace;
    } else {
      var n := |news| - 1;
      assert trace + news == (trace + news[..n]) + [news[n]];
      assert news[n] in news && forall x :: x in news[..n] ==> x in news;
      NeutralNews(trace, news[..n], r, s);
      PhaseSnoc(trace + news[..n], news[n], r, s);
    }
  }

  /** A pending member is told when only its partner has accepted. */
  function ToldBy(theirs: bool, mine: bool): Phase {
    if theirs && !mine then Told else Found
  }

  /** The phases of the two members of a stored room. */
  predicate PhasesFit(room: Room, phaseA: Phase, phaseB: Phase) {
    if !room.active then
      phaseA == ToldBy(room.acceptedB, room.acceptedA) && phaseB == ToldBy(room.acceptedA, room.acceptedB)
    else
      || ((phaseA == Found || phaseA == Told) && (phaseB == Found || phaseB == Told))
      || (phaseA == Started(true) && phaseB == Started(false))
  }

  ghost predicate RoomInPhase(trace: seq<Item>, r: RoomId, room: Room) {
    && PhasesFit(room, PhaseOf(trace, r, room.a), PhaseOf(trace, r, room.b))
    && (forall s :: s != room.a && s != room.b ==> PhaseOf(trace, r, s) == Unseen)
  }

  ghost predicate NeverBroken(trace: seq<Item>) {
    forall r: RoomId, s: SocketId :: PhaseOf(trace, r, s) != Broken
  }

  ghost predicate NothingAhead(trace: seq<Item>, nextRoom: RoomId) {
    forall r: RoomId, s: SocketId :: r >= nextRoom ==> PhaseOf(trace, r, s) == Unseen
  }

  ghost predicate RoomsInPhase(trace: seq<Item>, rooms: Rooms) {
    forall r :: r in rooms ==> RoomInPhase(trace, r, rooms[r])
  }

  /** A call task of a room that still exists: it is active, it is the task's, and nobody was told to start. */
  predicate TaskOk(trace: seq<Item>, rooms: Rooms, nextRoom: RoomId, t: CallTask) {
    && t.room < nextRoom
    && (t.room in rooms ==>
          && rooms[t.room].active && rooms[t.room].activeSince == Some(t.activeSince)
          && rooms[t.room].a == t.a && rooms[t.room].b == t.b
          && !PhaseOf(trace, t.room, t.a).Started? && !PhaseOf(trace, t.room, t.b).Started?)
  }

  ghost predicate TasksOk(trace: seq<Item>, rooms: Rooms, nextRoom: RoomId, calls: seq<CallTask>) {
    && (forall i :: 0 <= i < |calls| ==> TaskOk(trace, rooms, nextRoom, calls[i]))
    && (forall i, j :: 0 <= i < j < |calls| ==> calls[i].room != calls[j].room)
  }

  ghost predicate Orderly(st: State) {
    && NeverBroken(st.out)
    && NothingAhead(st.out, st.nextRoom)
    && RoomsInPhase(st.out, st.rooms)
    && TasksOk(st.out, st.rooms, st.nextRoom, st.calls)
  }

  /** Phases do not change except that of `s` in room `r`. */
  ghost predicate OnlyPhase(trace: seq<Item>, trace': seq<Item>, r: RoomId, s: SocketId) {
    forall q: RoomId, x: SocketId :: q != r || x != s ==> PhaseOf(trace', q, x) == PhaseOf(trace, q, x)
  }

  ghost predicate SamePhases(trace: seq<Item>, trace': seq<Item>) {
    forall q: RoomId, x: SocketId :: PhaseOf(trace', q, x) == PhaseOf(trace, q, x)
  }

  lemma QuietNews(trace: seq<Item>, news: seq<Item>)
    requires forall x :: x in news ==> IsQuiet(x)
    ensures SamePhases(trace, trace + news)
  {
    forall q: RoomId, x: SocketId ensures PhaseOf(trace + news, q, x) == PhaseOf(trace, q, x) {
      NeutralNews(trace, news, q, x);
    }
  }

  /** An item about no room's lifecycle. */
  predicate IsQuiet(item: Item) {
    item.Sent? ==> !(item.event.MatchFound? || item.event.PartnerAccepted? || item.event.CallStart? || item.event.MatchEnded?)
  }

  lemma OneEvent(trace: seq<Item>, s: SocketId, e: ServerEvent, now: nat, r: RoomId)
    requires forall q: RoomId, p: Phase :: q != r ==> Next(p, e, q) == p
    ensures OnlyPhase(trace, trace + [Sent(s, e, now)], r, s)
    ensures PhaseOf(trace + [Sent(s, e, now)], r, s) == Next(PhaseOf(trace, r, s), e, r)
  {
    forall q: RoomId, x: SocketId
      ensures PhaseOf(trace + [Sent(s, e, now)], q, x) == Advance(PhaseOf(trace, q, x), Sent(s, e, now), q, x)
    {
      PhaseSnoc(trace, Sent(s, e, now), q, x);
    }
  }

  lemma SamePhasesKeep(trace: seq<Item>, trace': seq<Item>, rooms: Rooms, nextRoom: RoomId, calls: seq<CallTask>)
    requires SamePhases(trace, trace')
    requires NeverBroken(trace) && NothingAhead(trace, nextRoom) && RoomsInPhase(trace, rooms) && TasksOk(trace, rooms, nextRoom, calls)
    ensures NeverBroken(trace') && NothingAhead(trace', nextRoom) && RoomsInPhase(trace', rooms) && TasksOk(trace', rooms, nextRoom, calls)
  {
    forall r | r in rooms ensures RoomInPhase(trace', r, rooms[r]) {
      assert RoomInPhase(trace, r, rooms[r]);
    }
    forall i | 0 <= i < |calls| ensures TaskOk(trace', rooms, nextRoom, calls[i]) {
      assert TaskOk(trace, rooms, nextRoom, calls[i]);
    }
  }

  /** A step that keeps rooms and tasks and sends only quiet news. */
  ghost predicate QuietStep(st: State, st': State, news: seq<Item>) {
    && st'.rooms == st.rooms && st'.nextRoom == st.nextRoom && st'.calls == st.calls
    && st'.out == st.out + news
    && (forall x :: x in news ==> IsQuiet(x))
  }

  lemma QuietStepKeeps(st: State, st': State, news: seq<Item>)
    requires Orderly(st) && QuietStep(st, st', news)
    ensures Orderly(st')
  {
    QuietNews(st.out, news);
    SamePhasesKeep(st.out, st'.out, st.rooms, st.nextRoom, st.calls);
  }

  lemma EnqueueOrderly(st: State, s: SocketId, since: Option<nat>, env: Env)
    requires Orderly(st) && s in st.sessions
    ensures Orderly(Enqueue(st, s, since, env))
    ensures SamePhases(st.out, Enqueue(st, s, since, env).out)
  {
    var news := EnqueueNews(s, NeedsPremium(st.sessions[s].who, env), env.now);
    QuietNews(st.out, news);
    QuietStepKeeps(st, Enqueue(st, s, since, env), news);
  }

  lemma LeaveIdleOrderly(st: State, s: SocketId, capped: bool, now: nat)
    requires Orderly(st) && s in st.sessions
    ensures Orderly(LeaveIdle(st, s, capped, now))
    ensures SamePhases(st.out, LeaveIdle(st, s, capped, now).out)
  {
    var news := if capped then [Sent(s, ServerError(RateLimited), now)] else [];
    QuietNews(st.out, news);
    QuietStepKeeps(st, LeaveIdle(st, s, capped, now), news);
  }

  /** Telling a member of a room that is gone from the store that it ended. */
  lemma EndedOrderly(st: State, s: SocketId, r: RoomId, reason: EndReason, now: nat)
    requires Orderly(st) && r !in st.rooms && r < st.nextRoom && Live(PhaseOf(st.out, r, s))
    ensures Orderly(Emit(st, s, MatchEnded(r, reason), now))
    ensures OnlyPhase(st.out, Emit(st, s, MatchEnded(r, reason), now).out, r, s)
  {
    var trace' := st.out + [Sent(s, MatchEnded(r, reason), now)];
    OneEvent(st.out, s, MatchEnded(r, reason), now, r);
    forall q | q in st.rooms ensures RoomInPhase(trace', q, st.rooms[q]) {
      assert RoomInPhase(st.out, q, st.rooms[q]);
    }
    forall i | 0 <= i < |st.calls| ensures TaskOk(trace', st.rooms, st.nextRoom, st.calls[i]) {
      assert TaskOk(st.out, st.rooms, st.nextRoom, st.calls[i]);
    }
  }

  lemma FreeMemberOrderly(st: State, r: RoomId, s: SocketId, reason: Option<EndReason>, env: Env)
    requires Orderly(st) && s in st.sessions && r !in st.rooms && r < st.nextRoom
    requires reason.Some? ==> Live(PhaseOf(st.out, r, s))
    ensures Orderly(FreeMember(st, r, s, reason, env))
    ensures OnlyPhase(st.out, FreeMember(st, r, s, reason, env).out, r, s)
  {
    if reason.Some? {
      var told := Emit(st, s, MatchEnded(r, reason.value), env.now);
      EndedOrderly(st, s, r, reason.value, env.now);
      var device := st.sessions[s].who.deviceId;
      var capped := reason.value != AcceptTimeout && device in env.capped;
      if st.sessions[s].roomId != Some(r) {
      } else if reason.value == AcceptTimeout || capped || device in env.banned {
        LeaveIdleOrderly(told, s, capped, env.now);
      } else {
        EnqueueOrderly(told, s, None, env);
      }
    }
  }

  lemma RoomDeletedOrderly(st: State, r: RoomId)
    requires Orderly(st) && r in st.rooms
    ensures Orderly(RoomDeleted(st, r))
    ensures Live(PhaseOf(st.out, r, st.rooms[r].a)) && Live(PhaseOf(st.out, r, st.rooms[r].b))
  {
    assert RoomInPhase(st.out, r, st.rooms[r]);
    var rooms' := st.rooms - {r};
    forall q | q in rooms' ensures RoomInPhase(st.out, q, rooms'[q]) {
      assert RoomInPhase(st.out, q, st.rooms[q]);
    }
    forall i | 0 <= i < |st.calls| ensures TaskOk(st.out, rooms', st.nextRoom, st.calls[i]) {
      assert TaskOk(st.out, st.rooms, st.nextRoom, st.calls[i]);
    }
  }

  lemma EndRoomOrderly(st: State, r: RoomId, reasonA: Option<EndReason>, reasonB: Option<EndReason>, env: Env)
    requires Orderly(st) && Inv(st) && r in st.rooms
    ensures Orderly(EndRoom(st, r, reasonA, reasonB, env))
  {
    var room := st.rooms[r];
    assert RoomOk(st.sessions, r, room);
    RoomDeletedOrderly(st, r);
    FreeMemberOrderly(RoomDeleted(st, r), r, room.a, reasonA, env);
    FreeMemberFrame(RoomDeleted(st, r), r, room.a, reasonA, env);
    FreeMemberOrderly(FreeMember(RoomDeleted(st, r), r, room.a, reasonA, env), r, room.b, reasonB, env);
  }

  lemma LeaversRoomOrderly(st: State, s: SocketId, reason: EndReason, env: Env)
    requires Orderly(st) && Inv(st) && s in st.sessions
    ensures Orderly(EndLeaversRoom(st, s, reason, env))
  {
    var roomId := st.sessions[s].roomId;
    if roomId.Some? && MemberOf(st, s, roomId.value) {
      var (reasonA, reasonB) := ReasonsFor(st.rooms[roomId.value], s, None, Some(reason));
      EndRoomOrderly(st, roomId.value, reasonA, reasonB, env);
    }
  }

  lemma RemoveSessionOrderly(st: State, s: SocketId, reason: EndReason, env: Env)
    requires Orderly(st) && Inv(st)
    ensures Orderly(RemoveIfPresent(st, s, reason, env))
  {
    if s in st.sessions {
      LeaversRoomOrderly(st, s, reason, env);
      var ended := EndLeaversRoom(st, s, reason, env);
      QuietStepKeeps(ended, RemoveSession(st, s, reason, env), []);
    }
  }

  lemma ReplaceOrderly(st: State, previous: SocketId, env: Env)
    requires Orderly(st) && Inv(st)
    ensures Orderly(Replace(st, previous, env))
  {
    var told := Emit(st, previous, SessionReplaced, env.now);
    QuietStepKeeps(st, told, [Sent(previous, SessionReplaced, env.now)]);
    assert SameStory(st, told) && Inv(told);
    RemoveSessionOrderly(told, previous, PartnerUnavailable, env);
    QuietStepKeeps(RemoveIfPresent(told, previous, PartnerUnavailable, env), Replace(st, previous, env), []);
  }

  /* ---------------------------------------------------------------- */
  /* Rooms start                                                       */
  /* ---------------------------------------------------------------- */

  /** The news of a new room: both are found, and a side whose partner the server accepted for is told so. */
  lemma FoundPhases(trace: seq<Item>, st: State, a: SocketId, b: SocketId, room: Room, env: Env)
    requires a in st.sessions && b in st.sessions && a != b
    requires forall x: SocketId :: PhaseOf(trace, st.nextRoom, x) == Unseen
    ensures var trace' := trace + FoundNews(st, a, b, room, env);
      && PhaseOf(trace', st.nextRoom, a) == (if room.acceptedB && !room.acceptedA then Told else Found)
      && PhaseOf(trace', st.nextRoom, b) == (if room.acceptedA && !room.acceptedB then Told else Found)
      && (forall x :: x != a && x != b ==> PhaseOf(trace', st.nextRoom, x) == Unseen)
      && (forall q: RoomId, x: SocketId :: q != st.nextRoom ==> PhaseOf(trace', q, x) == PhaseOf(trace, q, x))
  {
    var r := st.nextRoom;
    var news := FoundNews(st, a, b, room, env);
    var one := trace + [news[0]];
    var two := one + [news[1]];
    OneEvent(trace, a, news[0].event, env.now, r);
    OneEvent(one, b, news[1].event, env.now, r);
    if |news| == 2 {
      assert trace + news == two;
    } else {
      assert trace + news == two + [news[2]];
      OneEvent(two, news[2].to, news[2].event, env.now, r);
    }
  }

  /** Storing a new room with the next free number and phases that fit it. */
  lemma StoredOrderly(st: State, rooms': Rooms, trace': seq<Item>, room: Room)
    requires Orderly(st) && Numbered(st.rooms, st.nextRoom) && rooms' == st.rooms[st.nextRoom := room]
    requires RoomInPhase(trace', st.nextRoom, room)
    requires forall q: RoomId, x: SocketId :: q != st.nextRoom ==> PhaseOf(trace', q, x) == PhaseOf(st.out, q, x)
    ensures NeverBroken(trace') && NothingAhead(trace', st.nextRoom + 1) && RoomsInPhase(trace', rooms')
    ensures TasksOk(trace', rooms', st.nextRoom + 1, st.calls)
  {
    forall q | q in rooms' ensures RoomInPhase(trace', q, rooms'[q]) {
      if q != st.nextRoom {
        assert RoomInPhase(st.out, q, st.rooms[q]);
      }
    }
    forall i | 0 <= i < |st.calls| ensures TaskOk(trace', rooms', st.nextRoom + 1, st.calls[i]) {
      assert TaskOk(st.out, st.rooms, st.nextRoom, st.calls[i]);
    }
    forall r: RoomId, s: SocketId ensures PhaseOf(trace', r, s) != Broken {
      if r == st.nextRoom {
        assert RoomInPhase(trace', r, room);
      }
    }
  }

  /** Both accepted: the room turns active and gets its one call task. */
  lemma ActivateOrderly(st: State, r: RoomId, room: Room, now: nat)
    requires Orderly(st) && r in st.rooms && !st.rooms[r].active && r < st.nextRoom
    requires room == st.rooms[r].(acceptedA := room.acceptedA, acceptedB := room.acceptedB)
    ensures Orderly(ActivateRoom(st, r, room, now))
  {
    var st' := ActivateRoom(st, r, room, now);
    forall q | q in st'.rooms ensures RoomInPhase(st'.out, q, st'.rooms[q]) {
      assert RoomInPhase(st.out, q, st.rooms[q]);
    }
    assert RoomInPhase(st.out, r, st.rooms[r]);
    forall i | 0 <= i < |st'.calls| ensures TaskOk(st'.out, st'.rooms, st'.nextRoom, st'.calls[i]) {
      if i < |st.calls| {
        assert TaskOk(st.out, st.rooms, st.nextRoom, st.calls[i]);
      }
    }
    forall i, j | 0 <= i < j < |st'.calls| ensures st'.calls[i].room != st'.calls[j].room {
      assert TaskOk(st.out, st.rooms, st.nextRoom, st.calls[i]);
    }
  }

  lemma CreateRoomOrderly(st: State, a: SocketId, b: SocketId, env: Env)
    requires Orderly(st) && Inv(st) && a in st.sessions && b in st.sessions && a != b
    ensures Orderly(CreateRoom(st, a, b, env))
  {
    var room := NewRoom(st, a, b, env);
    var news := FoundNews(st, a, b, room, env);
    FoundPhases(st.out, st, a, b, room, env);
    var stored := StoreRoom(st, a, b, room, news);
    StoredOrderly(st, stored.rooms, stored.out, room);
    if room.acceptedA && room.acceptedB {
      ActivateOrderly(stored, st.nextRoom, room, env.now);
    }
  }

  lemma {:induction false} CreateRoomsOrderly(st: State, waiting: seq<Waiter>, pairs: seq<Pairing>, env: Env)
    requires Orderly(st) && Inv(st) && Loaded(st, waiting) && Creatable(waiting, pairs)
    ensures Orderly(CreateRooms(st, waiting, pairs, env))
  {
    if pairs != [] {
      var n := |pairs| - 1;
      LastPairIsFree(waiting, pairs);
      CreateRoomsOrderly(st, waiting, pairs[..n], env);
      CreateRoomsKeeps(st, waiting, pairs[..n], env);
      var before := CreateRooms(st, waiting, pairs[..n], env);
      LastRoomKeeps(before, waiting, pairs, env);
      CreateRoomOrderly(before, waiting[pairs[n].i].socket, waiting[pairs[n].j].socket, env);
    }
  }

  lemma RunScanOrderly(st: State, waiting: seq<Waiter>, focus: Option<set<SocketId>>, env: Env)
    requires Orderly(st) && Inv(st) && Loaded(st, waiting)
    ensures Orderly(RunScan(st, waiting, focus, env))
  {
    var bd := MakeBoard(st, waiting, focus, env);
    var scan := Scan(bd, 0, {}, st.wakeAt);
    ScanIsCreatable(bd, st.wakeAt);
    QuietStepKeeps(st, st.(wakeAt := scan.wake), []);
    assert SameStory(st, st.(wakeAt := scan.wake));
    CreateRoomsOrderly(st.(wakeAt := scan.wake), waiting, scan.pairs, env);
  }

  lemma PassOverOrderly(st: State, mode: PassMode, waiting: seq<Waiter>, env: Env)
    requires Orderly(st) && Inv(st) && waiting == LoadWaiting(st.queue, st.sessions) && |waiting| > 0
    ensures Orderly(PassOver(st, mode, waiting, env))
  {
    QueueIsLoaded(st);
    var pruned := Pruned(st, mode, waiting);
    assert SameStory(st, pruned);
    QuietStepKeeps(st, pruned, []);
    if mode == RecheckPass {
      var slice := RecheckSlice(|waiting|, st.cfg.recheckPairBudget, st.recheckCursor);
      QuietStepKeeps(pruned, pruned.(recheckCursor := slice.cursor), []);
      RunScanOrderly(pruned.(recheckCursor := slice.cursor), waiting, Some(st.dirty + SliceSockets(waiting, slice)), env);
    } else {
      RunScanOrderly(pruned, waiting, if mode == WholePass then None else Some(st.dirty), env);
    }
  }

  lemma MatchPassOrderly(st: State, mode: PassMode, env: Env)
    requires Orderly(st) && Inv(st)
    ensures Orderly(MatchPass(st, mode, env))
  {
    if !env.open {
    } else if (mode == DirtyPass && st.dirty == {}) || |st.queue| < 2 {
      QuietStepKeeps(st, st.(dirty := {}), []);
    } else {
      QueueIsLoaded(st);
      PassOverOrderly(st, mode, LoadWaiting(st.queue, st.sessions), env);
    }
  }

  /* ---------------------------------------------------------------- */
  /* Every event                                                       */
  /* ---------------------------------------------------------------- */

  lemma EndAndMatchOrderly(st: State, r: RoomId, s: SocketId, mine: EndReason, theirs: EndReason, env: Env)
    requires Orderly(st) && Inv(st) && r in st.rooms
    ensures Orderly(MatchPass(EndRoomOf(st, r, s, Some(mine), Some(theirs), env), DirtyPass, env))
  {
    EndRoomOfKeeps(st, r, s, mine, theirs, env);
    var (reasonA, reasonB) := ReasonsFor(st.rooms[r], s, Some(mine), Some(theirs));
    EndRoomOrderly(st, r, reasonA, reasonB, env);
    MatchPassOrderly(EndRoomOf(st, r, s, Some(mine), Some(theirs), env), DirtyPass, env);
  }

  lemma BlockEndAndMatchOrderly(st: State, r: RoomId, s: SocketId, durationMs: nat, escalate: bool,
                                mine: EndReason, theirs: EndReason, env: Env)
    requires Orderly(st) && Inv(st) && r in st.rooms
    ensures var blocked := BlockPair(st, st.rooms[r].deviceA, st.rooms[r].deviceB, durationMs, escalate, env.now);
      r in blocked.rooms && Orderly(MatchPass(EndRoomOf(blocked, r, s, Some(mine), Some(theirs), env), DirtyPass, env))
  {
    BlockedKeeps(st, r, durationMs, escalate, env.now);
    var blocked := BlockPair(st, st.rooms[r].deviceA, st.rooms[r].deviceB, durationMs, escalate, env.now);
    QuietStepKeeps(st, blocked, []);
    EndAndMatchOrderly(blocked, r, s, mine, theirs, env);
  }

  lemma HelloStoredOrderly(st: State, s: SocketId, p: HelloPayload, env: Env)
    requires Orderly(st) && Inv(st)
    ensures Orderly(HelloStored(st, s, p, env))
  {
    if s in st.sessions {
      QuietStepKeeps(st, HelloStored(st, s, p, env), []);
    } else {
      var retired := RetirePrevious(st, s, p.device, env);
      if p.device in st.devices && st.devices[p.device] != s {
        ReplaceOrderly(st, st.devices[p.device], env);
      }
      QuietStepKeeps(retired, HelloStored(st, s, p, env), []);
    }
  }

  lemma HelloOrderly(st: State, s: SocketId, p: HelloPayload, answers: HelloAnswers, env: Env)
    requires Orderly(st) && Inv(st)
    ensures Orderly(HelloStep(st, s, p, answers, env))
  {
    var refusal := HelloRefusal(st, s, p, answers, env);
    if refusal.Some? {
      QuietStepKeeps(st, HelloStep(st, s, p, answers, env), [Sent(s, HelloRefused(refusal.value), env.now)]);
    } else {
      HelloStoredKeeps(st, s, p, env);
      HelloStoredOrderly(st, s, p, env);
      var stored := HelloStored(st, s, p, env);
      var filter := HelloWho(p, env).preferences.genderFilter;
      var acked := HelloAcked(stored, s, filter, env.now);
      QuietStepKeeps(stored, acked, [Sent(s, HelloAccepted(filter), env.now), Sent(s, WalletUpdate, env.now)]);
      assert SameStory(stored, acked) && Inv(acked);
      HelloQueuedOrderly(acked, s, env);
    }
  }

  lemma HelloQueuedOrderly(acked: State, s: SocketId, env: Env)
    requires Orderly(acked) && Inv(acked) && s in acked.sessions
    ensures var session := acked.sessions[s];
      session.state == Idle || session.state == Waiting ==>
        Orderly(MatchPass(Enqueue(acked, s, if session.state == Waiting then session.waitingSince else None, env), DirtyPass, env))
  {
    var session := acked.sessions[s];
    if session.state == Idle || session.state == Waiting {
      var since := if session.state == Waiting then session.waitingSince else None;
      assert SessionOk(acked.rooms, s, session);
      RoomlessIsUnroomed(acked.sessions, acked.rooms, s);
      EnqueueKeeps(acked, s, since, env, {});
      EnqueueOrderly(acked, s, since, env);
      MatchPassOrderly(Enqueue(acked, s, since, env), DirtyPass, env);
    }
  }

  lemma UpdatePreferencesOrderly(st: State, s: SocketId, preferences: Preferences, env: Env)
    requires Orderly(st) && Inv(st)
    ensures Orderly(UpdatePreferencesStep(st, s, preferences, env))
  {
    if s in st.sessions {
      var session := st.sessions[s];
      var who := session.who.(preferences := preferences);
      if !NeedsPremium(who, env) && session.who.preferences != preferences {
        RewriteKeeps(st, s, who, session.mode);
        var stored := st.(sessions := st.sessions[s := session.(who := who)]);
        var acked := Emit(stored, s, PreferencesSaved(preferences.genderFilter), env.now);
        QuietStepKeeps(st, acked, [Sent(s, PreferencesSaved(preferences.genderFilter), env.now)]);
        var marked := acked.(dirty := acked.dirty + {s});
        QuietStepKeeps(acked, marked, []);
        assert SameStory(stored, marked);
        MatchPassOrderly(marked, DirtyPass, env);
      }
    }
  }

  lemma AcceptOrderly(st: State, s: SocketId, r: RoomId, env: Env)
    requires Orderly(st) && Inv(st)
    ensures Orderly(AcceptStep(st, s, r, env))
  {
    if MemberOf(st, s, r) && !st.rooms[r].active {
      var room := st.rooms[r];
      assert RoomOk(st.sessions, r, room);
      if env.now > room.expiresAt + st.cfg.matchAcceptGraceMs {
        QuietStepKeeps(st, AcceptStep(st, s, r, env), [Sent(s, ServerError(NotInRoom), env.now)]);
      } else if !HasAccepted(room, s) {
        var room' := AcceptedBy(room, s);
        if room'.acceptedA && room'.acceptedB {
          ActivateOrderly(st, r, room', env.now);
        } else {
          FirstAcceptOrderly(st, s, r, env);
        }
      }
    }
  }

  lemma FirstAcceptOrderly(st: State, s: SocketId, r: RoomId, env: Env)
    requires Orderly(st) && Inv(st) && MemberOf(st, s, r) && !st.rooms[r].active && !HasAccepted(st.rooms[r], s)
    requires !(AcceptedBy(st.rooms[r], s).acceptedA && AcceptedBy(st.rooms[r], s).acceptedB)
    ensures Orderly(Emit(st.(rooms := st.rooms[r := AcceptedBy(st.rooms[r], s)]), Partner(st.rooms[r], s), PartnerAccepted(r), env.now))
  {
    var room := st.rooms[r];
    var rooms' := st.rooms[r := AcceptedBy(room, s)];
    var trace' := st.out + [Sent(Partner(room, s), PartnerAccepted(r), env.now)];
    assert RoomOk(st.sessions, r, room);
    assert RoomInPhase(st.out, r, room);
    OneEvent(st.out, Partner(room, s), PartnerAccepted(r), env.now, r);
    PartnerIsTold(st.out, trace', r, room, s);
    OthersInPhase(st.out, trace', st.rooms, r, Partner(room, s));
    forall q | q in rooms' ensures RoomInPhase(trace', q, rooms'[q]) {
      assert q != r ==> rooms'[q] == st.rooms[q];
    }
    PendingHasNoTask(st, trace', r, AcceptedBy(room, s), Partner(room, s));
  }

  /** A room that is still pending has no call task, so its changes concern none. */
  lemma PendingHasNoTask(st: State, trace': seq<Item>, r: RoomId, room: Room, s: SocketId)
    requires TasksOk(st.out, st.rooms, st.nextRoom, st.calls) && r in st.rooms && !st.rooms[r].active && OnlyPhase(st.out, trace', r, s)
    ensures TasksOk(trace', st.rooms[r := room], st.nextRoom, st.calls)
  {
    forall i | 0 <= i < |st.calls| ensures TaskOk(trace', st.rooms[r := room], st.nextRoom, st.calls[i]) {
      assert TaskOk(st.out, st.rooms, st.nextRoom, st.calls[i]);
    }
  }

  /** An event of one room leaves every other room in phase. */
  lemma OthersInPhase(trace: seq<Item>, trace': seq<Item>, rooms: Rooms, r: RoomId, s: SocketId)
    requires RoomsInPhase(trace, rooms) && OnlyPhase(trace, trace', r, s)
    ensures forall q :: q in rooms && q != r ==> RoomInPhase(trace', q, rooms[q])
  {
    forall q | q in rooms && q != r ensures RoomInPhase(trace', q, rooms[q]) {
      assert RoomInPhase(trace, q, rooms[q]);
    }
  }

  lemma PartnerIsTold(trace: seq<Item>, trace': seq<Item>, r: RoomId, room: Room, s: SocketId)
    requires RoomInPhase(trace, r, room) && room.a != room.b && (s == room.a || s == room.b)
    requires !room.active && !room.acceptedA && !room.acceptedB
    requires OnlyPhase(trace, trace', r, Partner(room, s))
    requires PhaseOf(trace', r, Partner(room, s)) == Next(PhaseOf(trace, r, Partner(room, s)), PartnerAccepted(r), r)
    ensures RoomInPhase(trace', r, AcceptedBy(room, s))
  {
  }

  lemma ConnectedOrderly(st: State, s: SocketId, r: RoomId, env: Env)
    requires Orderly(st)
    ensures Orderly(ConnectedStep(st, s, r, env))
  {
    var st' := ConnectedStep(st, s, r, env);
    forall q | q in st'.rooms ensures RoomInPhase(st'.out, q, st'.rooms[q]) {
      assert RoomInPhase(st.out, q, st.rooms[q]);
    }
    forall i | 0 <= i < |st'.calls| ensures TaskOk(st'.out, st'.rooms, st'.nextRoom, st'.calls[i]) {
      assert TaskOk(st.out, st.rooms, st.nextRoom, st.calls[i]);
    }
  }

  /** Taking a task off the list, whether or not it still finds its room. */
  lemma TaskTakenOrderly(st: State, task: nat)
    requires Orderly(st) && task < |st.calls|
    ensures Orderly(st.(calls := st.calls[..task] + st.calls[task + 1..]))
    ensures var rest := st.calls[..task] + st.calls[task + 1..];
      forall i :: 0 <= i < |rest| ==> rest[i].room != st.calls[task].room
  {
    var calls' := st.calls[..task] + st.calls[task + 1..];
    forall i | 0 <= i < |calls'| ensures calls'[i] == st.calls[if i < task then i else i + 1] {
    }
    forall i | 0 <= i < |calls'| ensures TaskOk(st.out, st.rooms, st.nextRoom, calls'[i]) {
      assert TaskOk(st.out, st.rooms, st.nextRoom, st.calls[if i < task then i else i + 1]);
    }
  }

  /** call:start for a room that is still active reaches each member once, with one initiator. */
  lemma StartCallOrderly(st: State, task: nat, ready: bool, env: Env)
    requires Orderly(st) && Inv(st)
    ensures Orderly(StartCallStep(st, task, ready, env))
  {
    if task < |st.calls| {
      var t := st.calls[task];
      var taken := st.(calls := st.calls[..task] + st.calls[task + 1..]);
      TaskTakenOrderly(st, task);
      if !(!ready || st.stopped || t.room !in st.rooms || !st.rooms[t.room].active
           || st.rooms[t.room].activeSince != Some(t.activeSince)) {
        assert TaskOk(st.out, st.rooms, st.nextRoom, t);
        assert RoomOk(st.sessions, t.room, st.rooms[t.room]);
        BothStartedOrderly(taken, t, env.now);
      }
    }
  }

  lemma BothStartedOrderly(taken: State, t: CallTask, now: nat)
    requires Orderly(taken) && t.room in taken.rooms && TaskOk(taken.out, taken.rooms, taken.nextRoom, t) && t.a != t.b
    requires forall i :: 0 <= i < |taken.calls| ==> taken.calls[i].room != t.room
    ensures Orderly(Emit(Emit(taken, t.a, CallStart(t.room, true), now), t.b, CallStart(t.room, false), now))
  {
    var one := taken.out + [Sent(t.a, CallStart(t.room, true), now)];
    var two := one + [Sent(t.b, CallStart(t.room, false), now)];
    assert RoomInPhase(taken.out, t.room, taken.rooms[t.room]);
    OneEvent(taken.out, t.a, CallStart(t.room, true), now, t.room);
    OneEvent(one, t.b, CallStart(t.room, false), now, t.room);
    forall q | q in taken.rooms ensures RoomInPhase(two, q, taken.rooms[q]) {
      assert RoomInPhase(taken.out, q, taken.rooms[q]);
    }
    forall i | 0 <= i < |taken.calls| ensures TaskOk(two, taken.rooms, taken.nextRoom, taken.calls[i]) {
      assert TaskOk(taken.out, taken.rooms, taken.nextRoom, taken.calls[i]);
    }
  }

  lemma ReportOrderly(st: State, s: SocketId, r: RoomId, target: (DeviceId, DeviceId), env: Env)
    requires Orderly(st) && Inv(st)
    ensures Orderly(ReportStep(st, s, r, target, env))
  {
    if MemberOf(st, s, r) {
      BlockEndAndMatchOrderly(st, r, s, st.cfg.reportBlockMs, false, Reported, PartnerSkipped, env);
    } else {
      QuietStepKeeps(st, ReportStep(st, s, r, target, env), []);
    }
  }

  lemma SidelineOrderly(st: State, s: SocketId, env: Env)
    requires Orderly(st) && Inv(st) && s in st.sessions
    ensures Orderly(Sideline(st, s, env))
  {
    var roomId := st.sessions[s].roomId;
    var ended := EndRestrictedRoom(st, s, env);
    if roomId.Some? && MemberOf(st, s, roomId.value) {
      var (reasonA, reasonB) := ReasonsFor(st.rooms[roomId.value], s, Some(Restricted), Some(PartnerSkipped));
      EndRoomOrderly(st, roomId.value, reasonA, reasonB, env);
    }
    QuietStepKeeps(ended, Sideline(st, s, env), []);
  }

  lemma RestrictOrderly(st: State, device: DeviceId, blocking: bool, env: Env)
    requires Orderly(st) && Inv(st)
    ensures Orderly(RestrictStep(st, device, blocking, env))
  {
    if device in st.devices && st.devices[device] in st.sessions {
      var s := st.devices[device];
      var news := [Sent(s, SessionRestricted, env.now)];
      if blocking {
        EndRestrictedKeeps(st, s, env);
        SidelinedKeeps(EndRestrictedRoom(st, s, env), s);
        SidelineOrderly(st, s, env);
        var side := Sideline(st, s, env);
        QuietStepKeeps(side, Emit(side, s, SessionRestricted, env.now), news);
        assert SameStory(side, Emit(side, s, SessionRestricted, env.now));
        MatchPassOrderly(Emit(side, s, SessionRestricted, env.now), DirtyPass, env);
      } else {
        QuietStepKeeps(st, Emit(st, s, SessionRestricted, env.now), news);
        assert SameStory(st, Emit(st, s, SessionRestricted, env.now));
        MatchPassOrderly(Emit(st, s, SessionRestricted, env.now), DirtyPass, env);
      }
    }
  }

  lemma DisconnectOrderly(st: State, s: SocketId, env: Env)
    requires Orderly(st) && Inv(st)
    ensures Orderly(DisconnectStep(st, s, env))
  {
    var forgotten := Forget(st, s);
    QuietStepKeeps(st, forgotten, []);
    if s in st.sessions {
      assert SameStory(st, forgotten) && Inv(forgotten);
      RemoveSessionOrderly(forgotten, s, PartnerLeft, env);
      RemoveIfPresentKeeps(forgotten, s, PartnerLeft, env);
      MatchPassOrderly(RemoveSession(forgotten, s, PartnerLeft, env), DirtyPass, env);
    }
  }

  lemma {:induction false} RemoveAllOrderly(st: State, sockets: seq<SocketId>, env: Env)
    requires Orderly(st) && Inv(st)
    ensures Orderly(RemoveAll(st, sockets, env))
  {
    if sockets != [] {
      var n := |sockets| - 1;
      RemoveAllOrderly(st, sockets[..n], env);
      RemoveAllKeeps(st, sockets[..n], env);
      RemoveSessionOrderly(RemoveAll(st, sockets[..n], env), sockets[n], PartnerUnavailable, env);
    }
  }

  lemma ShutdownOrderly(st: State, locals: seq<SocketId>, env: Env)
    requires Orderly(st) && Inv(st)
    ensures Orderly(ShutdownStep(st, locals, env))
  {
    if !st.stopped {
      var stopped := st.(stopped := true);
      QuietStepKeeps(st, stopped, []);
      assert SameStory(st, stopped) && Inv(stopped);
      RemoveAllOrderly(stopped, locals, env);
      RemoveAllKeeps(stopped, locals, env);
      MatchPassOrderly(RemoveAll(stopped, locals, env), DirtyPass, env);
      QuietStepKeeps(MatchPass(RemoveAll(stopped, locals, env), DirtyPass, env), ShutdownStep(st, locals, env), []);
    }
  }

  lemma {:induction false} RemoveGhostsOrderly(st: State, ghosts: seq<SocketId>, env: Env)
    requires Orderly(st) && Inv(st)
    ensures Orderly(RemoveGhosts(st, ghosts, env))
  {
    if ghosts != [] {
      var n := |ghosts| - 1;
      RemoveGhostsOrderly(st, ghosts[..n], env);
      RemoveGhostsKeeps(st, ghosts[..n], env);
      var before := RemoveGhosts(st, ghosts[..n], env);
      QuietStepKeeps(before, Forget(before, ghosts[n]), []);
      assert SameStory(before, Forget(before, ghosts[n]));
      RemoveSessionOrderly(Forget(before, ghosts[n]), ghosts[n], PartnerLeft, env);
    }
  }

  lemma ExpireRoomOrderly(st: State, r: RoomId, env: Env)
    requires Orderly(st) && Inv(st)
    ensures Orderly(ExpireRoom(st, r, env))
  {
    if r in st.rooms && !st.rooms[r].active {
      var room := st.rooms[r];
      var blocked := BlockPair(st, room.deviceA, room.deviceB, st.cfg.declineBlockMs, false, env.now);
      QuietStepKeeps(st, blocked, []);
      BlockedKeeps(st, r, st.cfg.declineBlockMs, false, env.now);
      EndRoomOrderly(blocked, r, ExpiredReason(room.acceptedA), ExpiredReason(room.acceptedB), env);
    }
  }

  lemma {:induction false} ExpireRoomsOrderly(st: State, expired: seq<RoomId>, env: Env)
    requires Orderly(st) && Inv(st)
    ensures Orderly(ExpireRooms(st, expired, env))
  {
    if expired != [] {
      var n := |expired| - 1;
      ExpireRoomsOrderly(st, expired[..n], env);
      ExpireRoomsKeeps(st, expired[..n], env);
      ExpireRoomOrderly(ExpireRooms(st, expired[..n], env), expired[n], env);
    }
  }

  lemma RelaxOneOrderly(st: State, s: SocketId, now: nat)
    requires Orderly(st)
    ensures Orderly(RelaxOne(st, s, now))
  {
    var st' := RelaxOne(st, s, now);
    RelaxOneTells(st, s, now);
    if st'.out == st.out {
      QuietStepKeeps(st, st', []);
    } else {
      var step: nat :| st'.out == st.out + [Sent(s, QueueWaiting(step), now)];
      QuietStepKeeps(st, st', [Sent(s, QueueWaiting(step), now)]);
    }
  }

  lemma RelaxOneTells(st: State, s: SocketId, now: nat)
    ensures var st' := RelaxOne(st, s, now);
      && st'.rooms == st.rooms && st'.nextRoom == st.nextRoom && st'.calls == st.calls
      && (st'.out == st.out || exists step: nat :: st'.out == st.out + [Sent(s, QueueWaiting(step), now)])
  {
    if s in st.relaxing {
      var entry := st.relaxing[s];
      var step := RelaxStep(now - entry.since, st.cfg.ladder, entry.low);
      var told := Sent(s, QueueWaiting(Max(0, step)), now);
      assert RelaxOne(st, s, now).out == st.out || RelaxOne(st, s, now).out == st.out + [told];
    }
  }

  lemma {:induction false} RelaxTickOrderly(st: State, order: seq<SocketId>, now: nat)
    requires Orderly(st)
    ensures Orderly(RelaxTick(st, order, now))
  {
    if order != [] {
      RelaxTickOrderly(st, order[..|order| - 1], now);
      RelaxOneOrderly(RelaxTick(st, order[..|order| - 1], now), order[|order| - 1], now);
    }
  }

  lemma SweepOrderly(st: State, input: SweepInput, env: Env)
    requires Orderly(st) && Inv(st)
    ensures Orderly(SweepStep(st, input, env))
  {
    var marked := st.(lastReapAt := env.now);
    assert SameStory(st, marked) && Inv(marked);
    QuietStepKeeps(st, marked, []);
    RemoveGhostsOrderly(marked, input.ghosts, env);
    RemoveGhostsKeeps(marked, input.ghosts, env);
    var reaped := Reaped(st, input.ghosts, env);
    assert Orderly(reaped) && Inv(reaped);
    ExpireRoomsOrderly(reaped, input.expired, env);
    var expired := ExpireRooms(reaped, input.expired, env);
    var timed := WakeLapsed(expired, env.now).(lastRecheckAt := if RecheckDue(st, env) then env.now else st.lastRecheckAt);
    QuietStepKeeps(expired, timed, []);
    RelaxTickOrderly(timed, input.order, env.now);
    SweepPreparedKeeps(st, input, env);
    MatchPassOrderly(SweepPrepared(st, input, env), if RecheckDue(st, env) then RecheckPass else DirtyPass, env.(now := input.passAt));
  }

  /** The events that block a pair and end its room at once. */
  lemma LeavingOrderly(st: State, ev: Event, env: Env)
    requires Orderly(st) && Inv(st) && (ev.Decline? || ev.Skip? || ev.CallFailed?)
    ensures Orderly(Step(st, ev, env))
  {
    match ev
    case Decline(s, r) =>
      if MemberOf(st, s, r) && !st.rooms[r].active {
        BlockEndAndMatchOrderly(st, r, s, st.cfg.declineBlockMs, false, Declined, PartnerDeclined, env);
      }
    case Skip(s, only) =>
      if s in st.sessions && st.sessions[s].roomId.Some? && MemberOf(st, s, st.sessions[s].roomId.value) {
        BlockEndAndMatchOrderly(st, st.sessions[s].roomId.value, s, 0, true, Skipped, PartnerSkipped, env);
      }
    case CallFailed(s, r) =>
      if MemberOf(st, s, r) && st.rooms[r].active {
        BlockEndAndMatchOrderly(st, r, s, st.cfg.declineBlockMs, false, ConnectionFailed, ConnectionFailed, env);
      }
  }

  lemma StepOrderly(st: State, ev: Event, env: Env)
    requires Orderly(st) && Inv(st)
    ensures Orderly(Step(st, ev, env))
  {
    match ev
    case Hello(s, payload, answers) => HelloOrderly(st, s, payload, answers, env);
    case UpdatePreferences(s, preferences) => UpdatePreferencesOrderly(st, s, preferences, env);
    case Accept(s, r) => AcceptOrderly(st, s, r, env);
    case Decline(s, r) => LeavingOrderly(st, ev, env);
    case Connected(s, r) => ConnectedOrderly(st, s, r, env);
    case Skip(s, only) => LeavingOrderly(st, ev, env);
    case Report(s, r, target) => ReportOrderly(st, s, r, target, env);
    case Restrict(device, blocking) => RestrictOrderly(st, device, blocking, env);
    case CallFailed(s, r) => LeavingOrderly(st, ev, env);
    case Disconnect(s) => DisconnectOrderly(st, s, env);
    case Sweep(input) => SweepOrderly(st, input, env);
    case StartCall(task, ready) => StartCallOrderly(st, task, ready, env);
    case RunWholePass => MatchPassOrderly(st, WholePass, env);
    case Shutdown(locals) => ShutdownOrderly(st, locals, env);
    case Aside(s, e) => if IsAside(e) { QuietStepKeeps(st, Step(st, ev, env), [Sent(s, e, env.now)]); }
    case Act(s, act) => QuietStepKeeps(st, Step(st, ev, env), [Acted(s, act)]);
  }

  lemma {:induction false} EveryRunIsOrderly(cfg: Config, run: seq<(Event, Env)>)
    ensures Orderly(Run(Init(cfg), run))
  {
    if run != [] {
      var n := |run| - 1;
      EveryRunIsOrderly(cfg, run[..n]);
      EveryRunIsConsistent(cfg, run[..n]);
      StepOrderly(Run(Init(cfg), run[..n]), run[n].0, run[n].1);
    }
  }

  /* ---------------------------------------------------------------- */
  /* What order means                                                  */
  /* ---------------------------------------------------------------- */

  /** Found, then partner accepted, then call start, then ended; None for anything else. */
  function Rank(item: Item, r: RoomId, s: SocketId): Option<nat> {
    if !item.Sent? || item.to != s then None
    else
      match item.event
      case MatchFound(room, _, _, _) => if room == r then Some(0) else None
      case PartnerAccepted(room) => if room == r then Some(1) else None
      case CallStart(room, _) => if room == r then Some(2) else None
      case MatchEnded(room, _) => if room == r then Some(3) else None
      case _ => None
  }

  function PhaseRank(p: Phase): int {
    match p
    case Unseen => -1
    case Found => 0
    case Told => 1
    case Started(_) => 2
    case Over => 3
    case Broken => 4
  }

  lemma {:induction false} RankReached(trace: seq<Item>, r: RoomId, s: SocketId, i: nat)
    requires i < |trace| && Rank(trace[i], r, s).Some?
    ensures PhaseRank(PhaseOf(trace, r, s)) >= Rank(trace[i], r, s).value
  {
    var n := |trace| - 1;
    if i < n {
      RankReached(trace[..n], r, s, i);
    }
  }

  lemma {:induction false} BrokenStays(trace: seq<Item>, n: nat, r: RoomId, s: SocketId)
    requires n <= |trace| && PhaseOf(trace[..n], r, s) == Broken
    ensures PhaseOf(trace, r, s) == Broken
  {
    if n == |trace| {
      assert trace[..n] == trace;
    } else {
      assert trace[..|trace| - 1][..n] == trace[..n];
      BrokenStays(trace[..|trace| - 1], n, r, s);
    }
  }

  lemma UnbrokenTracesAreInOrder(trace: seq<Item>, r: RoomId, s: SocketId, i: nat, j: nat)
    requires i < j < |trace| && Rank(trace[i], r, s).Some? && Rank(trace[j], r, s).Some?
    requires PhaseOf(trace, r, s) != Broken
    ensures Rank(trace[i], r, s).value < Rank(trace[j], r, s).value
  {
    var upto := trace[..j + 1];
    if PhaseOf(upto, r, s) == Broken {
      BrokenStays(trace, j + 1, r, s);
    }
    assert upto[..j] == trace[..j] && trace[..j][i] == trace[i];
    RankReached(trace[..j], r, s, i);
    assert PhaseOf(upto, r, s) == Advance(PhaseOf(trace[..j], r, s), trace[j], r, s);
  }

  /**
   * In any run, what a member hears about a room comes in lifecycle order and
   * each event at most once: in particular call:start never follows match:ended.
   */
  lemma LifecycleInOrder(cfg: Config, run: seq<(Event, Env)>, r: RoomId, s: SocketId, i: nat, j: nat)
    requires i < j < |Run(Init(cfg), run).out|
    requires Rank(Run(Init(cfg), run).out[i], r, s).Some? && Rank(Run(Init(cfg), run).out[j], r, s).Some?
    ensures Rank(Run(Init(cfg), run).out[i], r, s).value < Rank(Run(Init(cfg), run).out[j], r, s).value
  {
    EveryRunIsOrderly(cfg, run);
    UnbrokenTracesAreInOrder(Run(Init(cfg), run).out, r, s, i, j);
  }

  /** The first a member hears of a room is match:found. */
  lemma {:induction false} NothingBeforeFound(trace: seq<Item>, r: RoomId, s: SocketId, j: nat)
    requires j < |trace| && Rank(trace[j], r, s).Some? && PhaseOf(trace, r, s) != Broken
    ensures exists i :: 0 <= i <= j && Rank(trace[i], r, s) == Some(0)
    decreases j
  {
    if Rank(trace[j], r, s) != Some(0) {
      var upto := trace[..j + 1];
      if PhaseOf(upto, r, s) == Broken {
        BrokenStays(trace, j + 1, r, s);
      }
      assert upto[..j] == trace[..j];
      SomethingHeard(trace[..j], r, s);
      var k :| 0 <= k < j && Rank(trace[..j][k], r, s).Some?;
      NothingBeforeFound(trace, r, s, k);
    }
  }

  lemma {:induction false} SomethingHeard(trace: seq<Item>, r: RoomId, s: SocketId)
    requires PhaseOf(trace, r, s) != Unseen
    ensures exists k :: 0 <= k < |trace| && Rank(trace[k], r, s).Some?
  {
    var n := |trace| - 1;
    if Rank(trace[n], r, s) == None {
      SomethingHeard(trace[..n], r, s);
      var k :| 0 <= k < n && Rank(trace[..n][k], r, s).Some?;
      assert Rank(trace[k], r, s).Some?;
    }
  }

  /**
   * In every run, call:start leaves the server only for a room that is active,
   * with both sides accepted, and goes to its two members in one step and never
   * again: one is the initiator and the other is not.
   */
  lemma CallStartNeedsBothAccepts(cfg: Config, run: seq<(Event, Env)>, task: nat, ready: bool, env: Env)
    ensures var st := Run(Init(cfg), run);
      var out' := StartCallStep(st, task, ready, env).out;
      out' != st.out ==>
        && task < |st.calls|
        && var t := st.calls[task];
        && t.room in st.rooms && st.rooms[t.room].active && st.rooms[t.room].acceptedA && st.rooms[t.room].acceptedB
        && out' == st.out + [Sent(st.rooms[t.room].a, CallStart(t.room, true), env.now)]
                          + [Sent(st.rooms[t.room].b, CallStart(t.room, false), env.now)]
        && !PhaseOf(st.out, t.room, t.a).Started? && !PhaseOf(st.out, t.room, t.b).Started?
  {
    EveryRunIsOrderly(cfg, run);
    EveryRunIsConsistent(cfg, run);
    var st := Run(Init(cfg), run);
    if task < |st.calls| {
      var t := st.calls[task];
      assert TaskOk(st.out, st.rooms, st.nextRoom, t);
      if t.room in st.rooms {
        assert RoomOk(st.sessions, t.room, st.rooms[t.room]);
      }
    }
  }
}
