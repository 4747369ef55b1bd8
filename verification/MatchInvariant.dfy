/**
 * The invariant every locked section keeps: sessions, rooms, the queue and the
 * device bindings always tell one story.
 */
module MatchInvariant {
  import opened Wrappers
  import opened Compatibility
  import opened Protocol
  import opened WaitingQueue
  import opened Greedy
  import opened MatchModel
  import opened PassTheory

  type Sessions = map<SocketId, Session>
  type Rooms = map<RoomId, Room>
  type Devices = map<DeviceId, SocketId>

  /** The position key each waiting session must have in the queue. */
  function WaitKeys(sessions: Sessions): map<SocketId, nat> {
    map s | s in sessions && sessions[s].state == Waiting && sessions[s].waitingSince.Some? :: sessions[s].waitingSince.value
  }

  predicate Lists(rooms: Rooms, r: Option<RoomId>, s: SocketId, active: bool) {
    r.Some? && r.value in rooms && (rooms[r.value].a == s || rooms[r.value].b == s) && rooms[r.value].active == active
  }

  /** A session is pending or active exactly when its room exists in that state and lists it. */
  predicate SessionOk(rooms: Rooms, s: SocketId, session: Session) {
    match session.state
    case Idle => session.roomId == None && session.waitingSince == None
    case Waiting => session.roomId == None && session.waitingSince.Some?
    case Pending => session.waitingSince == None && Lists(rooms, session.roomId, s, false)
    case Active => session.waitingSince == None && Lists(rooms, session.roomId, s, true)
  }

  predicate PointsBack(sessions: Sessions, r: RoomId, s: SocketId, device: DeviceId) {
    s in sessions && sessions[s].roomId == Some(r) && sessions[s].who.deviceId == device
  }

  /** Active means both accepted; coins count only once both are connected. */
  predicate RoomShape(room: Room) {
    && room.a != room.b && room.deviceA != room.deviceB
    && (room.active <==> room.acceptedA && room.acceptedB)
    && (room.active <==> room.activeSince.Some?)
    && (room.connectedSince.Some? <==> room.connectedA && room.connectedB)
    && (room.connectedA || room.connectedB ==> room.active)
  }

  /** Both members exist, point back and carry the room's devices. */
  predicate RoomOk(sessions: Sessions, r: RoomId, room: Room) {
    RoomShape(room) && PointsBack(sessions, r, room.a, room.deviceA) && PointsBack(sessions, r, room.b, room.deviceB)
  }

  predicate BoundTo(devices: Devices, s: SocketId, session: Session) {
    session.who.deviceId in devices && devices[session.who.deviceId] == s
  }

  ghost predicate SessionsOk(sessions: Sessions, rooms: Rooms, gone: set<SocketId>) {
    forall s :: s in sessions && s !in gone ==> SessionOk(rooms, s, sessions[s])
  }

  ghost predicate RoomsOk(sessions: Sessions, rooms: Rooms) {
    forall r :: r in rooms ==> RoomOk(sessions, r, rooms[r])
  }

  /** Every session is the one its device is bound to, so no two sessions share a device. */
  ghost predicate DevicesOk(sessions: Sessions, devices: Devices) {
    && (forall s :: s in sessions ==> BoundTo(devices, s, sessions[s]))
    && (forall d :: d in devices ==> devices[d] in sessions && sessions[devices[d]].who.deviceId == d)
  }

  ghost predicate GoneOk(sessions: Sessions, gone: set<SocketId>) {
    forall s :: s in gone ==> s in sessions && sessions[s].state != Waiting
  }

  ghost predicate Numbered(rooms: Rooms, nextRoom: RoomId) {
    forall r :: r in rooms ==> r < nextRoom
  }

  /** `gone` are the sessions whose room has just ended and who are about to be removed or re-queued. */
  ghost predicate Consistent(st: State, gone: set<SocketId>) {
    && Represents(st.queue, WaitKeys(st.sessions))
    && SessionsOk(st.sessions, st.rooms, gone)
    && GoneOk(st.sessions, gone)
    && RoomsOk(st.sessions, st.rooms)
    && DevicesOk(st.sessions, st.devices)
    && Numbered(st.rooms, st.nextRoom)
  }

  ghost predicate Inv(st: State) {
    Consistent(st, {})
  }

  ghost predicate Unroomed(rooms: Rooms, s: SocketId) {
    forall r :: r in rooms ==> rooms[r].a != s && rooms[r].b != s
  }

  lemma NoTwoSessionsShareADevice(st: State, s: SocketId, t: SocketId)
    requires Inv(st) && s in st.sessions && t in st.sessions
    requires st.sessions[s].who.deviceId == st.sessions[t].who.deviceId
    ensures s == t
  {
    assert BoundTo(st.devices, s, st.sessions[s]) && BoundTo(st.devices, t, st.sessions[t]);
  }

  /** The fields the invariant speaks of are the same in both states. */
  predicate SameStory(st: State, st': State) {
    && st'.sessions == st.sessions && st'.queue == st.queue && st'.rooms == st.rooms
    && st'.devices == st.devices && st'.nextRoom == st.nextRoom
  }

  /* ---------------------------------------------------------------- */
  /* One session changes                                               */
  /* ---------------------------------------------------------------- */

  /** Replacing a session that no room lists disturbs no other session, room or binding. */
  lemma RestateKeeps(sessions: Sessions, rooms: Rooms, devices: Devices, s: SocketId, session: Session, gone: set<SocketId>)
    requires SessionsOk(sessions, rooms, gone) && GoneOk(sessions, gone) && RoomsOk(sessions, rooms) && DevicesOk(sessions, devices)
    requires s in sessions && Unroomed(rooms, s) && session.who.deviceId == sessions[s].who.deviceId
    requires SessionOk(rooms, s, session)
    ensures SessionsOk(sessions[s := session], rooms, gone - {s}) && GoneOk(sessions[s := session], gone - {s})
    ensures RoomsOk(sessions[s := session], rooms) && DevicesOk(sessions[s := session], devices)
  {
    forall r | r in rooms ensures RoomOk(sessions[s := session], r, rooms[r]) {
      assert RoomOk(sessions, r, rooms[r]);
    }
    var sessions' := sessions[s := session];
    forall x | x in sessions' ensures BoundTo(devices, x, sessions'[x]) {
      assert BoundTo(devices, x, sessions[x]);
    }
  }

  /** A session whose room is gone, or who has none, is listed by no room. */
  lemma RoomlessIsUnroomed(sessions: Sessions, rooms: Rooms, s: SocketId)
    requires RoomsOk(sessions, rooms) && s in sessions
    requires sessions[s].roomId.Some? ==> sessions[s].roomId.value !in rooms
    ensures Unroomed(rooms, s)
  {
    forall r | r in rooms ensures rooms[r].a != s && rooms[r].b != s {
      assert RoomOk(sessions, r, rooms[r]);
    }
  }

  /** Everything about a state that queueing or freeing `s` leaves alone. */
  ghost predicate OnlySession(st: State, st': State, s: SocketId) {
    && st'.rooms == st.rooms && st'.devices == st.devices && st'.nextRoom == st.nextRoom
    && st'.blocks == st.blocks && st'.cfg == st.cfg && st'.calls == st.calls && st'.stopped == st.stopped
    && s in st.sessions && s in st'.sessions && st'.sessions == st.sessions[s := st'.sessions[s]]
  }

  lemma EnqueueFrame(st: State, s: SocketId, since: Option<nat>, env: Env)
    requires s in st.sessions
    ensures OnlySession(st, Enqueue(st, s, since, env), s)
    ensures Enqueue(st, s, since, env).sessions[s] == QueuedSession(st.sessions[s], since.GetOr(env.now), env)
    ensures Enqueue(st, s, since, env).queue == Add(st.queue, s, since.GetOr(env.now))
  {
  }

  lemma QueueJoins(queue: seq<Entry>, sessions: Sessions, s: SocketId, session: Session)
    requires Represents(queue, WaitKeys(sessions)) && session.state == Waiting && session.waitingSince.Some?
    ensures Represents(Add(queue, s, session.waitingSince.value), WaitKeys(sessions[s := session]))
  {
    AddRepresents(queue, WaitKeys(sessions), s, session.waitingSince.value);
    assert WaitKeys(sessions[s := session]) == WaitKeys(sessions)[s := session.waitingSince.value];
  }

  /** A step that only restates `s`, with the queue to match, keeps the story. */
  lemma SessionStepKeeps(st: State, st': State, s: SocketId, gone: set<SocketId>)
    requires Consistent(st, gone) && OnlySession(st, st', s) && Unroomed(st.rooms, s)
    requires st'.sessions[s].who.deviceId == st.sessions[s].who.deviceId
    requires SessionOk(st.rooms, s, st'.sessions[s])
    requires Represents(st'.queue, WaitKeys(st'.sessions))
    ensures Consistent(st', gone - {s})
  {
    RestateKeeps(st.sessions, st.rooms, st.devices, s, st'.sessions[s], gone);
  }

  lemma EnqueueKeeps(st: State, s: SocketId, since: Option<nat>, env: Env, gone: set<SocketId>)
    requires Consistent(st, gone) && s in st.sessions && Unroomed(st.rooms, s)
    ensures Consistent(Enqueue(st, s, since, env), gone - {s})
  {
    EnqueueFrame(st, s, since, env);
    QueueJoins(st.queue, st.sessions, s, QueuedSession(st.sessions[s], since.GetOr(env.now), env));
    SessionStepKeeps(st, Enqueue(st, s, since, env), s, gone);
  }

  lemma IdleKeeps(st: State, s: SocketId, capped: bool, now: nat, gone: set<SocketId>)
    requires Consistent(st, gone) && s in st.sessions && Unroomed(st.rooms, s) && st.sessions[s].state != Waiting
    ensures Consistent(LeaveIdle(st, s, capped, now), gone - {s})
  {
    assert WaitKeys(st.sessions[s := IdleSession(st.sessions[s])]) == WaitKeys(st.sessions);
    SessionStepKeeps(st, LeaveIdle(st, s, capped, now), s, gone);
  }

  /* ---------------------------------------------------------------- */
  /* A room ends                                                       */
  /* ---------------------------------------------------------------- */

  lemma LeaveIdleFrame(st: State, s: SocketId, capped: bool, now: nat)
    requires s in st.sessions
    ensures OnlySession(st, LeaveIdle(st, s, capped, now), s)
  {
  }

  lemma EmitOnly(st: State, told: State, st': State, s: SocketId, e: ServerEvent, now: nat)
    requires told == Emit(st, s, e, now)
    requires OnlySession(told, st', s)
    ensures OnlySession(st, st', s)
  {
  }

  lemma FreeMemberFrame(st: State, r: RoomId, s: SocketId, reason: Option<EndReason>, env: Env)
    requires s in st.sessions
    ensures OnlySession(st, FreeMember(st, r, s, reason, env), s)
    ensures reason == None ==> FreeMember(st, r, s, reason, env) == st
  {
    var st' := FreeMember(st, r, s, reason, env);
    if reason == None {
    } else {
      var told := Emit(st, s, MatchEnded(r, reason.value), env.now);
      var device := st.sessions[s].who.deviceId;
      var capped := reason.value != AcceptTimeout && device in env.capped;
      if st.sessions[s].roomId != Some(r) {
        assert st' == told;
      } else if reason.value == AcceptTimeout || capped || device in env.banned {
        assert st' == LeaveIdle(told, s, capped, env.now);
        LeaveIdleFrame(told, s, capped, env.now);
        EmitOnly(st, told, st', s, MatchEnded(r, reason.value), env.now);
      } else {
        assert st' == Enqueue(told, s, None, env);
        EnqueueFrame(told, s, None, env);
        EmitOnly(st, told, st', s, MatchEnded(r, reason.value), env.now);
      }
    }
  }

  lemma FreeMemberKeeps(st: State, r: RoomId, s: SocketId, reason: EndReason, env: Env, gone: set<SocketId>)
    requires Consistent(st, gone) && s in gone && st.sessions[s].roomId == Some(r) && r !in st.rooms
    ensures Consistent(FreeMember(st, r, s, Some(reason), env), gone - {s})
  {
    RoomlessIsUnroomed(st.sessions, st.rooms, s);
    var told := Emit(st, s, MatchEnded(r, reason), env.now);
    assert Consistent(told, gone);
    var capped := reason != AcceptTimeout && st.sessions[s].who.deviceId in env.capped;
    if reason == AcceptTimeout || capped || st.sessions[s].who.deviceId in env.banned {
      IdleKeeps(told, s, capped, env.now, gone);
    } else {
      EnqueueKeeps(told, s, None, env, gone);
    }
  }

  /** Without room `r`, every session but its two members still fits. */
  lemma DeleteFits(sessions: Sessions, rooms: Rooms, r: RoomId)
    requires SessionsOk(sessions, rooms, {}) && RoomsOk(sessions, rooms) && r in rooms
    ensures SessionsOk(sessions, rooms - {r}, {rooms[r].a, rooms[r].b}) && RoomsOk(sessions, rooms - {r})
  {
    var room := rooms[r];
    forall s | s in sessions && s != room.a && s != room.b ensures SessionOk(rooms - {r}, s, sessions[s]) {
      assert SessionOk(rooms, s, sessions[s]);
    }
    forall q | q in rooms - {r} ensures RoomOk(sessions, q, (rooms - {r})[q]) {
      assert RoomOk(sessions, q, rooms[q]);
    }
  }

  lemma DeleteRoomKeeps(st: State, r: RoomId)
    requires Inv(st) && r in st.rooms
    ensures Consistent(RoomDeleted(st, r), {st.rooms[r].a, st.rooms[r].b})
  {
    var room := st.rooms[r];
    assert RoomOk(st.sessions, r, room);
    assert SessionOk(st.rooms, room.a, st.sessions[room.a]) && SessionOk(st.rooms, room.b, st.sessions[room.b]);
    DeleteFits(st.sessions, st.rooms, r);
  }

  function Leavers(room: Room, reasonA: Option<EndReason>, reasonB: Option<EndReason>): set<SocketId> {
    (if reasonA == None then {room.a} else {}) + (if reasonB == None then {room.b} else {})
  }

  /** What ending a room leaves alone: everything but the room and the members that hear a reason. */
  ghost predicate OnlyRoom(st: State, st': State, r: RoomId, heardA: bool, heardB: bool)
    requires r in st.rooms
  {
    && st'.rooms == st.rooms - {r} && st'.devices == st.devices && st'.sessions.Keys == st.sessions.Keys
    && st'.nextRoom == st.nextRoom && st'.blocks == st.blocks && st'.cfg == st.cfg && st'.calls == st.calls
    && st'.stopped == st.stopped
    && (forall x :: x in st.sessions && (x != st.rooms[r].a || !heardA) && (x != st.rooms[r].b || !heardB) ==>
          st'.sessions[x] == st.sessions[x])
  }

  function RoomDeleted(st: State, r: RoomId): State {
    st.(rooms := st.rooms - {r})
  }

  lemma EndRoomFrame(st: State, r: RoomId, reasonA: Option<EndReason>, reasonB: Option<EndReason>, env: Env)
    requires r in st.rooms && st.rooms[r].a in st.sessions && st.rooms[r].b in st.sessions
    ensures OnlyRoom(st, EndRoom(st, r, reasonA, reasonB, env), r, reasonA.Some?, reasonB.Some?)
  {
    var room := st.rooms[r];
    FreeMemberFrame(RoomDeleted(st, r), r, room.a, reasonA, env);
    var one := FreeMember(RoomDeleted(st, r), r, room.a, reasonA, env);
    FreeMemberFrame(one, r, room.b, reasonB, env);
    TwoSessionSteps(st, one, EndRoom(st, r, reasonA, reasonB, env), r, reasonA, reasonB);
  }

  lemma TwoSessionSteps(st: State, one: State, st': State, r: RoomId, reasonA: Option<EndReason>, reasonB: Option<EndReason>)
    requires r in st.rooms
    requires OnlySession(RoomDeleted(st, r), one, st.rooms[r].a) && (reasonA == None ==> one == RoomDeleted(st, r))
    requires OnlySession(one, st', st.rooms[r].b) && (reasonB == None ==> st' == one)
    ensures OnlyRoom(st, st', r, reasonA.Some?, reasonB.Some?)
  {
  }

  /** Freeing both ended members, in either order of leaving and hearing. */
  lemma BothFreedKeeps(st: State, r: RoomId, a: SocketId, b: SocketId, reasonA: Option<EndReason>, reasonB: Option<EndReason>, env: Env)
    requires Consistent(st, {a, b}) && a != b && r !in st.rooms
    requires st.sessions[a].roomId == Some(r) && st.sessions[b].roomId == Some(r)
    ensures Consistent(FreeMember(FreeMember(st, r, a, reasonA, env), r, b, reasonB, env),
                       (if reasonA == None then {a} else {}) + (if reasonB == None then {b} else {}))
  {
    var one := FreeMember(st, r, a, reasonA, env);
    GoneSets(a, b, reasonA, reasonB);
    OneFreedKeeps(st, r, a, reasonA, env, {a, b});
    FreeMemberFrame(st, r, a, reasonA, env);
    OneFreedKeeps(one, r, b, reasonB, env, if reasonA == None then {a, b} else {a, b} - {a});
  }

  lemma GoneSets(a: SocketId, b: SocketId, reasonA: Option<EndReason>, reasonB: Option<EndReason>)
    requires a != b
    ensures var gone := if reasonA == None then {a, b} else {a, b} - {a};
      && b in gone
      && (if reasonB == None then gone else gone - {b}) == (if reasonA == None then {a} else {}) + (if reasonB == None then {b} else {})
  {
  }

  lemma OneFreedKeeps(st: State, r: RoomId, s: SocketId, reason: Option<EndReason>, env: Env, gone: set<SocketId>)
    requires Consistent(st, gone) && s in gone && st.sessions[s].roomId == Some(r) && r !in st.rooms
    ensures Consistent(FreeMember(st, r, s, reason, env), if reason == None then gone else gone - {s})
  {
    if reason.Some? {
      FreeMemberKeeps(st, r, s, reason.value, env, gone);
    }
  }

  lemma EndRoomKeeps(st: State, r: RoomId, reasonA: Option<EndReason>, reasonB: Option<EndReason>, env: Env)
    requires Inv(st) && r in st.rooms
    ensures Consistent(EndRoom(st, r, reasonA, reasonB, env), Leavers(st.rooms[r], reasonA, reasonB))
  {
    DeleteRoomKeeps(st, r);
    assert RoomOk(st.sessions, r, st.rooms[r]);
    BothFreedKeeps(RoomDeleted(st, r), r, st.rooms[r].a, st.rooms[r].b, reasonA, reasonB, env);
  }

  lemma EndRoomOfKeeps(st: State, r: RoomId, s: SocketId, mine: EndReason, theirs: EndReason, env: Env)
    requires Inv(st) && r in st.rooms
    ensures Inv(EndRoomOf(st, r, s, Some(mine), Some(theirs), env))
    ensures EndRoomOf(st, r, s, Some(mine), Some(theirs), env).sessions.Keys == st.sessions.Keys
  {
    var (reasonA, reasonB) := ReasonsFor(st.rooms[r], s, Some(mine), Some(theirs));
    EndRoomKeeps(st, r, reasonA, reasonB, env);
    assert Leavers(st.rooms[r], reasonA, reasonB) == {};
    assert RoomOk(st.sessions, r, st.rooms[r]);
    EndRoomFrame(st, r, reasonA, reasonB, env);
  }

  /* ---------------------------------------------------------------- */
  /* A session leaves                                                  */
  /* ---------------------------------------------------------------- */

  lemma DropSessionKeeps(st: State, s: SocketId, gone: set<SocketId>)
    requires s in st.sessions && Unroomed(st.rooms, s) && gone <= {s} && Consistent(st, gone)
    ensures Inv(DropSession(st, s, st.sessions[s].who.deviceId))
    ensures st.sessions[s].who.deviceId !in DropSession(st, s, st.sessions[s].who.deviceId).devices
  {
    var st' := DropSession(st, s, st.sessions[s].who.deviceId);
    WithoutRepresents(st.queue, WaitKeys(st.sessions), s);
    assert WaitKeys(st'.sessions) == WaitKeys(st.sessions) - {s};
    assert BoundTo(st.devices, s, st.sessions[s]);
    forall x | x in st'.sessions ensures BoundTo(st'.devices, x, st'.sessions[x]) {
      assert BoundTo(st.devices, x, st.sessions[x]);
    }
    forall r | r in st'.rooms ensures RoomOk(st'.sessions, r, st'.rooms[r]) {
      assert RoomOk(st.sessions, r, st.rooms[r]);
    }
  }

  /** A session with a room is a member of that room. */
  lemma RoomedIsMember(st: State, s: SocketId)
    requires Inv(st) && s in st.sessions && st.sessions[s].roomId.Some?
    ensures MemberOf(st, s, st.sessions[s].roomId.value)
    ensures RoomOk(st.sessions, st.sessions[s].roomId.value, st.rooms[st.sessions[s].roomId.value])
  {
    assert SessionOk(st.rooms, s, st.sessions[s]);
  }

  lemma LeaversRoomFrame(st: State, s: SocketId, reason: EndReason, env: Env)
    requires Inv(st) && s in st.sessions
    ensures var ended := EndLeaversRoom(st, s, reason, env);
      && ended.sessions.Keys == st.sessions.Keys && ended.sessions[s] == st.sessions[s] && ended.devices == st.devices
      && ended.nextRoom == st.nextRoom
      && ended.rooms == (if st.sessions[s].roomId.Some? then st.rooms - {st.sessions[s].roomId.value} else st.rooms)
  {
    var roomId := st.sessions[s].roomId;
    if roomId.Some? {
      RoomedIsMember(st, s);
      var (reasonA, reasonB) := ReasonsFor(st.rooms[roomId.value], s, None, Some(reason));
      EndRoomFrame(st, roomId.value, reasonA, reasonB, env);
    }
  }

  lemma LeaversRoomKeeps(st: State, s: SocketId, reason: EndReason, env: Env)
    requires Inv(st) && s in st.sessions
    ensures Consistent(EndLeaversRoom(st, s, reason, env), if st.sessions[s].roomId.Some? then {s} else {})
  {
    var roomId := st.sessions[s].roomId;
    if roomId.Some? {
      RoomedIsMember(st, s);
      LeaverIsGone(st.rooms[roomId.value], s, reason);
      var (reasonA, reasonB) := ReasonsFor(st.rooms[roomId.value], s, None, Some(reason));
      EndRoomKeeps(st, roomId.value, reasonA, reasonB, env);
    }
  }

  lemma LeaverIsGone(room: Room, s: SocketId, reason: EndReason)
    requires room.a == s || room.b == s
    ensures var (reasonA, reasonB) := ReasonsFor(room, s, None, Some(reason)); Leavers(room, reasonA, reasonB) == {s}
  {
  }

  lemma RemoveSessionKeeps(st: State, s: SocketId, reason: EndReason, env: Env)
    requires Inv(st) && s in st.sessions
    ensures Inv(RemoveSession(st, s, reason, env))
    ensures RemoveSession(st, s, reason, env).sessions.Keys == st.sessions.Keys - {s}
    ensures st.sessions[s].who.deviceId !in RemoveSession(st, s, reason, env).devices
    ensures RemoveSession(st, s, reason, env).nextRoom == st.nextRoom
  {
    LeaversRoomFrame(st, s, reason, env);
    LeaversRoomKeeps(st, s, reason, env);
    var ended := EndLeaversRoom(st, s, reason, env);
    EndedLeaverDrops(ended, s, if st.sessions[s].roomId.Some? then {s} else {});
  }

  lemma EndedLeaverDrops(ended: State, s: SocketId, gone: set<SocketId>)
    requires s in ended.sessions && gone <= {s} && Consistent(ended, gone)
    requires ended.sessions[s].roomId.Some? ==> ended.sessions[s].roomId.value !in ended.rooms
    ensures Inv(DropSession(ended, s, ended.sessions[s].who.deviceId))
    ensures ended.sessions[s].who.deviceId !in DropSession(ended, s, ended.sessions[s].who.deviceId).devices
  {
    RoomlessIsUnroomed(ended.sessions, ended.rooms, s);
    DropSessionKeeps(ended, s, gone);
  }

  lemma ReplaceKeeps(st: State, previous: SocketId, env: Env)
    requires Inv(st) && previous in st.sessions
    ensures Inv(Replace(st, previous, env))
    ensures st.sessions[previous].who.deviceId !in Replace(st, previous, env).devices
    ensures Replace(st, previous, env).sessions.Keys == st.sessions.Keys - {previous}
  {
    var told := Emit(st, previous, SessionReplaced, env.now);
    assert Inv(told);
    RemoveSessionKeeps(told, previous, PartnerUnavailable, env);
  }

  /* ---------------------------------------------------------------- */
  /* A room starts                                                     */
  /* ---------------------------------------------------------------- */

  /** Two waiting sessions of different devices. */
  predicate Pairable(st: State, a: SocketId, b: SocketId) {
    && a in st.sessions && b in st.sessions
    && st.sessions[a].state == Waiting && st.sessions[b].state == Waiting
    && st.sessions[a].who.deviceId != st.sessions[b].who.deviceId
  }

  /**
   * Writing room `r` over two sessions: `rooms'` and `sessions'` differ from
   * the old ones only there.
   */
  lemma RoomWriteKeeps(sessions: Sessions, rooms: Rooms, devices: Devices, sessions': Sessions, r: RoomId, room: Room)
    requires DevicesOk(sessions, devices)
    requires forall s :: s in sessions && s != room.a && s != room.b ==> SessionOk(rooms, s, sessions[s])
    requires forall q :: q in rooms && q != r ==> RoomOk(sessions, q, rooms[q])
    requires forall s :: s in sessions && sessions[s].roomId == Some(r) ==> s == room.a || s == room.b
    requires room.a in sessions && room.b in sessions && room.a != room.b
    requires Unroomed(rooms - {r}, room.a) && Unroomed(rooms - {r}, room.b)
    requires room.a in sessions' && room.b in sessions'
    requires sessions' == sessions[room.a := sessions'[room.a]][room.b := sessions'[room.b]]
    requires sessions'[room.a].who == sessions[room.a].who && sessions'[room.b].who == sessions[room.b].who
    requires RoomShape(room) && PointsBack(sessions', r, room.a, room.deviceA) && PointsBack(sessions', r, room.b, room.deviceB)
    requires SessionOk(rooms[r := room], room.a, sessions'[room.a]) && SessionOk(rooms[r := room], room.b, sessions'[room.b])
    ensures SessionsOk(sessions', rooms[r := room], {}) && RoomsOk(sessions', rooms[r := room]) && DevicesOk(sessions', devices)
  {
    forall s | s in sessions' ensures SessionOk(rooms[r := room], s, sessions'[s]) && BoundTo(devices, s, sessions'[s]) {
      assert BoundTo(devices, s, sessions[s]);
      if s != room.a && s != room.b {
        assert SessionOk(rooms, s, sessions[s]);
      }
    }
    var rooms' := rooms[r := room];
    forall q | q in rooms' ensures RoomOk(sessions', q, rooms'[q]) {
      if q != r {
        assert RoomOk(sessions, q, rooms[q]);
        assert (rooms - {r})[q] == rooms[q];
      }
    }
  }

  lemma QueueLosesTwo(queue: seq<Entry>, sessions: Sessions, a: SocketId, b: SocketId, sessionA: Session, sessionB: Session)
    requires Represents(queue, WaitKeys(sessions)) && sessionA.state != Waiting && sessionB.state != Waiting
    ensures Represents(Without(Without(queue, a), b), WaitKeys(sessions[a := sessionA][b := sessionB]))
  {
    WithoutRepresents(queue, WaitKeys(sessions), a);
    WithoutRepresents(Without(queue, a), WaitKeys(sessions) - {a}, b);
    assert WaitKeys(sessions[a := sessionA][b := sessionB]) == WaitKeys(sessions) - {a} - {b};
  }

  function RoomState(started: bool): SessionState {
    if started then Active else Pending
  }

  /** What createRoomLocked leaves behind, whichever sides the server accepted for. */
  ghost predicate Created(st: State, st': State, a: SocketId, b: SocketId, env: Env)
    requires a in st.sessions && b in st.sessions
  {
    var r := st.nextRoom;
    var room := NewRoom(st, a, b, env);
    var started := room.acceptedA && room.acceptedB;
    && st'.queue == Without(Without(st.queue, a), b) && st'.devices == st.devices && st'.nextRoom == r + 1
    && st'.rooms == st.rooms[r := room.(active := started, activeSince := if started then Some(env.now) else None)]
    && st'.sessions == st.sessions[a := Matched(st.sessions[a], r).(state := RoomState(started))]
                                  [b := Matched(st.sessions[b], r).(state := RoomState(started))]
    && st'.blocks == st.blocks && st'.cfg == st.cfg && st'.wakeAt == st.wakeAt && st'.dirty == st.dirty
    && st'.relaxing == st.relaxing - {a} - {b} && st'.stopped == st.stopped
    && st'.calls == (if started then st.calls + [CallTask(r, env.now, a, b)] else st.calls)
  }

  lemma CreateRoomShape(st: State, a: SocketId, b: SocketId, env: Env)
    requires a in st.sessions && b in st.sessions && a != b
    ensures Created(st, CreateRoom(st, a, b, env), a, b, env)
  {
  }

  lemma WaitingAreUnroomed(st: State, s: SocketId)
    requires Inv(st) && s in st.sessions && st.sessions[s].state == Waiting
    ensures Unroomed(st.rooms, s)
  {
    assert SessionOk(st.rooms, s, st.sessions[s]);
    RoomlessIsUnroomed(st.sessions, st.rooms, s);
  }

  lemma NextRoomIsFree(st: State)
    requires Inv(st)
    ensures st.nextRoom !in st.rooms
    ensures forall s :: s in st.sessions ==> st.sessions[s].roomId != Some(st.nextRoom)
  {
    forall s | s in st.sessions ensures st.sessions[s].roomId != Some(st.nextRoom) {
      assert SessionOk(st.rooms, s, st.sessions[s]);
    }
  }

  /** The new room and its two members fit each other. */
  lemma CreatedFits(st: State, st': State, a: SocketId, b: SocketId, env: Env)
    requires Pairable(st, a, b) && a != b && Created(st, st', a, b, env)
    ensures var r := st.nextRoom;
      && r in st'.rooms && st'.rooms == st.rooms[r := st'.rooms[r]] && st'.rooms[r].a == a && st'.rooms[r].b == b
      && RoomShape(st'.rooms[r])
      && PointsBack(st'.sessions, r, a, st'.rooms[r].deviceA) && PointsBack(st'.sessions, r, b, st'.rooms[r].deviceB)
      && SessionOk(st'.rooms, a, st'.sessions[a]) && SessionOk(st'.rooms, b, st'.sessions[b])
    ensures st'.sessions == st.sessions[a := st'.sessions[a]][b := st'.sessions[b]]
    ensures st'.sessions[a].who == st.sessions[a].who && st'.sessions[b].who == st.sessions[b].who
    ensures st'.sessions[a].state != Waiting && st'.sessions[b].state != Waiting
  {
  }

  /** A state that createRoomLocked may leave behind is consistent. */
  lemma CreatedKeeps(st: State, st': State, a: SocketId, b: SocketId, env: Env)
    requires Inv(st) && Pairable(st, a, b) && Created(st, st', a, b, env)
    ensures SessionsOk(st'.sessions, st'.rooms, {}) && RoomsOk(st'.sessions, st'.rooms) && DevicesOk(st'.sessions, st'.devices)
  {
    WaitingAreUnroomed(st, a);
    WaitingAreUnroomed(st, b);
    NextRoomIsFree(st);
    var r := st.nextRoom;
    assert st.rooms - {r} == st.rooms;
    CreatedFits(st, st', a, b, env);
    RoomWriteKeeps(st.sessions, st.rooms, st.devices, st'.sessions, r, st'.rooms[r]);
  }

  lemma CreateRoomKeeps(st: State, a: SocketId, b: SocketId, env: Env)
    requires Inv(st) && Pairable(st, a, b)
    ensures Inv(CreateRoom(st, a, b, env))
    ensures Created(st, CreateRoom(st, a, b, env), a, b, env)
  {
    CreateRoomShape(st, a, b, env);
    CreatedFits(st, CreateRoom(st, a, b, env), a, b, env);
    CreatedKeeps(st, CreateRoom(st, a, b, env), a, b, env);
    QueueLosesTwo(st.queue, st.sessions, a, b, CreateRoom(st, a, b, env).sessions[a], CreateRoom(st, a, b, env).sessions[b]);
  }

  /** Two sessions in one room turn active. */
  lemma ActivatedShape(sessions: Sessions, r: RoomId, room: Room)
    requires room.a != room.b && PointsBack(sessions, r, room.a, room.deviceA) && PointsBack(sessions, r, room.b, room.deviceB)
    ensures Activated(Activated(sessions, room.a, r), room.b, r)
            == sessions[room.a := sessions[room.a].(state := Active)][room.b := sessions[room.b].(state := Active)]
  {
  }

  /** What RoomWriteKeeps asks of everyone outside room `r`. */
  lemma OutsidersOf(st: State, r: RoomId)
    requires Inv(st) && r in st.rooms
    ensures forall s :: s in st.sessions && st.sessions[s].roomId == Some(r) ==> s == st.rooms[r].a || s == st.rooms[r].b
    ensures Unroomed(st.rooms - {r}, st.rooms[r].a) && Unroomed(st.rooms - {r}, st.rooms[r].b)
  {
    var room := st.rooms[r];
    assert RoomOk(st.sessions, r, room);
    forall s | s in st.sessions && st.sessions[s].roomId == Some(r) ensures s == room.a || s == room.b {
      assert SessionOk(st.rooms, s, st.sessions[s]);
    }
    forall q | q in st.rooms - {r} ensures (st.rooms - {r})[q].a != room.a && (st.rooms - {r})[q].b != room.a
                                        && (st.rooms - {r})[q].a != room.b && (st.rooms - {r})[q].b != room.b {
      assert RoomOk(st.sessions, q, st.rooms[q]);
    }
  }

  /** Accepting turns a pending room and its two sessions active together. */
  lemma ActivateKeeps(st: State, r: RoomId, room: Room, now: nat)
    requires Inv(st) && r in st.rooms && !st.rooms[r].active
    requires room.acceptedA && room.acceptedB
    requires room == st.rooms[r].(acceptedA := true, acceptedB := true)
    ensures Inv(ActivateRoom(st, r, room, now))
  {
    var st' := ActivateRoom(st, r, room, now);
    assert RoomOk(st.sessions, r, st.rooms[r]);
    assert SessionOk(st.rooms, room.a, st.sessions[room.a]) && SessionOk(st.rooms, room.b, st.sessions[room.b]);
    ActivatedShape(st.sessions, r, room);
    ActiveKeysSame(st.sessions, room.a, room.b);
    OutsidersOf(st, r);
    RoomWriteKeeps(st.sessions, st.rooms, st.devices, st'.sessions, r, st'.rooms[r]);
  }

  lemma ActiveKeysSame(sessions: Sessions, a: SocketId, b: SocketId)
    requires a in sessions && b in sessions && sessions[a].state != Waiting && sessions[b].state != Waiting
    ensures WaitKeys(sessions[a := sessions[a].(state := Active)][b := sessions[b].(state := Active)]) == WaitKeys(sessions)
  {
  }

  /** Marking an acceptance or a connection on a room that stays in its state. */
  lemma MarkRoomKeeps(st: State, r: RoomId, room: Room)
    requires Inv(st) && r in st.rooms && RoomShape(room) && room.active == st.rooms[r].active
    requires room.a == st.rooms[r].a && room.b == st.rooms[r].b
    requires room.deviceA == st.rooms[r].deviceA && room.deviceB == st.rooms[r].deviceB
    ensures Inv(st.(rooms := st.rooms[r := room]))
  {
    forall s | s in st.sessions ensures SessionOk(st.rooms[r := room], s, st.sessions[s]) {
      assert SessionOk(st.rooms, s, st.sessions[s]);
    }
    forall q | q in st.rooms ensures RoomOk(st.sessions, q, st.rooms[r := room][q]) {
      assert RoomOk(st.sessions, q, st.rooms[q]);
    }
  }

  /* ---------------------------------------------------------------- */
  /* The pass                                                          */
  /* ---------------------------------------------------------------- */

  /** With the queue in order, loading it drops nothing and reads every waiting session in turn. */
  lemma {:induction false} LoadsQueue(queue: seq<Entry>, sessions: map<SocketId, Session>)
    requires forall e :: e in queue ==> e.socket in sessions && sessions[e.socket].state == Waiting
    ensures DropStale(queue, sessions) == queue
    ensures |LoadWaiting(queue, sessions)| == |queue|
    ensures forall i :: 0 <= i < |queue| ==> LoadWaiting(queue, sessions)[i] == Waiter(queue[i].socket, sessions[queue[i].socket])
  {
    if queue != [] {
      assert queue[0] in queue && forall e :: e in queue[1..] ==> e in queue;
      LoadsQueue(queue[1..], sessions);
    }
  }

  /** Waiters read from the store: distinct sockets, each still as it was read. */
  ghost predicate Loaded(st: State, waiting: seq<Waiter>) {
    && (forall i :: 0 <= i < |waiting| ==> waiting[i].socket in st.sessions && waiting[i].session == st.sessions[waiting[i].socket])
    && (forall i :: 0 <= i < |waiting| ==> waiting[i].session.state == Waiting)
    && (forall i, j :: 0 <= i < j < |waiting| ==> waiting[i].socket != waiting[j].socket)
  }

  lemma QueueIsLoaded(st: State)
    requires Inv(st)
    ensures var waiting := LoadWaiting(st.queue, st.sessions);
      && DropStale(st.queue, st.sessions) == st.queue
      && |waiting| == |st.queue|
      && Loaded(st, waiting)
      && (forall i :: 0 <= i < |waiting| ==> waiting[i].socket == st.queue[i].socket)
  {
    forall e | e in st.queue ensures e.socket in st.sessions && st.sessions[e.socket].state == Waiting {
      assert e.socket in WaitKeys(st.sessions);
    }
    LoadsQueue(st.queue, st.sessions);
    forall i, j | 0 <= i < j < |st.queue| ensures st.queue[i].socket != st.queue[j].socket {
      assert Follows(st.queue[i], st.queue[j]);
    }
  }

  /** Pairs a pass may create from `waiting`: in range, disjoint, on different devices. */
  ghost predicate Creatable(waiting: seq<Waiter>, pairs: seq<Pairing>) {
    && (forall p :: p in pairs ==> p.i < p.j < |waiting| && waiting[p.i].session.who.deviceId != waiting[p.j].session.who.deviceId)
    && (forall x, y :: 0 <= x < y < |pairs| ==> !Meet(pairs[x], pairs[y]))
  }

  lemma ScanIsCreatable(bd: Board, wake: map<SocketId, nat>)
    requires bd.Valid()
    ensures Creatable(bd.waiting, Scan(bd, 0, {}, wake).pairs)
  {
    ScanIsPass(bd, 0, {}, wake);
    PassFacts(MayTryRelation(bd), |bd.waiting|, 0, {});
    forall p | p in Scan(bd, 0, {}, wake).pairs
      ensures p.i < p.j < |bd.waiting| && bd.waiting[p.i].session.who.deviceId != bd.waiting[p.j].session.who.deviceId
    {
      assert Candidates(MayTryRelation(bd), |bd.waiting|, p);
    }
  }

  /** Every waiter outside the pairs made so far is still as the pass read it. */
  ghost predicate Untouched(st: State, waiting: seq<Waiter>, pairs: seq<Pairing>) {
    forall x :: 0 <= x < |waiting| && !InSome(pairs, x) ==>
      waiting[x].socket in st.sessions && st.sessions[waiting[x].socket] == waiting[x].session
  }

  /** Pairs created in order: the last one meets none of the earlier ones. */
  lemma LastPairIsFree(waiting: seq<Waiter>, pairs: seq<Pairing>)
    requires pairs != [] && Creatable(waiting, pairs)
    ensures var n := |pairs| - 1;
      && Creatable(waiting, pairs[..n])
      && pairs[n].i < pairs[n].j < |waiting|
      && waiting[pairs[n].i].session.who.deviceId != waiting[pairs[n].j].session.who.deviceId
      && !InSome(pairs[..n], pairs[n].i) && !InSome(pairs[..n], pairs[n].j)
    ensures forall x: nat :: InSome(pairs, x) <==> InSome(pairs[..|pairs| - 1], x) || Has(pairs[|pairs| - 1], x)
  {
    var n := |pairs| - 1;
    var earlier, p := pairs[..n], pairs[n];
    assert p in pairs && forall q :: q in earlier ==> q in pairs;
    forall x, y | 0 <= x < y < |earlier| ensures !Meet(earlier[x], earlier[y]) {
      assert !Meet(pairs[x], pairs[y]);
    }
    forall q | q in earlier ensures !Meet(q, p) {
      var x :| 0 <= x < n && earlier[x] == q;
      assert !Meet(pairs[x], pairs[n]);
    }
    forall x: nat ensures InSome(pairs, x) <==> InSome(earlier, x) || Has(p, x) {
      if InSome(pairs, x) {
        var q :| q in pairs && Has(q, x);
        assert q == p || q in earlier;
      }
      if InSome(earlier, x) {
        var q :| q in earlier && Has(q, x);
        assert q in pairs;
      }
    }
  }

  lemma {:induction false} CreateRoomsKeeps(st: State, waiting: seq<Waiter>, pairs: seq<Pairing>, env: Env)
    requires Inv(st) && Loaded(st, waiting) && Creatable(waiting, pairs)
    ensures Inv(CreateRooms(st, waiting, pairs, env))
    ensures Untouched(CreateRooms(st, waiting, pairs, env), waiting, pairs)
    ensures CreateRooms(st, waiting, pairs, env).sessions.Keys == st.sessions.Keys
  {
    if pairs != [] {
      var n := |pairs| - 1;
      LastPairIsFree(waiting, pairs);
      CreateRoomsKeeps(st, waiting, pairs[..n], env);
      LastRoomKeeps(CreateRooms(st, waiting, pairs[..n], env), waiting, pairs, env);
    }
  }

  lemma LastRoomKeeps(before: State, waiting: seq<Waiter>, pairs: seq<Pairing>, env: Env)
    requires Inv(before) && pairs != [] && Creatable(waiting, pairs) && Untouched(before, waiting, pairs[..|pairs| - 1])
    requires forall i :: 0 <= i < |waiting| ==> waiting[i].session.state == Waiting
    requires forall i, j :: 0 <= i < j < |waiting| ==> waiting[i].socket != waiting[j].socket
    ensures var p := pairs[|pairs| - 1];
      && p.i < |waiting| && p.j < |waiting|
      && waiting[p.i].socket in before.sessions && waiting[p.j].socket in before.sessions
      && Pairable(before, waiting[p.i].socket, waiting[p.j].socket)
      && Inv(CreateRoom(before, waiting[p.i].socket, waiting[p.j].socket, env))
      && Created(before, CreateRoom(before, waiting[p.i].socket, waiting[p.j].socket, env), waiting[p.i].socket, waiting[p.j].socket, env)
      && Untouched(CreateRoom(before, waiting[p.i].socket, waiting[p.j].socket, env), waiting, pairs)
  {
    LastPairIsFree(waiting, pairs);
    var p := pairs[|pairs| - 1];
    CreateRoomKeeps(before, waiting[p.i].socket, waiting[p.j].socket, env);
    CreateRoomUntouches(before, waiting, pairs, env);
  }

  lemma CreateRoomUntouches(before: State, waiting: seq<Waiter>, pairs: seq<Pairing>, env: Env)
    requires pairs != [] && Creatable(waiting, pairs) && Untouched(before, waiting, pairs[..|pairs| - 1])
    requires forall i, j :: 0 <= i < j < |waiting| ==> waiting[i].socket != waiting[j].socket
    requires pairs[|pairs| - 1].i < pairs[|pairs| - 1].j < |waiting|
    requires waiting[pairs[|pairs| - 1].i].socket in before.sessions && waiting[pairs[|pairs| - 1].j].socket in before.sessions
    ensures var p := pairs[|pairs| - 1];
      Untouched(CreateRoom(before, waiting[p.i].socket, waiting[p.j].socket, env), waiting, pairs)
  {
    LastPairIsFree(waiting, pairs);
    var p := pairs[|pairs| - 1];
    CreateRoomShape(before, waiting[p.i].socket, waiting[p.j].socket, env);
  }

  lemma RunScanKeeps(st: State, waiting: seq<Waiter>, focus: Option<set<SocketId>>, env: Env)
    requires Inv(st) && Loaded(st, waiting)
    ensures Inv(RunScan(st, waiting, focus, env))
    ensures RunScan(st, waiting, focus, env).sessions.Keys == st.sessions.Keys
  {
    var bd := MakeBoard(st, waiting, focus, env);
    var scan := Scan(bd, 0, {}, st.wakeAt);
    ScanIsCreatable(bd, st.wakeAt);
    CreateRoomsKeeps(st.(wakeAt := scan.wake), waiting, scan.pairs, env);
  }

  lemma PassOverKeeps(st: State, mode: PassMode, waiting: seq<Waiter>, env: Env)
    requires Inv(st) && waiting == LoadWaiting(st.queue, st.sessions) && |waiting| > 0
    ensures Inv(Pruned(st, mode, waiting))
    ensures Inv(PassOver(st, mode, waiting, env))
    ensures PassOver(st, mode, waiting, env).sessions.Keys == st.sessions.Keys
  {
    QueueIsLoaded(st);
    var pruned := Pruned(st, mode, waiting);
    assert SameStory(st, pruned);
    if mode == RecheckPass {
      var slice := RecheckSlice(|waiting|, st.cfg.recheckPairBudget, st.recheckCursor);
      RunScanKeeps(pruned.(recheckCursor := slice.cursor), waiting, Some(st.dirty + SliceSockets(waiting, slice)), env);
    } else {
      RunScanKeeps(pruned, waiting, if mode == WholePass then None else Some(st.dirty), env);
    }
  }

  lemma MatchPassKeeps(st: State, mode: PassMode, env: Env)
    requires Inv(st)
    ensures Inv(MatchPass(st, mode, env))
    ensures MatchPass(st, mode, env).sessions.Keys == st.sessions.Keys
  {
    if !env.open {
    } else if (mode == DirtyPass && st.dirty == {}) || |st.queue| < 2 {
      assert SameStory(st, st.(dirty := {}));
    } else {
      QueueIsLoaded(st);
      PassOverKeeps(st, mode, LoadWaiting(st.queue, st.sessions), env);
    }
  }
}
