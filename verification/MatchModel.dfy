/**
 * What every locked section of MatchService does to the shared store and to
 * this instance's bookkeeping, as functions from state to state. Each event
 * comes with an Env: the clock and the answers of the services around the
 * matcher (bans, caps, entitlements, flags) while the lock is held.
 */
module MatchModel {
  import opened Wrappers
  import opened Compatibility
  import opened Protocol
  import opened WaitingQueue
  import opened Greedy

  /* ---------------------------------------------------------------- */
  /* State                                                             */
  /* ---------------------------------------------------------------- */

  datatype SessionState = Idle | Waiting | Pending | Active

  datatype Session = Session(
    who: Candidate,
    mode: MatchMode,
    state: SessionState,
    roomId: Option<RoomId>,
    waitingSince: Option<nat>)

  /** `a` is the older waiter and becomes the WebRTC initiator. */
  datatype Room = Room(
    active: bool,
    a: SocketId,
    b: SocketId,
    deviceA: DeviceId,
    deviceB: DeviceId,
    acceptedA: bool,
    acceptedB: bool,
    createdAt: nat,
    expiresAt: nat,
    activeSince: Option<nat>,
    connectedA: bool,
    connectedB: bool,
    connectedSince: Option<nat>)

  /** Kept until `retainUntil`, past `until`, so repeated skips escalate. */
  datatype Block = Block(until: nat, skipCount: nat, retainUntil: nat)

  /** Ladder progress of a queued session, as of the last sweep. */
  datatype Relaxing = Relaxing(since: nat, step: int, low: bool)

  /** A startCall that still has to take the lock. */
  datatype CallTask = CallTask(room: RoomId, activeSince: nat, a: SocketId, b: SocketId)

  datatype Config = Config(
    ladder: Ladder,
    matchAcceptTimeoutMs: nat,
    matchAcceptGraceMs: nat,
    declineBlockMs: nat,
    skipBlockMs: nat,
    reportBlockMs: nat,
    heartbeatIntervalMs: nat,
    recheckIntervalMs: nat,
    recheckPairBudget: nat)

  /** How long a pair block record is remembered after it lapses. */
  const BLOCK_MEMORY_MS: nat := 24 * 60 * 60_000

  datatype State = State(
    cfg: Config,
    sessions: map<SocketId, Session>,
    queue: seq<Entry>,
    rooms: map<RoomId, Room>,
    devices: map<DeviceId, SocketId>,
    blocks: map<(DeviceId, DeviceId), Block>,
    local: set<SocketId>,
    relaxing: map<SocketId, Relaxing>,
    dirty: set<SocketId>,
    wakeAt: map<SocketId, nat>,
    recheckCursor: nat,
    lastRecheckAt: nat,
    lastReapAt: nat,
    nextRoom: RoomId,
    calls: seq<CallTask>,
    out: seq<Item>,
    stopped: bool)

  function Init(cfg: Config): State {
    State(cfg, map[], [], map[], map[], map[], {}, map[], {}, map[], 0, 0, 0, 0, [], [], false)
  }

  datatype Env = Env(
    now: nat,
    banned: set<DeviceId>,
    low: set<DeviceId>,
    premium: set<DeviceId>,
    capped: set<DeviceId>,
    previewOnly: bool,
    open: bool)

  /* ---------------------------------------------------------------- */
  /* Small steps                                                       */
  /* ---------------------------------------------------------------- */

  function Emit(st: State, s: SocketId, e: ServerEvent, now: nat): State {
    st.(out := st.out + [Sent(s, e, now)])
  }

  /** Blocks are stored under one key whichever way round the pair is asked for. */
  function PairKey(a: DeviceId, b: DeviceId): (DeviceId, DeviceId) {
    if a < b then (a, b) else (b, a)
  }

  /** The stored block, while it is still remembered. */
  function GetBlock(blocks: map<(DeviceId, DeviceId), Block>, a: DeviceId, b: DeviceId, now: nat): Option<Block> {
    var key := PairKey(a, b);
    if key in blocks && blocks[key].retainUntil > now then Some(blocks[key]) else None
  }

  /** A block never shortens; a skip escalates with the pair's skip count. */
  function BlockPair(st: State, a: DeviceId, b: DeviceId, durationMs: nat, escalate: bool, now: nat): State {
    var existing := GetBlock(st.blocks, a, b, now);
    var skipCount := (if existing.Some? then existing.value.skipCount else 0) + if escalate then 1 else 0;
    var duration := if escalate then st.cfg.skipBlockMs * skipCount else durationMs;
    var until := Max(if existing.Some? then existing.value.until else 0, now + duration);
    st.(blocks := st.blocks[PairKey(a, b) := Block(until, skipCount, until + BLOCK_MEMORY_MS)])
  }

  function LowerFilter(who: Candidate): Candidate {
    who.(preferences := who.preferences.(genderFilter := AllGenders))
  }

  predicate NeedsPremium(who: Candidate, env: Env) {
    who.preferences.genderFilter != AllGenders && who.deviceId !in env.premium
  }

  /** The queued form of a session: its gender filter stops applying once the unlock has lapsed. */
  function QueuedSession(session: Session, since: nat, env: Env): Session {
    session.(who := if NeedsPremium(session.who, env) then LowerFilter(session.who) else session.who,
             state := Waiting, roomId := None, waitingSince := Some(since))
  }

  function LadderStart(since: nat, low: bool): Relaxing {
    Relaxing(since, if low then HELD else 0, low)
  }

  function EnqueueNews(s: SocketId, lapsed: bool, now: nat): seq<Item> {
    (if lapsed then [Sent(s, ServerError(PremiumRequired), now), Sent(s, WalletUpdate, now)] else [])
    + [Sent(s, QueueWaiting(0), now)]
  }

  /** Puts a session in the queue, re-checking its gender filter. */
  function Enqueue(st: State, s: SocketId, since: Option<nat>, env: Env): State
    requires s in st.sessions
  {
    var session := st.sessions[s];
    var at := since.GetOr(env.now);
    st.(
      sessions := st.sessions[s := QueuedSession(session, at, env)],
      queue := Add(st.queue, s, at),
      dirty := st.dirty + {s},
      relaxing := st.relaxing[s := LadderStart(at, session.who.deviceId in env.low)],
      out := st.out + EnqueueNews(s, NeedsPremium(session.who, env), env.now))
  }

  function IdleSession(session: Session): Session {
    session.(state := Idle, roomId := None, waitingSince := None)
  }

  /** The ended member's session is left idle. */
  function LeaveIdle(st: State, s: SocketId, capped: bool, now: nat): State
    requires s in st.sessions
  {
    st.(
      sessions := st.sessions[s := IdleSession(st.sessions[s])],
      out := st.out + if capped then [Sent(s, ServerError(RateLimited), now)] else [])
  }

  /** One member of the ended room `r`: told why, then re-queued or left idle. */
  function FreeMember(st: State, r: RoomId, s: SocketId, reason: Option<EndReason>, env: Env): State {
    if reason == None then st
    else if s !in st.sessions || st.sessions[s].roomId != Some(r) then Emit(st, s, MatchEnded(r, reason.value), env.now)
    else
      var device := st.sessions[s].who.deviceId;
      var capped := reason.value != AcceptTimeout && device in env.capped;
      if reason.value == AcceptTimeout || capped || device in env.banned
      then LeaveIdle(Emit(st, s, MatchEnded(r, reason.value), env.now), s, capped, env.now)
      else Enqueue(Emit(st, s, MatchEnded(r, reason.value), env.now), s, None, env)
  }

  /** Deletes a room; a member whose reason is None is leaving and hears nothing. */
  function EndRoom(st: State, r: RoomId, reasonA: Option<EndReason>, reasonB: Option<EndReason>, env: Env): State
    requires r in st.rooms
  {
    var room := st.rooms[r];
    var deleted := st.(rooms := st.rooms - {r});
    FreeMember(FreeMember(deleted, r, room.a, reasonA, env), r, room.b, reasonB, env)
  }

  predicate MemberOf(st: State, s: SocketId, r: RoomId) {
    && s in st.sessions && st.sessions[s].roomId == Some(r)
    && r in st.rooms && (st.rooms[r].a == s || st.rooms[r].b == s)
  }

  /** The reasons of a room's two members, given those of `s` and of the other one. */
  function ReasonsFor(room: Room, s: SocketId, mine: Option<EndReason>, theirs: Option<EndReason>)
    : (Option<EndReason>, Option<EndReason>)
  {
    if room.a == s then (mine, theirs) else (theirs, mine)
  }

  function EndRoomOf(st: State, r: RoomId, s: SocketId, mine: Option<EndReason>, theirs: Option<EndReason>, env: Env): State
    requires r in st.rooms
  {
    var (reasonA, reasonB) := ReasonsFor(st.rooms[r], s, mine, theirs);
    EndRoom(st, r, reasonA, reasonB, env)
  }

  /** Ends the room of a leaving session; only its partner hears of it. */
  function EndLeaversRoom(st: State, s: SocketId, partnerReason: EndReason, env: Env): State
    requires s in st.sessions
  {
    var roomId := st.sessions[s].roomId;
    if roomId.Some? && MemberOf(st, s, roomId.value)
    then EndRoomOf(st, roomId.value, s, None, Some(partnerReason), env)
    else st
  }

  function Unbound(devices: map<DeviceId, SocketId>, device: DeviceId, s: SocketId): map<DeviceId, SocketId> {
    if device in devices && devices[device] == s then devices - {device} else devices
  }

  /** Deletes a session with its queue entry, ladder progress and device binding. */
  function DropSession(st: State, s: SocketId, device: DeviceId): State {
    st.(
      queue := Without(st.queue, s),
      relaxing := st.relaxing - {s},
      sessions := st.sessions - {s},
      devices := Unbound(st.devices, device, s))
  }

  /** Ends the session's room for its partner and forgets the session. */
  function RemoveSession(st: State, s: SocketId, partnerReason: EndReason, env: Env): State
    requires s in st.sessions
  {
    DropSession(EndLeaversRoom(st, s, partnerReason, env), s, st.sessions[s].who.deviceId)
  }

  function RemoveIfPresent(st: State, s: SocketId, partnerReason: EndReason, env: Env): State {
    if s in st.sessions then RemoveSession(st, s, partnerReason, env) else st
  }

  /** The device connected again elsewhere: retire the old socket. */
  function Replace(st: State, previous: SocketId, env: Env): State {
    var removed := RemoveIfPresent(Emit(st, previous, SessionReplaced, env.now), previous, PartnerUnavailable, env);
    removed.(local := removed.local - {previous})
  }

  /** Marks a session active if it is still in room `r`. */
  function Activated(sessions: map<SocketId, Session>, s: SocketId, r: RoomId): map<SocketId, Session> {
    if s in sessions && sessions[s].roomId == Some(r) then sessions[s := sessions[s].(state := Active)] else sessions
  }

  /** Stores the accepted room as active and leaves call:start to a task outside the lock. */
  function ActivateRoom(st: State, r: RoomId, room: Room, now: nat): State {
    st.(
      rooms := st.rooms[r := room.(active := true, activeSince := Some(now))],
      sessions := Activated(Activated(st.sessions, room.a, r), room.b, r),
      calls := st.calls + [CallTask(r, now, room.a, room.b)])
  }

  function EffectiveMode(mode: MatchMode, env: Env): MatchMode {
    if env.previewOnly then Preview else mode
  }

  function Matched(session: Session, r: RoomId): Session {
    session.(state := Pending, roomId := Some(r), waitingSince := None)
  }

  function NewRoom(st: State, a: SocketId, b: SocketId, env: Env): Room
    requires a in st.sessions && b in st.sessions
  {
    Room(false, a, b, st.sessions[a].who.deviceId, st.sessions[b].who.deviceId,
         EffectiveMode(st.sessions[a].mode, env) == Instant, EffectiveMode(st.sessions[b].mode, env) == Instant,
         env.now, env.now + st.cfg.matchAcceptTimeoutMs, None, false, false, None)
  }

  function FoundNews(st: State, a: SocketId, b: SocketId, room: Room, env: Env): seq<Item>
    requires a in st.sessions && b in st.sessions
  {
    var r := st.nextRoom;
    [Sent(a, MatchFound(r, room.expiresAt, env.now, EffectiveMode(st.sessions[a].mode, env)), env.now),
     Sent(b, MatchFound(r, room.expiresAt, env.now, EffectiveMode(st.sessions[b].mode, env)), env.now)]
    + if room.acceptedA && !room.acceptedB then [Sent(b, PartnerAccepted(r), env.now)]
      else if room.acceptedB && !room.acceptedA then [Sent(a, PartnerAccepted(r), env.now)]
      else []
  }

  /** Writes the new room and takes its two members out of the queue. */
  function StoreRoom(st: State, a: SocketId, b: SocketId, room: Room, news: seq<Item>): State
    requires a in st.sessions && b in st.sessions
  {
    var r := st.nextRoom;
    st.(
      rooms := st.rooms[r := room],
      sessions := st.sessions[a := Matched(st.sessions[a], r)][b := Matched(st.sessions[b], r)],
      queue := Without(Without(st.queue, a), b),
      relaxing := st.relaxing - {a} - {b},
      nextRoom := r + 1,
      out := st.out + news)
  }

  /** Creates a pending room; the server accepts for an instant-mode side. */
  function CreateRoom(st: State, a: SocketId, b: SocketId, env: Env): State
    requires a in st.sessions && b in st.sessions
  {
    var room := NewRoom(st, a, b, env);
    var stored := StoreRoom(st, a, b, room, FoundNews(st, a, b, room, env));
    if room.acceptedA && room.acceptedB then ActivateRoom(stored, st.nextRoom, room, env.now) else stored
  }

  /* ---------------------------------------------------------------- */
  /* The match pass                                                    */
  /* ---------------------------------------------------------------- */

  datatype PassMode = DirtyPass | RecheckPass | WholePass

  datatype Waiter = Waiter(socket: SocketId, session: Session)

  /** Everything a pass looks at, read once when it starts. */
  datatype Board = Board(
    waiting: seq<Waiter>,
    steps: seq<int>,
    focus: Option<set<SocketId>>,
    banned: set<DeviceId>,
    blocks: map<(DeviceId, DeviceId), Block>,
    now: nat)
  {
    predicate Valid() {
      |steps| == |waiting| && forall i :: 0 <= i < |steps| ==> HELD <= steps[i] <= MAX_STEP
    }

    /** A pass with a focus set only tries pairs that touch it. */
    predicate InFocus(i: nat)
      requires i < |waiting|
    {
      focus == None || waiting[i].socket in focus.value
    }

    predicate FitsAt(i: nat, j: nat)
      requires Valid() && i < |waiting| && j < |waiting|
    {
      Fits(waiting[i].session.who, waiting[j].session.who, steps[i], steps[j])
    }

    predicate BannedAt(i: nat, j: nat)
      requires i < |waiting| && j < |waiting|
    {
      waiting[i].session.who.deviceId in banned || waiting[j].session.who.deviceId in banned
    }

    /** When the block on the pair lapses, if one is still in force. */
    function BlockedUntil(i: nat, j: nat): (r: Option<nat>)
      requires i < |waiting| && j < |waiting|
      ensures r.Some? ==> r.value > now
    {
      var block := GetBlock(blocks, waiting[i].session.who.deviceId, waiting[j].session.who.deviceId, now);
      if block.Some? && block.value.until > now then Some(block.value.until) else None
    }

    /** The two may be paired now. */
    predicate May(i: nat, j: nat) {
      && Valid() && i < |waiting| && j < |waiting|
      && FitsAt(i, j) && !BannedAt(i, j) && BlockedUntil(i, j) == None
    }

    predicate MayTry(i: nat, j: nat) {
      May(i, j) && (InFocus(i) || InFocus(j))
    }
  }

  /** Keeps the earlier of a session's wake time and `until`. */
  function Lower(wake: map<SocketId, nat>, s: SocketId, until: nat): map<SocketId, nat> {
    if s !in wake || until < wake[s] then wake[s := until] else wake
  }

  datatype Row = Row(partner: Option<nat>, wake: map<SocketId, nat>)

  /** Row i of the pass from column k on: the partner it finds, and the wake times its blocked candidates leave. */
  function ScanRow(bd: Board, i: nat, k: nat, taken: set<nat>, wake: map<SocketId, nat>): Row
    requires bd.Valid() && i < |bd.waiting| && k <= |bd.waiting|
    decreases |bd.waiting| - k
  {
    if k == |bd.waiting| then Row(None, wake)
    else if k in taken || !(bd.InFocus(i) || bd.InFocus(k)) || !bd.FitsAt(i, k) || bd.BannedAt(i, k) then
      ScanRow(bd, i, k + 1, taken, wake)
    else if bd.BlockedUntil(i, k).Some? then
      ScanRow(bd, i, k + 1, taken, Lower(wake, bd.waiting[i].socket, bd.BlockedUntil(i, k).value))
    else Row(Some(k), wake)
  }

  datatype ScanResult = ScanResult(pairs: seq<Pairing>, wake: map<SocketId, nat>)

  function Scan(bd: Board, i: nat, taken: set<nat>, wake: map<SocketId, nat>): ScanResult
    requires bd.Valid() && i <= |bd.waiting|
    decreases |bd.waiting| - i
  {
    if i == |bd.waiting| then ScanResult([], wake)
    else if i in taken || bd.steps[i] == HELD then Scan(bd, i + 1, taken, wake)
    else
      var row := ScanRow(bd, i, i + 1, taken, wake);
      if row.partner == None then Scan(bd, i + 1, taken, row.wake)
      else
        var rest := Scan(bd, i + 1, taken + {i, row.partner.value}, row.wake);
        ScanResult([Pairing(i, row.partner.value)] + rest.pairs, rest.wake)
  }

  /** The entries of the queue whose session is (still) waiting. */
  function LoadWaiting(queue: seq<Entry>, sessions: map<SocketId, Session>): seq<Waiter> {
    if queue == [] then []
    else
      var s := queue[0].socket;
      var rest := LoadWaiting(queue[1..], sessions);
      if s in sessions && sessions[s].state == Waiting then [Waiter(s, sessions[s])] + rest else rest
  }

  function DropStale(queue: seq<Entry>, sessions: map<SocketId, Session>): seq<Entry> {
    if queue == [] then []
    else
      var s := queue[0].socket;
      var rest := DropStale(queue[1..], sessions);
      if s in sessions && sessions[s].state == Waiting then [queue[0]] + rest else rest
  }

  function StepOf(w: Waiter, ladder: Ladder, now: nat, low: set<DeviceId>): (step: int)
    ensures HELD <= step <= MAX_STEP
  {
    RelaxStep(now - w.session.waitingSince.GetOr(now), ladder, w.session.who.deviceId in low)
  }

  function StepsOf(waiting: seq<Waiter>, ladder: Ladder, now: nat, low: set<DeviceId>): (steps: seq<int>)
    ensures |steps| == |waiting|
    ensures forall i :: 0 <= i < |steps| ==> steps[i] == StepOf(waiting[i], ladder, now, low)
  {
    seq(|waiting|, i requires 0 <= i < |waiting| => StepOf(waiting[i], ladder, now, low))
  }

  function SocketsOf(waiting: seq<Waiter>): set<SocketId> {
    set w | w in waiting :: w.socket
  }

  datatype Slice = Slice(picked: seq<nat>, cursor: nat)

  /** The next recheck slice of a queue of n: which positions, and where the cursor goes. */
  function RecheckSlice(n: nat, budget: nat, cursor: nat): Slice
    requires n > 0
  {
    var count := Max(1, budget / n);
    if count >= n then Slice(seq(n, i requires 0 <= i < n => i), 0)
    else
      var start := cursor % n;
      Slice(seq(count, k requires 0 <= k < count => (start + k) % n), start + count)
  }

  function SliceSockets(waiting: seq<Waiter>, slice: Slice): set<SocketId> {
    set i | i in slice.picked && i < |waiting| :: waiting[i].socket
  }

  function CreateRooms(st: State, waiting: seq<Waiter>, pairs: seq<Pairing>, env: Env): State {
    if pairs == [] then st
    else
      var before := CreateRooms(st, waiting, pairs[..|pairs| - 1], env);
      var p := pairs[|pairs| - 1];
      if p.i < |waiting| && p.j < |waiting| && waiting[p.i].socket in before.sessions && waiting[p.j].socket in before.sessions
      then CreateRoom(before, waiting[p.i].socket, waiting[p.j].socket, env)
      else before
  }

  function MakeBoard(st: State, waiting: seq<Waiter>, focus: Option<set<SocketId>>, env: Env): (bd: Board)
    ensures bd.Valid() && bd.waiting == waiting
  {
    Board(waiting, StepsOf(waiting, st.cfg.ladder, env.now, env.low), focus, env.banned, st.blocks, env.now)
  }

  /** The scan over loaded waiters and the rooms it creates. */
  function RunScan(st: State, waiting: seq<Waiter>, focus: Option<set<SocketId>>, env: Env): State {
    var scan := Scan(MakeBoard(st, waiting, focus, env), 0, {}, st.wakeAt);
    CreateRooms(st.(wakeAt := scan.wake), waiting, scan.pairs, env)
  }

  /** The state a pass scans from: stale entries dropped, and on a recheck the wake times of absent sessions. */
  function Pruned(st: State, mode: PassMode, waiting: seq<Waiter>): State {
    st.(
      dirty := {},
      queue := DropStale(st.queue, st.sessions),
      wakeAt := if mode == RecheckPass then map s | s in st.wakeAt && s in SocketsOf(waiting) :: st.wakeAt[s] else st.wakeAt)
  }

  /** The pass over the loaded queue, focused as its mode says. */
  function PassOver(st: State, mode: PassMode, waiting: seq<Waiter>, env: Env): State
    requires |waiting| > 0
  {
    if mode == RecheckPass then
      var slice := RecheckSlice(|waiting|, st.cfg.recheckPairBudget, st.recheckCursor);
      RunScan(Pruned(st, mode, waiting).(recheckCursor := slice.cursor), waiting,
              Some(st.dirty + SliceSockets(waiting, slice)), env)
    else RunScan(Pruned(st, mode, waiting), waiting, if mode == WholePass then None else Some(st.dirty), env)
  }

  /**
   * The pass after an event tries only pairs with a dirty member; the sweeper's
   * recheck adds a slice of the queue; the whole pass tries every pair. While
   * matching is closed nothing happens and the marks stay.
   */
  function MatchPass(st: State, mode: PassMode, env: Env): State {
    if !env.open then st
    else if (mode == DirtyPass && st.dirty == {}) || |st.queue| < 2 then st.(dirty := {})
    else
      var waiting := LoadWaiting(st.queue, st.sessions);
      if |waiting| < 2 then Pruned(st, mode, waiting) else PassOver(st, mode, waiting, env)
  }

  /* ---------------------------------------------------------------- */
  /* Events                                                            */
  /* ---------------------------------------------------------------- */

  datatype HelloPayload = HelloPayload(device: DeviceId, profile: Profile, preferences: Preferences, mode: MatchMode)

  /** What the services around the matcher say to one hello. */
  datatype HelloAnswers = HelloAnswers(
    restricted: bool,
    precheck: Option<ErrorCode>,
    connected: bool,
    coolingDown: bool,
    refused: Option<ErrorCode>)

  /** What a sweep found: sockets that are gone, expired rooms, and the order it walks the ladder in. */
  datatype SweepInput = SweepInput(ghosts: seq<SocketId>, expired: seq<RoomId>, order: seq<SocketId>, passAt: nat)

  datatype Event =
    | Hello(s: SocketId, payload: HelloPayload, answers: HelloAnswers)
    | UpdatePreferences(s: SocketId, preferences: Preferences)
    | Accept(s: SocketId, r: RoomId)
    | Decline(s: SocketId, r: RoomId)
    | Connected(s: SocketId, r: RoomId)
    | Skip(s: SocketId, only: Option<RoomId>)
    | Report(s: SocketId, r: RoomId, target: (DeviceId, DeviceId))
    | Restrict(device: DeviceId, blocking: bool)
    | CallFailed(s: SocketId, r: RoomId)
    | Disconnect(s: SocketId)
    | Sweep(input: SweepInput)
    | StartCall(task: nat, ready: bool)
    | RunWholePass
    | Shutdown(locals: seq<SocketId>)
    | Aside(s: SocketId, event: ServerEvent)
    | Act(s: SocketId, act: ClientAct)

  /** The filter a hello gets: a locked one is downgraded, not refused. */
  function HelloWho(p: HelloPayload, env: Env): Candidate {
    var who := Candidate(p.device, p.profile, p.preferences);
    if NeedsPremium(who, env) then LowerFilter(who) else who
  }

  /** Why a hello is refused, if it is; the first two checks run before the lock. */
  function HelloRefusal(st: State, s: SocketId, p: HelloPayload, answers: HelloAnswers, env: Env): Option<ErrorCode> {
    if st.stopped then Some(Internal)
    else if answers.restricted || p.device in env.banned then Some(Banned)
    else if s !in st.local && answers.precheck.Some? then answers.precheck
    else if !answers.connected then Some(BadState)
    else if s in st.sessions && st.sessions[s].who.deviceId != p.device then Some(BadState)
    else if s !in st.sessions || st.sessions[s].state == Idle then
      if answers.coolingDown then Some(RateLimited) else answers.refused
    else None
  }

  /** Retires the socket the device was bound to before, if it is another one. */
  function RetirePrevious(st: State, s: SocketId, device: DeviceId, env: Env): State {
    if device in st.devices && st.devices[device] != s then Replace(st, st.devices[device], env) else st
  }

  /** Stores the session of an admitted hello. */
  function HelloStored(st: State, s: SocketId, p: HelloPayload, env: Env): State {
    if s in st.sessions then
      st.(sessions := st.sessions[s := st.sessions[s].(who := HelloWho(p, env), mode := p.mode)])
    else
      var retired := RetirePrevious(st, s, p.device, env);
      retired.(
        sessions := retired.sessions[s := Session(HelloWho(p, env), p.mode, Idle, None, None)],
        devices := retired.devices[p.device := s])
  }

  function HelloAcked(st: State, s: SocketId, filter: GenderFilter, now: nat): State {
    st.(local := st.local + {s}, out := st.out + [Sent(s, HelloAccepted(filter), now), Sent(s, WalletUpdate, now)])
  }

  function HelloStep(st: State, s: SocketId, p: HelloPayload, answers: HelloAnswers, env: Env): State {
    var refusal := HelloRefusal(st, s, p, answers, env);
    if refusal.Some? then Emit(st, s, HelloRefused(refusal.value), env.now)
    else
      var acked := HelloAcked(HelloStored(st, s, p, env), s, HelloWho(p, env).preferences.genderFilter, env.now);
      var session := acked.sessions[s];
      if session.state == Idle || session.state == Waiting
      then MatchPass(Enqueue(acked, s, if session.state == Waiting then session.waitingSince else None, env), DirtyPass, env)
      else acked
  }

  function UpdatePreferencesStep(st: State, s: SocketId, preferences: Preferences, env: Env): State {
    if s !in st.sessions then st
    else
      var session := st.sessions[s];
      var who := session.who.(preferences := preferences);
      if NeedsPremium(who, env) || session.who.preferences == preferences then st
      else
        var stored := st.(sessions := st.sessions[s := session.(who := who)]);
        var acked := Emit(stored, s, PreferencesSaved(preferences.genderFilter), env.now);
        if session.state == Waiting then MatchPass(acked.(dirty := acked.dirty + {s}), DirtyPass, env) else acked
  }

  predicate HasAccepted(room: Room, s: SocketId) {
    if room.a == s then room.acceptedA else room.acceptedB
  }

  function AcceptedBy(room: Room, s: SocketId): Room {
    if room.a == s then room.(acceptedA := true) else room.(acceptedB := true)
  }

  function Partner(room: Room, s: SocketId): SocketId {
    if room.a == s then room.b else room.a
  }

  function AcceptStep(st: State, s: SocketId, r: RoomId, env: Env): State {
    if !MemberOf(st, s, r) || st.rooms[r].active then st
    else
      var room := st.rooms[r];
      if env.now > room.expiresAt + st.cfg.matchAcceptGraceMs then Emit(st, s, ServerError(NotInRoom), env.now)
      else if HasAccepted(room, s) then st
      else
        var room' := AcceptedBy(room, s);
        if room'.acceptedA && room'.acceptedB then ActivateRoom(st, r, room', env.now)
        else Emit(st.(rooms := st.rooms[r := room']), Partner(room, s), PartnerAccepted(r), env.now)
  }

  function DeclineStep(st: State, s: SocketId, r: RoomId, env: Env): State {
    if !MemberOf(st, s, r) || st.rooms[r].active then st
    else
      var room := st.rooms[r];
      var blocked := BlockPair(st, room.deviceA, room.deviceB, st.cfg.declineBlockMs, false, env.now);
      MatchPass(EndRoomOf(blocked, r, s, Some(Declined), Some(PartnerDeclined), env), DirtyPass, env)
  }

  /** Coins count from the moment both peer connections are up. */
  function ConnectedBy(room: Room, s: SocketId, now: nat): Room {
    var marked := if room.a == s then room.(connectedA := true) else room.(connectedB := true);
    if marked.connectedA && marked.connectedB then marked.(connectedSince := Some(now)) else marked
  }

  function ConnectedStep(st: State, s: SocketId, r: RoomId, env: Env): State {
    if !MemberOf(st, s, r) || !st.rooms[r].active then st
    else
      var room := st.rooms[r];
      if (if room.a == s then room.connectedA else room.connectedB) then st
      else st.(rooms := st.rooms[r := ConnectedBy(room, s, env.now)])
  }

  function SkipStep(st: State, s: SocketId, only: Option<RoomId>, env: Env): State {
    if s !in st.sessions || st.sessions[s].roomId == None then st
    else
      var r := st.sessions[s].roomId.value;
      if (only.Some? && only.value != r) || !MemberOf(st, s, r) then st
      else
        var room := st.rooms[r];
        var blocked := BlockPair(st, room.deviceA, room.deviceB, 0, true, env.now);
        MatchPass(EndRoomOf(blocked, r, s, Some(Skipped), Some(PartnerSkipped), env), DirtyPass, env)
  }

  /** The locked part of a report: a live room ends, an ended one is only blocked. */
  function ReportStep(st: State, s: SocketId, r: RoomId, target: (DeviceId, DeviceId), env: Env): State {
    if !MemberOf(st, s, r) then BlockPair(st, target.0, target.1, st.cfg.reportBlockMs, false, env.now)
    else
      var room := st.rooms[r];
      var blocked := BlockPair(st, room.deviceA, room.deviceB, st.cfg.reportBlockMs, false, env.now);
      MatchPass(EndRoomOf(blocked, r, s, Some(Reported), Some(PartnerSkipped), env), DirtyPass, env)
  }

  function EndRestrictedRoom(st: State, s: SocketId, env: Env): State
    requires s in st.sessions
  {
    var roomId := st.sessions[s].roomId;
    if roomId.Some? && MemberOf(st, s, roomId.value)
    then EndRoomOf(st, roomId.value, s, Some(Restricted), Some(PartnerSkipped), env)
    else st
  }

  function MadeIdle(sessions: map<SocketId, Session>, s: SocketId): map<SocketId, Session> {
    if s in sessions && sessions[s].state != Idle then sessions[s := IdleSession(sessions[s])] else sessions
  }

  /** A pause or ban takes the device out of its room and out of the queue. */
  function Sideline(st: State, s: SocketId, env: Env): State
    requires s in st.sessions
  {
    var ended := EndRestrictedRoom(st, s, env);
    ended.(sessions := MadeIdle(ended.sessions, s), queue := Without(ended.queue, s))
  }

  function RestrictStep(st: State, device: DeviceId, blocking: bool, env: Env): State {
    if device !in st.devices || st.devices[device] !in st.sessions then st
    else
      var s := st.devices[device];
      if blocking then MatchPass(Emit(Sideline(st, s, env), s, SessionRestricted, env.now), DirtyPass, env)
      else MatchPass(Emit(st, s, SessionRestricted, env.now), DirtyPass, env)
  }

  function CallFailedStep(st: State, s: SocketId, r: RoomId, env: Env): State {
    if !MemberOf(st, s, r) || !st.rooms[r].active then st
    else
      var room := st.rooms[r];
      var blocked := BlockPair(st, room.deviceA, room.deviceB, st.cfg.declineBlockMs, false, env.now);
      MatchPass(EndRoomOf(blocked, r, s, Some(ConnectionFailed), Some(ConnectionFailed), env), DirtyPass, env)
  }

  function Forget(st: State, s: SocketId): State {
    st.(local := st.local - {s}, wakeAt := st.wakeAt - {s})
  }

  function DisconnectStep(st: State, s: SocketId, env: Env): State {
    var forgotten := Forget(st, s);
    if s !in st.sessions then forgotten
    else MatchPass(RemoveSession(forgotten, s, PartnerLeft, env), DirtyPass, env)
  }

  /** Sessions of this instance whose socket is gone. */
  function RemoveGhosts(st: State, ghosts: seq<SocketId>, env: Env): State {
    if ghosts == [] then st
    else
      var before := RemoveGhosts(st, ghosts[..|ghosts| - 1], env);
      var s := ghosts[|ghosts| - 1];
      RemoveIfPresent(Forget(before, s), s, PartnerLeft, env)
  }

  function ExpiredReason(accepted: bool): Option<EndReason> {
    Some(if accepted then TimedOut else AcceptTimeout)
  }

  /** Whoever accepted searches again; whoever never did goes idle. */
  function ExpireRoom(st: State, r: RoomId, env: Env): State {
    if r !in st.rooms || st.rooms[r].active then st
    else
      var room := st.rooms[r];
      var blocked := BlockPair(st, room.deviceA, room.deviceB, st.cfg.declineBlockMs, false, env.now);
      EndRoom(blocked, r, ExpiredReason(room.acceptedA), ExpiredReason(room.acceptedB), env)
  }

  function ExpireRooms(st: State, expired: seq<RoomId>, env: Env): State {
    if expired == [] then st
    else ExpireRoom(ExpireRooms(st, expired[..|expired| - 1], env), expired[|expired| - 1], env)
  }

  /** Blocks that kept a session apart have lapsed: try it again. */
  function WakeLapsed(st: State, now: nat): State {
    var lapsed := set s | s in st.wakeAt && st.wakeAt[s] <= now;
    st.(wakeAt := st.wakeAt - lapsed, dirty := st.dirty + lapsed)
  }

  /** One ladder entry: a session whose step rose is retried and told. */
  function RelaxOne(st: State, s: SocketId, now: nat): State {
    if s !in st.relaxing then st
    else
      var entry := st.relaxing[s];
      var step := RelaxStep(now - entry.since, st.cfg.ladder, entry.low);
      if step <= entry.step then st
      else if s !in st.sessions || st.sessions[s].state != Waiting || st.sessions[s].waitingSince != Some(entry.since) then
        st.(relaxing := st.relaxing - {s})
      else
        st.(
          dirty := st.dirty + {s},
          relaxing := if step >= MAX_STEP then st.relaxing - {s} else st.relaxing[s := entry.(step := step)],
          out := st.out + if step > Max(0, entry.step) then [Sent(s, QueueWaiting(Max(0, step)), now)] else [])
  }

  function RelaxTick(st: State, order: seq<SocketId>, now: nat): State {
    if order == [] then st
    else RelaxOne(RelaxTick(st, order[..|order| - 1], now), order[|order| - 1], now)
  }

  function Reaped(st: State, ghosts: seq<SocketId>, env: Env): State {
    if env.now - st.lastReapAt >= st.cfg.heartbeatIntervalMs
    then RemoveGhosts(st.(lastReapAt := env.now), ghosts, env)
    else st
  }

  /** A sweep before its ladder walk: dead sockets, expired rooms, lapsed blocks. */
  function Roused(st: State, ghosts: seq<SocketId>, expired: seq<RoomId>, env: Env): State {
    WakeLapsed(ExpireRooms(Reaped(st, ghosts, env), expired, env), env.now).(
      lastRecheckAt := if RecheckDue(st, env) then env.now else st.lastRecheckAt)
  }

  /** A sweep up to its match pass. */
  function SweepPrepared(st: State, input: SweepInput, env: Env): State {
    RelaxTick(Roused(st, input.ghosts, input.expired, env), input.order, env.now)
  }

  predicate RecheckDue(st: State, env: Env) {
    env.now - st.lastRecheckAt >= st.cfg.recheckIntervalMs
  }

  /** The pass at the end of a sweep reads the clock again. */
  function SweepStep(st: State, input: SweepInput, env: Env): State {
    MatchPass(SweepPrepared(st, input, env), if RecheckDue(st, env) then RecheckPass else DirtyPass, env.(now := input.passAt))
  }

  /** call:start goes out only while its room is still the active one. */
  function StartCallStep(st: State, task: nat, ready: bool, env: Env): State {
    if task >= |st.calls| then st
    else
      var t := st.calls[task];
      var taken := st.(calls := st.calls[..task] + st.calls[task + 1..]);
      if !ready || st.stopped || t.room !in st.rooms || !st.rooms[t.room].active
         || st.rooms[t.room].activeSince != Some(t.activeSince) then taken
      else Emit(Emit(taken, t.a, CallStart(t.room, true), env.now), t.b, CallStart(t.room, false), env.now)
  }

  function RemoveAll(st: State, sockets: seq<SocketId>, env: Env): State {
    if sockets == [] then st
    else
      var before := RemoveAll(st, sockets[..|sockets| - 1], env);
      RemoveIfPresent(before, sockets[|sockets| - 1], PartnerUnavailable, env)
  }

  function ShutdownStep(st: State, locals: seq<SocketId>, env: Env): State {
    if st.stopped then st
    else MatchPass(RemoveAll(st.(stopped := true), locals, env), DirtyPass, env).(local := {})
  }

  /** Events sent outside the lock that concern neither the queue nor a room's lifecycle. */
  predicate IsAside(e: ServerEvent) {
    e.CoinsUpdate? || e.FriendsNew? || e.ChatMessage? || e.ChatTyping? || e.WalletUpdate? || e.ServerShutdown?
  }

  function Step(st: State, ev: Event, env: Env): State {
    match ev
    case Hello(s, payload, answers) => HelloStep(st, s, payload, answers, env)
    case UpdatePreferences(s, preferences) => UpdatePreferencesStep(st, s, preferences, env)
    case Accept(s, r) => AcceptStep(st, s, r, env)
    case Decline(s, r) => DeclineStep(st, s, r, env)
    case Connected(s, r) => ConnectedStep(st, s, r, env)
    case Skip(s, only) => SkipStep(st, s, only, env)
    case Report(s, r, target) => ReportStep(st, s, r, target, env)
    case Restrict(device, blocking) => RestrictStep(st, device, blocking, env)
    case CallFailed(s, r) => CallFailedStep(st, s, r, env)
    case Disconnect(s) => DisconnectStep(st, s, env)
    case Sweep(input) => SweepStep(st, input, env)
    case StartCall(task, ready) => StartCallStep(st, task, ready, env)
    case RunWholePass => MatchPass(st, WholePass, env)
    case Shutdown(locals) => ShutdownStep(st, locals, env)
    case Aside(s, e) => if IsAside(e) then Emit(st, s, e, env.now) else st
    case Act(s, act) => st.(out := st.out + [Acted(s, act)])
  }

  /** A run: events with the environment each one met. */
  function Run(st: State, run: seq<(Event, Env)>): State {
    if run == [] then st
    else Step(Run(st, run[..|run| - 1]), run[|run| - 1].0, run[|run| - 1].1)
  }
}
