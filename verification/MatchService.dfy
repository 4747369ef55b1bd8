/**
 * MatchService as it runs: a class that updates the store and its own fields
 * step by step. Every handler is proved to take the state to exactly what its
 * function in MatchModel says, and to keep the invariant.
 */
module MatchServer {
  import opened Wrappers
  import opened Compatibility
  import opened Protocol
  import opened WaitingQueue
  import opened Greedy
  import opened MatchModel
  import opened MatchInvariant
  import opened MatchSteps
  import opened MatchComplete
  import opened MemoryStore

  function Lookup(sessions: Sessions, s: SocketId): Option<Session> {
    if s in sessions then Some(sessions[s]) else None
  }

  /** Every room has two different members. */
  ghost predicate TwoSided(rooms: Rooms) {
    forall r :: r in rooms ==> rooms[r].a != rooms[r].b
  }

  lemma InvTwoSided(st: State)
    requires Inv(st)
    ensures TwoSided(st.rooms)
  {
    forall r | r in st.rooms ensures st.rooms[r].a != st.rooms[r].b {
      assert RoomOk(st.sessions, r, st.rooms[r]);
    }
  }

  /* ---------------------------------------------------------------- */
  /* Loading the queue                                                 */
  /* ---------------------------------------------------------------- */

  lemma {:induction false} LoadWaitingSnoc(queue: seq<Entry>, e: Entry, sessions: Sessions)
    ensures LoadWaiting(queue + [e], sessions) ==
              LoadWaiting(queue, sessions) + LoadWaiting([e], sessions)
    ensures DropStale(queue + [e], sessions) == DropStale(queue, sessions) + DropStale([e], sessions)
  {
    if queue == [] {
      assert queue + [e] == [e];
    } else {
      assert (queue + [e])[1..] == queue[1..] + [e] && (queue + [e])[0] == queue[0];
      LoadWaitingSnoc(queue[1..], e, sessions);
    }
  }

  predicate IsWaiting(sessions: Sessions, s: SocketId) {
    s in sessions && sessions[s].state == Waiting
  }

  /** Of the queue `ids`, the first i entries are loaded: the stale ones dropped, the others read. */
  predicate LoadedSoFar(ids: seq<Entry>, i: nat, kept: seq<Entry>, waiting: seq<Waiter>, sessions: Sessions) {
    i <= |ids| && kept == DropStale(ids[..i], sessions) + ids[i..] && waiting == LoadWaiting(ids[..i], sessions)
  }

  /** The next entry to load is where the entries kept so far end. */
  lemma LoadNext(ids: seq<Entry>, i: nat, kept: seq<Entry>, waiting: seq<Waiter>, sessions: Sessions)
    requires LoadedSoFar(ids, i, kept, waiting, sessions) && i < |ids| && Ordered(kept)
    ensures var s := ids[i].socket;
      if IsWaiting(sessions, s) then LoadedSoFar(ids, i + 1, kept, waiting + [Waiter(s, sessions[s])], sessions)
      else LoadedSoFar(ids, i + 1, Without(kept, s), waiting, sessions)
  {
    LoadWaitingSnoc(ids[..i], ids[i], sessions);
    assert ids[..i + 1] == ids[..i] + [ids[i]];
    var k := |DropStale(ids[..i], sessions)|;
    assert kept[k] == ids[i];
    SpliceIsWithout(kept, k);
    assert kept[..k] == DropStale(ids[..i], sessions) && kept[k + 1..] == ids[i + 1..];
  }

  /* ---------------------------------------------------------------- */
  /* Creating rooms while scanning                                     */
  /* ---------------------------------------------------------------- */

  /** Rooms do not care about wake times: creating them during the scan or after it is the same. */
  lemma {:induction false} CreateRoomsIgnoreWakes(st: State, waiting: seq<Waiter>, pairs: seq<Pairing>, env: Env, wake: map<SocketId, nat>)
    ensures CreateRooms(st.(wakeAt := wake), waiting, pairs, env) == CreateRooms(st, waiting, pairs, env).(wakeAt := wake)
    ensures CreateRooms(st, waiting, pairs, env).wakeAt == st.wakeAt
  {
    if pairs != [] {
      CreateRoomsIgnoreWakes(st, waiting, pairs[..|pairs| - 1], env, wake);
      var before := CreateRooms(st, waiting, pairs[..|pairs| - 1], env);
      var p := pairs[|pairs| - 1];
      if p.i < |waiting| && p.j < |waiting| && waiting[p.i].socket in before.sessions && waiting[p.j].socket in before.sessions {
        CreateRoomIgnoresWakes(before, waiting[p.i].socket, waiting[p.j].socket, env, wake);
      }
    }
  }

  lemma CreateRoomIgnoresWakes(st: State, a: SocketId, b: SocketId, env: Env, wake: map<SocketId, nat>)
    requires a in st.sessions && b in st.sessions
    ensures CreateRoom(st.(wakeAt := wake), a, b, env) == CreateRoom(st, a, b, env).(wakeAt := wake)
    ensures CreateRoom(st, a, b, env).wakeAt == st.wakeAt
  {
    var woken := st.(wakeAt := wake);
    var room := NewRoom(st, a, b, env);
    var news := FoundNews(st, a, b, room, env);
    assert NewRoom(woken, a, b, env) == room && FoundNews(woken, a, b, room, env) == news;
    assert StoreRoom(woken, a, b, room, news) == StoreRoom(st, a, b, room, news).(wakeAt := wake);
  }

  /** The positions in focus, oldest first. */
  function FocusedFrom(waiting: seq<Waiter>, focus: set<SocketId>, i: nat): (r: seq<nat>)
    requires i <= |waiting|
    decreases |waiting| - i
  {
    if i == |waiting| then []
    else if waiting[i].socket in focus then [i] + FocusedFrom(waiting, focus, i + 1)
    else FocusedFrom(waiting, focus, i + 1)
  }

  /** Outside the focus, row i may skip straight to the next focused column. */
  lemma {:induction false} SkipToFocus(bd: Board, i: nat, k: nat, j: nat, taken: set<nat>, wake: map<SocketId, nat>)
    requires bd.Valid() && i < |bd.waiting| && k <= j <= |bd.waiting| && !bd.InFocus(i)
    requires forall x :: k <= x < j ==> !bd.InFocus(x)
    ensures ScanRow(bd, i, k, taken, wake) == ScanRow(bd, i, j, taken, wake)
    decreases j - k
  {
    if k < j {
      SkipToFocus(bd, i, k + 1, j, taken, wake);
    }
  }

  lemma {:induction false} FocusedTail(waiting: seq<Waiter>, focus: set<SocketId>, i: nat)
    requires i <= |waiting|
    ensures var f := FocusedFrom(waiting, focus, i);
      && (f == [] ==> forall x :: i <= x < |waiting| ==> waiting[x].socket !in focus)
      && (f != [] ==> i <= f[0] < |waiting| && waiting[f[0]].socket in focus && f[1..] == FocusedFrom(waiting, focus, f[0] + 1)
                      && forall x :: i <= x < f[0] ==> waiting[x].socket !in focus)
    decreases |waiting| - i
  {
    if i < |waiting| {
      FocusedTail(waiting, focus, i + 1);
    }
  }

  /** Dropping the focused positions before `from` leaves those from `from` on. */
  lemma {:induction false} FocusedAfter(waiting: seq<Waiter>, focus: set<SocketId>, i: nat, from: nat, k: nat)
    requires i <= from <= |waiting| && k <= |FocusedFrom(waiting, focus, i)|
    requires var f := FocusedFrom(waiting, focus, i); (forall x :: 0 <= x < k ==> f[x] < from) && (k < |f| ==> f[k] >= from)
    ensures FocusedFrom(waiting, focus, i)[k..] == FocusedFrom(waiting, focus, from)
    decreases from - i
  {
    FocusedTail(waiting, focus, i);
    if i == from {
      assert k == 0;
    } else if waiting[i].socket in focus {
      FocusedAfter(waiting, focus, i + 1, from, k - 1);
    } else {
      FocusedAfter(waiting, focus, i + 1, from, k);
    }
  }

  /** A slice is a run of positions from where the cursor stands, wrapping at the end of the queue. */
  lemma SlicePicks(n: nat, budget: nat, cursor: nat)
    requires n > 0
    ensures var count := Max(1, budget / n);
      var slice := RecheckSlice(n, budget, cursor);
      var start := if count >= n then 0 else cursor % n;
      && |slice.picked| == Min(count, n)
      && (forall k :: 0 <= k < |slice.picked| ==> slice.picked[k] == (start + k) % n && slice.picked[k] < n)
      && slice.cursor == (if count >= n then 0 else start + count)
  {
    var count := Max(1, budget / n);
    if count >= n {
      var picked := RecheckSlice(n, budget, cursor).picked;
      forall k | 0 <= k < |picked| ensures picked[k] == (0 + k) % n {
        SmallModulo(k, n);
      }
    }
  }

  lemma SmallModulo(k: nat, n: nat)
    requires k < n
    ensures k % n == k
  {
  }

  lemma SliceGrows(waiting: seq<Waiter>, picked: seq<nat>, x: nat)
    requires x < |waiting|
    ensures SliceSockets(waiting, Slice(picked + [x], 0)) == SliceSockets(waiting, Slice(picked, 0)) + {waiting[x].socket}
  {
    var longer := picked + [x];
    assert x in longer && forall i :: i in picked ==> i in longer;
  }

  /** What a scan has found before row i, and what it will find, make up the whole scan. */
  predicate ScanSoFar(bd: Board, i: nat, taken: set<nat>, pairs: seq<Pairing>, wake: map<SocketId, nat>, wake0: map<SocketId, nat>) {
    && bd.Valid() && i <= |bd.waiting|
    && var rest := Scan(bd, i, taken, wake); Scan(bd, 0, {}, wake0) == ScanResult(pairs + rest.pairs, rest.wake)
  }

  lemma ScanNext(bd: Board, i: nat, taken: set<nat>, pairs: seq<Pairing>, wake: map<SocketId, nat>, wake0: map<SocketId, nat>, row: Row)
    requires ScanSoFar(bd, i, taken, pairs, wake, wake0) && i < |bd.waiting| && i !in taken && bd.steps[i] != HELD
    requires row == ScanRow(bd, i, i + 1, taken, wake)
    ensures row.partner == None ==> ScanSoFar(bd, i + 1, taken, pairs, row.wake, wake0)
    ensures row.partner.Some? ==>
              ScanSoFar(bd, i + 1, taken + {i, row.partner.value}, pairs + [Pairing(i, row.partner.value)], row.wake, wake0)
  {
    if row.partner.Some? {
      var p := Pairing(i, row.partner.value);
      var rest := Scan(bd, i + 1, taken + {i, row.partner.value}, row.wake);
      assert pairs + ([p] + rest.pairs) == (pairs + [p]) + rest.pairs;
    }
  }

  lemma ScanSkip(bd: Board, i: nat, taken: set<nat>, pairs: seq<Pairing>, wake: map<SocketId, nat>, wake0: map<SocketId, nat>)
    requires ScanSoFar(bd, i, taken, pairs, wake, wake0) && i < |bd.waiting| && (i in taken || bd.steps[i] == HELD)
    ensures ScanSoFar(bd, i + 1, taken, pairs, wake, wake0)
  {
  }

  lemma ScanStart(bd: Board, wake: map<SocketId, nat>)
    requires bd.Valid()
    ensures ScanSoFar(bd, 0, {}, [], wake, wake)
  {
    var rest := Scan(bd, 0, {}, wake);
    assert [] + rest.pairs == rest.pairs;
  }

  lemma ScanEnd(st: State, bd: Board, taken: set<nat>, pairs: seq<Pairing>, wake: map<SocketId, nat>, env: Env, focus: Option<set<SocketId>>)
    requires bd == MakeBoard(st, bd.waiting, focus, env) && ScanSoFar(bd, |bd.waiting|, taken, pairs, wake, st.wakeAt)
    ensures RunScan(st, bd.waiting, focus, env) == CreateRooms(st.(wakeAt := wake), bd.waiting, pairs, env)
  {
    assert pairs + [] == pairs;
  }

  lemma CreatablePrefix(waiting: seq<Waiter>, pairs: seq<Pairing>, more: seq<Pairing>)
    requires Creatable(waiting, pairs + more)
    ensures Creatable(waiting, pairs)
  {
    var all := pairs + more;
    forall p | p in pairs ensures p in all {
    }
    forall x, y | 0 <= x < y < |pairs| ensures !Meet(pairs[x], pairs[y]) {
      assert pairs[x] == all[x] && pairs[y] == all[y];
    }
  }

  /** The two waiters of the next pair are still as the scan read them. */
  lemma PairIsReady(st: State, waiting: seq<Waiter>, pairs: seq<Pairing>, p: Pairing, more: seq<Pairing>, env: Env)
    requires Inv(st) && Loaded(st, waiting) && Creatable(waiting, (pairs + [p]) + more)
    ensures p.i < p.j < |waiting| && waiting[p.i].socket != waiting[p.j].socket
    ensures var before := CreateRooms(st, waiting, pairs, env);
      && Lookup(before.sessions, waiting[p.i].socket) == Some(waiting[p.i].session)
      && Lookup(before.sessions, waiting[p.j].socket) == Some(waiting[p.j].session)
      && CreateRooms(st, waiting, pairs + [p], env) == CreateRoom(before, waiting[p.i].socket, waiting[p.j].socket, env)
  {
    CreatablePrefix(waiting, pairs + [p], more);
    var longer := pairs + [p];
    assert longer[..|longer| - 1] == pairs;
    LastPairIsFree(waiting, longer);
    CreateRoomsKeeps(st, waiting, pairs, env);
  }

  lemma WokenPairIsReady(st: State, full: Board, i: nat, taken: set<nat>, pairs: seq<Pairing>, j: nat, wake: map<SocketId, nat>, env: Env)
    requires Inv(st) && Loaded(st, full.waiting) && full.Valid() && Creatable(full.waiting, Scan(full, 0, {}, st.wakeAt).pairs)
    requires ScanSoFar(full, i + 1, taken + {i, j}, pairs + [Pairing(i, j)], wake, st.wakeAt)
    ensures i < j < |full.waiting| && full.waiting[i].socket != full.waiting[j].socket
    ensures var woken := st.(wakeAt := wake);
      var before := CreateRooms(woken, full.waiting, pairs, env);
      && Lookup(before.sessions, full.waiting[i].socket) == Some(full.waiting[i].session)
      && Lookup(before.sessions, full.waiting[j].socket) == Some(full.waiting[j].session)
      && CreateRooms(woken, full.waiting, pairs + [Pairing(i, j)], env) == CreateRoom(before, full.waiting[i].socket, full.waiting[j].socket, env)
  {
    var woken := st.(wakeAt := wake);
    assert SameStory(st, woken) && Inv(woken) && Loaded(woken, full.waiting);
    PairIsReady(woken, full.waiting, pairs, Pairing(i, j), Scan(full, i + 1, taken + {i, j}, wake).pairs, env);
  }

  lemma PrunedIsValid(st: State, mode: PassMode)
    requires Inv(st)
    ensures var waiting := LoadWaiting(st.queue, st.sessions);
      Inv(Pruned(st, mode, waiting)) && Loaded(Pruned(st, mode, waiting), waiting)
  {
    QueueIsLoaded(st);
    assert SameStory(st, Pruned(st, mode, LoadWaiting(st.queue, st.sessions)));
  }

  lemma QueuedIsValid(st: State, s: SocketId, since: Option<nat>, env: Env)
    requires Inv(st) && s in st.sessions && (st.sessions[s].state == Idle || st.sessions[s].state == Waiting)
    ensures Inv(Enqueue(st, s, since, env))
  {
    assert SessionOk(st.rooms, s, st.sessions[s]);
    RoomlessIsUnroomed(st.sessions, st.rooms, s);
    EnqueueKeeps(st, s, since, env, {});
  }

  function LadderStep(st: State, s: SocketId, now: nat): int
    requires s in st.relaxing
  {
    RelaxStep(now - st.relaxing[s].since, st.cfg.ladder, st.relaxing[s].low)
  }

  predicate Rises(st: State, s: SocketId, now: nat) {
    s in st.relaxing && LadderStep(st, s, now) > st.relaxing[s].step
  }

  class MatchService {
    const cfg: Config
    const store: MemoryStore
    var local: set<SocketId>
    var relaxing: map<SocketId, Relaxing>
    var dirty: set<SocketId>
    var wakeAt: map<SocketId, nat>
    var recheckCursor: nat
    var lastRecheckAt: nat
    var lastReapAt: nat
    var nextRoom: RoomId
    var calls: seq<CallTask>
    var out: seq<Item>
    var stopped: bool

    ghost function View(): State
      reads this, store
    {
      State(cfg, store.sessions, store.waiting, store.rooms, store.devices, store.allBlocks, local, relaxing, dirty, wakeAt,
            recheckCursor, lastRecheckAt, lastReapAt, nextRoom, calls, out, stopped)
    }

    /** The store is in order and its clock has not passed `now`. */
    ghost predicate Ready(now: nat)
      reads store
    {
      store.Valid() && store.clock <= now
    }

    ghost predicate Valid(now: nat)
      reads this, store
    {
      Ready(now) && Inv(View())
    }

    constructor (cfg: Config, store: MemoryStore)
      requires store.Valid() && store.clock == 0 && store.allBlocks == map[]
      requires store.sessions == map[] && store.waiting == [] && store.rooms == map[] && store.devices == map[]
      ensures this.store == store && Valid(0) && View() == Init(cfg)
    {
      this.cfg, this.store := cfg, store;
      local, relaxing, dirty, wakeAt := {}, map[], {}, map[];
      recheckCursor, lastRecheckAt, lastReapAt, nextRoom := 0, 0, 0, 0;
      calls, out, stopped := [], [], false;
      new;
      InitConsistent(cfg);
    }

    /* -------------------------------------------------------------- */
    /* Internals                                                       */
    /* -------------------------------------------------------------- */

    method Emit(s: SocketId, e: ServerEvent, now: nat)
      modifies this`out
      ensures out == old(out) + [Sent(s, e, now)]
    {
      out := out + [Sent(s, e, now)];
    }

    /** The stored room `r` if `s` is in it. */
    method MemberRoom(s: SocketId, r: RoomId) returns (room: Option<Room>)
      ensures room.Some? <==> MemberOf(View(), s, r)
      ensures room.Some? ==> room.value == store.rooms[r]
    {
      if s !in store.sessions || store.sessions[s].roomId != Some(r) || r !in store.rooms {
        return None;
      }
      var found := store.rooms[r];
      return if found.a == s || found.b == s then Some(found) else None;
    }

    method BlockPairLocked(a: DeviceId, b: DeviceId, durationMs: nat, escalate: bool, now: nat)
      requires Ready(now)
      modifies store`blocks, store`blockWrites, store`allBlocks, store`clock
      ensures Ready(now) && View() == BlockPair(old(View()), a, b, durationMs, escalate, now)
    {
      var existing := store.GetBlock(a, b, now);
      var skipCount := (if existing.Some? then existing.value.skipCount else 0) + if escalate then 1 else 0;
      var duration := if escalate then cfg.skipBlockMs * skipCount else durationMs;
      var until := Max(if existing.Some? then existing.value.until else 0, now + duration);
      var block := Block(until, skipCount, until + BLOCK_MEMORY_MS);
      store.SetBlock(a, b, block, now);
      assert BlockPair(old(View()), a, b, durationMs, escalate, now).blocks == old(store.allBlocks)[PairKey(a, b) := block];
    }

    /** The gender filter is re-checked on every (re)queue: a lapsed unlock stops applying, and the client is told. */
    method CheckFilter(s: SocketId, who: Candidate, env: Env) returns (checked: Candidate)
      modifies this`out
      ensures checked == if NeedsPremium(who, env) then LowerFilter(who) else who
      ensures out + [Sent(s, QueueWaiting(0), env.now)] == old(out) + EnqueueNews(s, NeedsPremium(who, env), env.now)
    {
      checked := who;
      if who.preferences.genderFilter != AllGenders && who.deviceId !in env.premium {
        checked := LowerFilter(who);
        Emit(s, ServerError(PremiumRequired), env.now);
        Emit(s, WalletUpdate, env.now);
      }
    }

    method QueueSession(s: SocketId, session: Session, at: nat)
      requires store.Valid()
      modifies store`sessions, store`waiting, store`waitingSince
      ensures store.Valid()
      ensures store.sessions == old(store.sessions)[s := session] && store.waiting == Add(old(store.waiting), s, at)
    {
      store.PutSession(s, session);
      store.AddWaiting(s, at);
    }

    method EnqueueLocked(s: SocketId, session: Session, since: Option<nat>, env: Env)
      requires Ready(env.now) && Lookup(store.sessions, s) == Some(session)
      modifies this`out, this`dirty, this`relaxing, store`sessions, store`waiting, store`waitingSince
      ensures Ready(env.now) && View() == Enqueue(old(View()), s, since, env)
    {
      var who := CheckFilter(s, session.who, env);
      var at := since.GetOr(env.now);
      PlaceLocked(s, session.(who := who, state := Waiting, roomId := None, waitingSince := Some(at)), at,
                  session.who.deviceId in env.low, env.now);
    }

    /** Stores a queued session, its entry, its mark and its ladder, and tells it. */
    method PlaceLocked(s: SocketId, queued: Session, at: nat, low: bool, now: nat)
      requires store.Valid()
      modifies this`out, this`dirty, this`relaxing, store`sessions, store`waiting, store`waitingSince
      ensures store.Valid()
      ensures store.sessions == old(store.sessions)[s := queued] && store.waiting == Add(old(store.waiting), s, at)
      ensures dirty == old(dirty) + {s} && relaxing == old(relaxing)[s := LadderStart(at, low)]
      ensures out == old(out) + [Sent(s, QueueWaiting(0), now)]
    {
      QueueSession(s, queued, at);
      StartLadder(s, at, low);
      Emit(s, QueueWaiting(0), now);
    }

    /** Marks a queued session for the next pass and puts it at the foot of the ladder, or holds it below. */
    method StartLadder(s: SocketId, at: nat, low: bool)
      modifies this`dirty, this`relaxing
      ensures dirty == old(dirty) + {s} && relaxing == old(relaxing)[s := LadderStart(at, low)]
    {
      dirty := dirty + {s};
      relaxing := relaxing[s := Relaxing(at, if low then HELD else 0, low)];
    }

    /** Tells one member of an ended room why, and re-queues it or leaves it idle. */
    method FreeMemberLocked(r: RoomId, s: SocketId, session: Option<Session>, reason: Option<EndReason>, env: Env)
      requires Ready(env.now) && Lookup(store.sessions, s) == session
      modifies this`out, this`dirty, this`relaxing, store`sessions, store`waiting, store`waitingSince
      ensures Ready(env.now) && View() == FreeMember(old(View()), r, s, reason, env)
      ensures forall x :: x != s ==> Lookup(store.sessions, x) == Lookup(old(store.sessions), x)
    {
      if reason == None {
        return;
      }
      Emit(s, MatchEnded(r, reason.value), env.now);
      if session == None || session.value.roomId != Some(r) {
        return;
      }
      var idle := reason.value == AcceptTimeout;
      var capped := !idle && session.value.who.deviceId in env.capped;
      if idle || capped || session.value.who.deviceId in env.banned {
        store.PutSession(s, session.value.(state := Idle, roomId := None, waitingSince := None));
        if capped {
          Emit(s, ServerError(RateLimited), env.now);
        }
      } else {
        EnqueueLocked(s, session.value, None, env);
      }
    }

    /** Deletes a room and tells each member why; a member without a reason is leaving. */
    method EndRoomLocked(r: RoomId, room: Room, reasonA: Option<EndReason>, reasonB: Option<EndReason>, env: Env)
      requires Ready(env.now) && r in store.rooms && room == store.rooms[r] && room.a != room.b
      modifies this`out, this`dirty, this`relaxing, store`rooms, store`pendingRooms, store`sessions, store`waiting, store`waitingSince
      ensures Ready(env.now) && View() == EndRoom(old(View()), r, reasonA, reasonB, env)
    {
      store.DeleteRoom(r);
      var sessionA, sessionB := Lookup(store.sessions, room.a), Lookup(store.sessions, room.b);
      FreeMemberLocked(r, room.a, sessionA, reasonA, env);
      FreeMemberLocked(r, room.b, sessionB, reasonB, env);
    }

    method EndRoomOfLocked(r: RoomId, room: Room, s: SocketId, mine: Option<EndReason>, theirs: Option<EndReason>, env: Env)
      requires Ready(env.now) && r in store.rooms && room == store.rooms[r] && room.a != room.b
      modifies this`out, this`dirty, this`relaxing, store`rooms, store`pendingRooms, store`sessions, store`waiting, store`waitingSince
      ensures Ready(env.now) && View() == EndRoomOf(old(View()), r, s, mine, theirs, env)
    {
      if room.a == s {
        EndRoomLocked(r, room, mine, theirs, env);
      } else {
        EndRoomLocked(r, room, theirs, mine, env);
      }
    }

    /** Ends the session's room for its partner. */
    method EndLeaversRoomLocked(s: SocketId, partnerReason: EndReason, env: Env)
      requires Ready(env.now) && TwoSided(store.rooms) && s in store.sessions
      modifies this`out, this`dirty, this`relaxing, store`rooms, store`pendingRooms, store`sessions, store`waiting, store`waitingSince
      ensures Ready(env.now) && View() == EndLeaversRoom(old(View()), s, partnerReason, env)
    {
      var roomId := store.sessions[s].roomId;
      if roomId.Some? {
        var room := MemberRoom(s, roomId.value);
        if room.Some? {
          EndRoomOfLocked(roomId.value, room.value, s, None, Some(partnerReason), env);
        }
      }
    }

    /** Ends the session's room for its partner and deletes the session. */
    method RemoveSessionLocked(s: SocketId, partnerReason: EndReason, env: Env)
      requires Ready(env.now) && TwoSided(store.rooms) && s in store.sessions
      modifies this`out, this`dirty, this`relaxing, store`rooms, store`pendingRooms, store`sessions, store`waiting, store`waitingSince,
               store`devices
      ensures Ready(env.now) && View() == RemoveSession(old(View()), s, partnerReason, env)
    {
      var session := store.sessions[s];
      EndLeaversRoomLocked(s, partnerReason, env);
      store.RemoveFromQueue(s);
      relaxing := relaxing - {s};
      store.DeleteSession(s);
      store.ClearDeviceSocket(session.who.deviceId, s);
    }

    /** The device connected again elsewhere: retire the old socket. */
    method ReplaceLocked(previous: SocketId, env: Env)
      requires Ready(env.now) && TwoSided(store.rooms)
      modifies this`out, this`dirty, this`relaxing, this`local, store`rooms, store`pendingRooms, store`sessions, store`waiting,
               store`waitingSince, store`devices
      ensures Ready(env.now) && View() == Replace(old(View()), previous, env)
    {
      Emit(previous, SessionReplaced, env.now);
      if previous in store.sessions {
        RemoveSessionLocked(previous, PartnerUnavailable, env);
      }
      local := local - {previous};
    }

    /** Both sides accepted: the room and its two sessions turn active, and a call task is left behind. */
    method ActivateRoomLocked(r: RoomId, room: Room, now: nat)
      requires Ready(now) && room.a != room.b
      modifies this`calls, store`rooms, store`pendingRooms, store`sessions
      ensures Ready(now) && View() == ActivateRoom(old(View()), r, room, now)
    {
      store.PutRoom(r, room.(active := true, activeSince := Some(now)));
      var sessionA, sessionB := Lookup(store.sessions, room.a), Lookup(store.sessions, room.b);
      if sessionA.Some? && sessionA.value.roomId == Some(r) {
        store.PutSession(room.a, sessionA.value.(state := Active));
      }
      if sessionB.Some? && sessionB.value.roomId == Some(r) {
        store.PutSession(room.b, sessionB.value.(state := Active));
      }
      calls := calls + [CallTask(r, now, room.a, room.b)];
    }

    /** Creates a pending room of two waiting sessions and sends match:found. */
    method CreateRoomLocked(a: Waiter, b: Waiter, env: Env)
      requires Ready(env.now) && a.socket != b.socket
      requires Lookup(store.sessions, a.socket) == Some(a.session) && Lookup(store.sessions, b.socket) == Some(b.session)
      modifies this`nextRoom, this`relaxing, this`out, this`calls, store`rooms, store`pendingRooms, store`sessions, store`waiting,
               store`waitingSince
      ensures Ready(env.now) && View() == CreateRoom(old(View()), a.socket, b.socket, env)
    {
      var r := nextRoom;
      var modeA, modeB := EffectiveMode(a.session.mode, env), EffectiveMode(b.session.mode, env);
      var room := Room(false, a.socket, b.socket, a.session.who.deviceId, b.session.who.deviceId, modeA == Instant, modeB == Instant,
                       env.now, env.now + cfg.matchAcceptTimeoutMs, None, false, false, None);
      StoreRoomLocked(a, b, room);
      TellFound(a.socket, b.socket, r, room, modeA, modeB, env.now);
      if room.acceptedA && room.acceptedB {
        ActivateRoomLocked(r, room, env.now);
      }
    }

    method StoreRoomLocked(a: Waiter, b: Waiter, room: Room)
      requires store.Valid() && a.socket != b.socket
      requires Lookup(store.sessions, a.socket) == Some(a.session) && Lookup(store.sessions, b.socket) == Some(b.session)
      modifies this`nextRoom, this`relaxing, store`rooms, store`pendingRooms, store`sessions, store`waiting, store`waitingSince
      ensures store.Valid() && View() == StoreRoom(old(View()), a.socket, b.socket, room, [])
    {
      var r := nextRoom;
      nextRoom := nextRoom + 1;
      store.PutRoom(r, room);
      TakeWaiter(a, r);
      TakeWaiter(b, r);
    }

    /** match:found for both; a side the server did not accept for hears that its partner is in. */
    method TellFound(a: SocketId, b: SocketId, r: RoomId, room: Room, modeA: MatchMode, modeB: MatchMode, now: nat)
      modifies this`out
      ensures out == old(out) + ([Sent(a, MatchFound(r, room.expiresAt, now, modeA), now), Sent(b, MatchFound(r, room.expiresAt, now, modeB), now)]
                + if room.acceptedA && !room.acceptedB then [Sent(b, PartnerAccepted(r), now)]
                  else if room.acceptedB && !room.acceptedA then [Sent(a, PartnerAccepted(r), now)]
                  else [])
    {
      Emit(a, MatchFound(r, room.expiresAt, now, modeA), now);
      Emit(b, MatchFound(r, room.expiresAt, now, modeB), now);
      if room.acceptedA && !room.acceptedB {
        Emit(b, PartnerAccepted(r), now);
      } else if room.acceptedB && !room.acceptedA {
        Emit(a, PartnerAccepted(r), now);
      }
    }

    /** Takes a waiter out of the queue and into room `r`. */
    method TakeWaiter(w: Waiter, r: RoomId)
      requires store.Valid()
      modifies this`relaxing, store`sessions, store`waiting, store`waitingSince
      ensures store.Valid()
      ensures store.sessions == old(store.sessions)[w.socket := Matched(w.session, r)]
      ensures store.waiting == Without(old(store.waiting), w.socket) && relaxing == old(relaxing) - {w.socket}
    {
      store.PutSession(w.socket, w.session.(state := Pending, roomId := Some(r), waitingSince := None));
      store.RemoveFromQueue(w.socket);
      relaxing := relaxing - {w.socket};
    }

    /* -------------------------------------------------------------- */
    /* The match pass                                                  */
    /* -------------------------------------------------------------- */

    /** Reads the queue's sessions and drops entries whose session no longer waits. */
    method LoadQueue() returns (waiting: seq<Waiter>)
      requires store.Valid()
      modifies store`waiting, store`waitingSince
      ensures store.Valid()
      ensures waiting == LoadWaiting(old(store.waiting), store.sessions)
      ensures store.waiting == DropStale(old(store.waiting), store.sessions)
    {
      var ids, sessions := store.waiting, store.sessions;
      waiting := [];
      var i := 0;
      while i < |ids|
        invariant 0 <= i <= |ids| && store.Valid()
        invariant LoadedSoFar(ids, i, store.waiting, waiting, sessions)
      {
        var s := ids[i].socket;
        LoadNext(ids, i, store.waiting, waiting, sessions);
        if IsWaiting(sessions, s) {
          waiting := waiting + [Waiter(s, sessions[s])];
        } else {
          store.RemoveFromQueue(s);
        }
        i := i + 1;
      }
      assert ids[..i] == ids;
    }

    /** Adds the next slice of the queue to the focus. */
    method AddRecheckSlice(waiting: seq<Waiter>, focus: set<SocketId>) returns (wider: set<SocketId>)
      requires |waiting| > 0
      modifies this`recheckCursor
      ensures var slice := RecheckSlice(|waiting|, cfg.recheckPairBudget, old(recheckCursor));
        wider == focus + SliceSockets(waiting, slice) && recheckCursor == slice.cursor
    {
      var n := |waiting|;
      var count := Max(1, cfg.recheckPairBudget / n);
      var start := if count >= n then 0 else recheckCursor % n;
      ghost var picked := RecheckSlice(n, cfg.recheckPairBudget, recheckCursor).picked;
      SlicePicks(n, cfg.recheckPairBudget, recheckCursor);
      wider := focus;
      var k := 0;
      while k < Min(count, n)
        invariant 0 <= k <= Min(count, n) == |picked|
        invariant wider == focus + SliceSockets(waiting, Slice(picked[..k], 0))
      {
        var x := (start + k) % n;
        assert picked[k] == x && picked[..k + 1] == picked[..k] + [x];
        SliceGrows(waiting, picked[..k], x);
        wider := wider + {waiting[x].socket};
        k := k + 1;
      }
      assert picked[..k] == picked;
      recheckCursor := if count >= n then 0 else start + count;
    }

    /** The board of a scan, with the blocks as the store knows them. */
    ghost function Full(bd: Board): Board
      reads store
    {
      bd.(blocks := store.allBlocks)
    }

    /** Row i of the pass: a waiter in focus tries everyone after it, any other only those in focus. */
    method FindPartner(bd: Board, i: nat, focused: seq<nat>, taken: set<nat>) returns (partner: Option<nat>)
      requires bd.Valid() && i < |bd.waiting| && Ready(bd.now)
      requires bd.focus.Some? ==> focused == FocusedFrom(bd.waiting, bd.focus.value, 0)
      modifies this`wakeAt, store`blocks, store`clock
      ensures Ready(bd.now)
      ensures Row(partner, wakeAt) == ScanRow(Full(bd), i, i + 1, taken, old(wakeAt))
    {
      if bd.InFocus(i) {
        partner := FindAmongAll(bd, i, taken);
      } else {
        partner := FindAmongFocused(bd, i, focused, taken);
      }
    }

    /** The columns after i, oldest first. */
    method FindAmongAll(bd: Board, i: nat, taken: set<nat>) returns (partner: Option<nat>)
      requires bd.Valid() && i < |bd.waiting| && bd.InFocus(i) && Ready(bd.now)
      modifies this`wakeAt, store`blocks, store`clock
      ensures Ready(bd.now)
      ensures Row(partner, wakeAt) == ScanRow(Full(bd), i, i + 1, taken, old(wakeAt))
    {
      var j := i + 1;
      while j < |bd.waiting|
        invariant i < j <= |bd.waiting| && Ready(bd.now)
        invariant ScanRow(Full(bd), i, j, taken, wakeAt) == ScanRow(Full(bd), i, i + 1, taken, old(wakeAt))
      {
        var fits := TryColumn(bd, i, j, taken);
        if fits {
          return Some(j);
        }
        j := j + 1;
      }
      return None;
    }

    /** The focused columns after i, oldest first. */
    method FindAmongFocused(bd: Board, i: nat, focused: seq<nat>, taken: set<nat>) returns (partner: Option<nat>)
      requires bd.Valid() && i < |bd.waiting| && !bd.InFocus(i) && Ready(bd.now)
      requires focused == FocusedFrom(bd.waiting, bd.focus.value, 0)
      modifies this`wakeAt, store`blocks, store`clock
      ensures Ready(bd.now)
      ensures Row(partner, wakeAt) == ScanRow(Full(bd), i, i + 1, taken, old(wakeAt))
    {
      var k := 0;
      while k < |focused| && focused[k] <= i
        invariant 0 <= k <= |focused|
        invariant forall x :: 0 <= x < k ==> focused[x] <= i
      {
        k := k + 1;
      }
      ghost var from := i + 1;
      FocusedAfter(bd.waiting, bd.focus.value, 0, i + 1, k);
      while k < |focused|
        invariant 0 <= k <= |focused| && i < from <= |bd.waiting| && Ready(bd.now)
        invariant focused[k..] == FocusedFrom(bd.waiting, bd.focus.value, from)
        invariant ScanRow(Full(bd), i, from, taken, wakeAt) == ScanRow(Full(bd), i, i + 1, taken, old(wakeAt))
      {
        var j := focused[k];
        FocusedTail(bd.waiting, bd.focus.value, from);
        assert focused[k..][0] == j && focused[k..][1..] == focused[k + 1..];
        SkipToFocus(Full(bd), i, from, j, taken, wakeAt);
        var fits := TryColumn(bd, i, j, taken);
        if fits {
          return Some(j);
        }
        k := k + 1;
        from := j + 1;
      }
      FocusedTail(bd.waiting, bd.focus.value, from);
      SkipToFocus(Full(bd), i, from, |bd.waiting|, taken, wakeAt);
      return None;
    }

    /** Column j of row i: a partner, a block to wake up for, or nothing. */
    method TryColumn(bd: Board, i: nat, j: nat, taken: set<nat>) returns (fits: bool)
      requires bd.Valid() && i < j < |bd.waiting| && (bd.InFocus(i) || bd.InFocus(j)) && Ready(bd.now)
      modifies this`wakeAt, store`blocks, store`clock
      ensures Ready(bd.now)
      ensures fits ==> wakeAt == old(wakeAt) && ScanRow(Full(bd), i, j, taken, wakeAt) == Row(Some(j), wakeAt)
      ensures !fits ==> ScanRow(Full(bd), i, j, taken, old(wakeAt)) == ScanRow(Full(bd), i, j + 1, taken, wakeAt)
    {
      if j in taken {
        return false;
      }
      var a, b := bd.waiting[i], bd.waiting[j];
      var step := PairStep(bd.steps[i], bd.steps[j]);
      if step == HELD || !IsCompatible(a.session.who, b.session.who) || !MeetsPreferences(a.session.who, b.session.who, step) {
        return false;
      }
      if a.session.who.deviceId in bd.banned || b.session.who.deviceId in bd.banned {
        return false;
      }
      var block := store.GetBlock(a.session.who.deviceId, b.session.who.deviceId, bd.now);
      if block.Some? && block.value.until > bd.now {
        if a.socket !in wakeAt || block.value.until < wakeAt[a.socket] {
          wakeAt := wakeAt[a.socket := block.value.until];
        }
        return false;
      }
      return true;
    }

    /** The scan stands before row i: what it found is what the spec finds, and its rooms are created. */
    ghost predicate InScan(st: State, full: Board, i: nat, taken: set<nat>, pairs: seq<Pairing>, env: Env)
      reads this, store
    {
      && Ready(env.now) && store.allBlocks == st.blocks && full.blocks == st.blocks
      && ScanSoFar(full, i, taken, pairs, wakeAt, st.wakeAt)
      && View() == CreateRooms(st.(wakeAt := wakeAt), full.waiting, pairs, env)
    }

    /** Row i has found `partner`; its room is not created yet. */
    ghost predicate FoundInRow(st: State, full: Board, i: nat, taken: set<nat>, pairs: seq<Pairing>, partner: Option<nat>, env: Env)
      reads this, store
    {
      && Ready(env.now) && store.allBlocks == st.blocks && full.blocks == st.blocks
      && (if partner == None then ScanSoFar(full, i + 1, taken, pairs, wakeAt, st.wakeAt)
          else ScanSoFar(full, i + 1, taken + {i, partner.value}, pairs + [Pairing(i, partner.value)], wakeAt, st.wakeAt))
      && View() == CreateRooms(st.(wakeAt := wakeAt), full.waiting, pairs, env)
    }

    method FindInRow(bd: Board, i: nat, focused: seq<nat>, taken: set<nat>, env: Env, ghost st: State, ghost full: Board, ghost pairs: seq<Pairing>)
      returns (partner: Option<nat>)
      requires full == bd.(blocks := st.blocks) && bd.now == env.now && InScan(st, full, i, taken, pairs, env)
      requires i < |bd.waiting| && i !in taken && bd.steps[i] != HELD
      requires bd.focus.Some? ==> focused == FocusedFrom(bd.waiting, bd.focus.value, 0)
      modifies this`wakeAt, store`blocks, store`clock
      ensures FoundInRow(st, full, i, taken, pairs, partner, env)
    {
      ghost var wake0 := wakeAt;
      CreateRoomsIgnoreWakes(st, bd.waiting, pairs, env, wake0);
      partner := FindPartner(bd, i, focused, taken);
      ScanNext(full, i, taken, pairs, wake0, st.wakeAt, Row(partner, wakeAt));
      CreateRoomsIgnoreWakes(st, bd.waiting, pairs, env, wakeAt);
    }

    /** One row: the waiter takes its first partner, and the room is created on the spot. */
    method PairRow(bd: Board, i: nat, focused: seq<nat>, taken: set<nat>, env: Env, ghost st: State, ghost full: Board, ghost pairs: seq<Pairing>)
      returns (partner: Option<nat>, ghost pairs': seq<Pairing>)
      requires full == bd.(blocks := st.blocks) && bd.now == env.now && InScan(st, full, i, taken, pairs, env)
      requires i < |bd.waiting| && i !in taken && bd.steps[i] != HELD
      requires bd.focus.Some? ==> focused == FocusedFrom(bd.waiting, bd.focus.value, 0)
      requires Inv(st) && Loaded(st, bd.waiting) && Creatable(bd.waiting, Scan(full, 0, {}, st.wakeAt).pairs)
      modifies this`wakeAt, this`nextRoom, this`relaxing, this`out, this`calls, store`blocks, store`clock, store`rooms,
               store`pendingRooms, store`sessions, store`waiting, store`waitingSince
      ensures InScan(st, full, i + 1, if partner.Some? then taken + {i, partner.value} else taken, pairs', env)
    {
      pairs' := pairs;
      partner := FindInRow(bd, i, focused, taken, env, st, full, pairs);
      if partner.Some? {
        pairs' := pairs + [Pairing(i, partner.value)];
        WokenPairIsReady(st, full, i, taken, pairs, partner.value, wakeAt, env);
        CreateRoomIgnoresWakes(View(), bd.waiting[i].socket, bd.waiting[partner.value].socket, env, wakeAt);
        CreateRoomLocked(bd.waiting[i], bd.waiting[partner.value], env);
      }
    }

    /** One iteration of the scan: a waiter that is taken or held is passed over. */
    method ScanRowLocked(bd: Board, i: nat, focused: seq<nat>, taken: set<nat>, env: Env, ghost st: State, ghost full: Board, ghost pairs: seq<Pairing>)
      returns (taken': set<nat>, ghost pairs': seq<Pairing>)
      requires full == bd.(blocks := st.blocks) && bd.now == env.now && InScan(st, full, i, taken, pairs, env) && i < |bd.waiting|
      requires bd.focus.Some? ==> focused == FocusedFrom(bd.waiting, bd.focus.value, 0)
      requires Inv(st) && Loaded(st, bd.waiting) && Creatable(bd.waiting, Scan(full, 0, {}, st.wakeAt).pairs)
      modifies this`wakeAt, this`nextRoom, this`relaxing, this`out, this`calls, store`blocks, store`clock, store`rooms,
               store`pendingRooms, store`sessions, store`waiting, store`waitingSince
      ensures InScan(st, full, i + 1, taken', pairs', env)
    {
      taken', pairs' := taken, pairs;
      if i in taken || bd.steps[i] == HELD {
        ScanSkip(full, i, taken, pairs, wakeAt, st.wakeAt);
        return;
      }
      var partner;
      partner, pairs' := PairRow(bd, i, focused, taken, env, st, full, pairs);
      if partner.Some? {
        taken' := taken + {i, partner.value};
      }
    }

    /** The scan, oldest first. */
    method RunScanLocked(waiting: seq<Waiter>, focus: Option<set<SocketId>>, env: Env)
      requires Valid(env.now) && Loaded(View(), waiting)
      modifies this`wakeAt, this`nextRoom, this`relaxing, this`out, this`calls, store`blocks, store`clock, store`rooms,
               store`pendingRooms, store`sessions, store`waiting, store`waitingSince
      ensures Ready(env.now) && View() == RunScan(old(View()), waiting, focus, env)
    {
      ghost var st := View();
      var bd := Board(waiting, StepsOf(waiting, cfg.ladder, env.now, env.low), focus, env.banned, map[], env.now);
      ghost var full := MakeBoard(st, waiting, focus, env);
      var focused := if focus.Some? then FocusedFrom(waiting, focus.value, 0) else [];
      ScanIsCreatable(full, st.wakeAt);
      ScanStart(full, st.wakeAt);
      var taken: set<nat> := {};
      ghost var pairs: seq<Pairing> := [];
      var i := 0;
      while i < |waiting|
        invariant 0 <= i <= |waiting|
        invariant InScan(st, full, i, taken, pairs, env)
      {
        taken, pairs := ScanRowLocked(bd, i, focused, taken, env, st, full, pairs);
        i := i + 1;
      }
      ScanEnd(st, full, taken, pairs, wakeAt, env, focus);
    }

    /** The pass over a loaded queue of at least two. */
    method PassOverLocked(mode: PassMode, waiting: seq<Waiter>, focus: Option<set<SocketId>>, env: Env)
      requires Valid(env.now) && |waiting| > 0 && Loaded(View(), waiting)
      requires mode == WholePass <==> focus == None
      modifies this`recheckCursor, this`wakeAt, this`nextRoom, this`relaxing, this`out, this`calls, store`blocks, store`clock, store`rooms,
               store`pendingRooms, store`sessions, store`waiting, store`waitingSince
      ensures Ready(env.now)
      ensures var slice := RecheckSlice(|waiting|, cfg.recheckPairBudget, old(recheckCursor));
        View() == if mode == RecheckPass
                  then RunScan(old(View()).(recheckCursor := slice.cursor), waiting, Some(focus.value + SliceSockets(waiting, slice)), env)
                  else RunScan(old(View()), waiting, focus, env)
    {
      ghost var st := View();
      if mode == RecheckPass {
        var wider := AddRecheckSlice(waiting, focus.value);
        assert SameStory(st, View()) && Inv(View());
        RunScanLocked(waiting, Some(wider), env);
      } else {
        RunScanLocked(waiting, focus, env);
      }
    }

    /** Loads the queue, forgets wake times of absent sessions on a recheck, and scans. */
    method ScanQueueLocked(mode: PassMode, focus: Option<set<SocketId>>, env: Env, ghost st: State)
      requires Ready(env.now) && Inv(st) && View() == st.(dirty := {})
      requires focus == if mode == WholePass then None else Some(st.dirty)
      modifies this`recheckCursor, this`wakeAt, this`nextRoom, this`relaxing, this`out, this`calls, store`blocks, store`clock, store`rooms,
               store`pendingRooms, store`sessions, store`waiting, store`waitingSince
      ensures Ready(env.now)
      ensures var waiting := LoadWaiting(st.queue, st.sessions);
        View() == if |waiting| < 2 then Pruned(st, mode, waiting) else PassOver(st, mode, waiting, env)
    {
      var waiting := LoadPruned(mode, st);
      if |waiting| < 2 {
        return;
      }
      PrunedIsValid(st, mode);
      PassOverLocked(mode, waiting, focus, env);
    }

    /** Loads the queue; a recheck also forgets the wake times of sessions that left it. */
    method LoadPruned(mode: PassMode, ghost st: State) returns (waiting: seq<Waiter>)
      requires store.Valid() && View() == st.(dirty := {})
      modifies this`wakeAt, store`waiting, store`waitingSince
      ensures store.Valid() && waiting == LoadWaiting(st.queue, st.sessions) && View() == Pruned(st, mode, waiting)
    {
      waiting := LoadQueue();
      if mode == RecheckPass {
        var queued := SocketsOf(waiting);
        wakeAt := map s | s in wakeAt && s in queued :: wakeAt[s];
      }
    }

    /**
     * The match pass. After an event it tries only pairs with a dirty member; a
     * recheck adds a slice of the queue; only tests run the whole pass.
     */
    method MatchPassLocked(mode: PassMode, env: Env)
      requires Valid(env.now)
      modifies this, store
      ensures Valid(env.now) && View() == MatchPass(old(View()), mode, env)
    {
      ghost var st := View();
      MatchPassKeeps(st, mode, env);
      if !env.open {
        return;
      }
      var focus := if mode == WholePass then None else Some(dirty);
      dirty := {};
      if (mode == DirtyPass && focus == Some({})) || |store.waiting| < 2 {
        return;
      }
      ScanQueueLocked(mode, focus, env, st);
    }

    /* -------------------------------------------------------------- */
    /* Hello and preferences                                           */
    /* -------------------------------------------------------------- */

    /** The checks of a hello, in order; the first two run before the lock is taken. */
    method CheckHello(s: SocketId, p: HelloPayload, answers: HelloAnswers, env: Env) returns (refused: Option<ErrorCode>)
      ensures refused == HelloRefusal(View(), s, p, answers, env)
    {
      if stopped {
        return Some(Internal);
      }
      if answers.restricted || p.device in env.banned {
        return Some(Banned);
      }
      if s !in local && answers.precheck.Some? {
        return answers.precheck;
      }
      if !answers.connected {
        return Some(BadState);
      }
      var session := Lookup(store.sessions, s);
      if session.Some? && session.value.who.deviceId != p.device {
        return Some(BadState);
      }
      if session == None || session.value.state == Idle {
        if answers.coolingDown {
          return Some(RateLimited);
        }
        return answers.refused;
      }
      return None;
    }

    /** Creates the session, retiring the device's previous socket, or updates it in place. */
    method StoreHelloLocked(s: SocketId, p: HelloPayload, who: Candidate, env: Env)
      requires Ready(env.now) && TwoSided(store.rooms) && who == HelloWho(p, env)
      modifies this`out, this`dirty, this`relaxing, this`local, store`rooms, store`pendingRooms, store`sessions, store`waiting,
               store`waitingSince, store`devices
      ensures Ready(env.now) && View() == HelloStored(old(View()), s, p, env)
    {
      if s in store.sessions {
        store.PutSession(s, store.sessions[s].(who := who, mode := p.mode));
      } else {
        if p.device in store.devices && store.devices[p.device] != s {
          ReplaceLocked(store.devices[p.device], env);
        }
        store.SetDeviceSocket(p.device, s);
        store.PutSession(s, Session(who, p.mode, Idle, None, None));
      }
    }

    /** An idle session joins the queue; a waiting one is queued anew at its old place. */
    method JoinQueueLocked(s: SocketId, env: Env)
      requires Valid(env.now) && s in store.sessions
      modifies this, store
      ensures Valid(env.now)
      ensures var st := old(View());
        var session := st.sessions[s];
        View() == if session.state == Idle || session.state == Waiting
                  then MatchPass(Enqueue(st, s, if session.state == Waiting then session.waitingSince else None, env), DirtyPass, env)
                  else st
    {
      var session := store.sessions[s];
      if session.state == Idle || session.state == Waiting {
        var since := if session.state == Waiting then session.waitingSince else None;
        QueuedIsValid(View(), s, since, env);
        EnqueueLocked(s, session, since, env);
        MatchPassLocked(DirtyPass, env);
      }
    }

    method Hello(s: SocketId, p: HelloPayload, answers: HelloAnswers, env: Env)
      requires Valid(env.now)
      modifies this, store
      ensures Valid(env.now) && View() == HelloStep(old(View()), s, p, answers, env)
    {
      ghost var st := View();
      var refused := CheckHello(s, p, answers, env);
      if refused.Some? {
        Emit(s, HelloRefused(refused.value), env.now);
        assert SameStory(st, View());
        return;
      }
      InvTwoSided(st);
      HelloStoredKeeps(st, s, p, env);
      AdmitLocked(s, p, env);
      assert SameStory(HelloStored(st, s, p, env), View());
      JoinQueueLocked(s, env);
    }

    /** Stores an admitted session, its filter lowered if it is locked, and acknowledges it. */
    method AdmitLocked(s: SocketId, p: HelloPayload, env: Env)
      requires Ready(env.now) && TwoSided(store.rooms)
      modifies this`out, this`dirty, this`relaxing, this`local, store`rooms, store`pendingRooms, store`sessions, store`waiting,
               store`waitingSince, store`devices
      ensures Ready(env.now)
      ensures View() == HelloAcked(HelloStored(old(View()), s, p, env), s, HelloWho(p, env).preferences.genderFilter, env.now)
    {
      var who := Candidate(p.device, p.profile, p.preferences);
      if who.preferences.genderFilter != AllGenders && who.deviceId !in env.premium {
        who := LowerFilter(who);
      }
      StoreHelloLocked(s, p, who, env);
      local := local + {s};
      TellAdmitted(s, who.preferences.genderFilter, env.now);
    }

    method TellAdmitted(s: SocketId, filter: GenderFilter, now: nat)
      modifies this`out
      ensures out == old(out) + [Sent(s, HelloAccepted(filter), now), Sent(s, WalletUpdate, now)]
    {
      Emit(s, HelloAccepted(filter), now);
      Emit(s, WalletUpdate, now);
    }

    method UpdatePreferences(s: SocketId, preferences: Preferences, env: Env)
      requires Valid(env.now)
      modifies this, store
      ensures Valid(env.now) && View() == UpdatePreferencesStep(old(View()), s, preferences, env)
    {
      if s !in store.sessions {
        return;
      }
      var session := store.sessions[s];
      if preferences.genderFilter != AllGenders && session.who.deviceId !in env.premium {
        return;
      }
      if session.who.preferences == preferences {
        return;
      }
      RewriteLocked(s, preferences, env.now);
      if session.state == Waiting {
        MarkLocked(s);
        MatchPassLocked(DirtyPass, env);
      }
    }

    method RewriteLocked(s: SocketId, preferences: Preferences, now: nat)
      requires Valid(now) && s in store.sessions
      modifies this`out, store`sessions
      ensures Valid(now)
      ensures var session := old(store.sessions)[s];
        View() == MatchModel.Emit(old(View()).(sessions := old(store.sessions)[s := session.(who := session.who.(preferences := preferences))]),
                                  s, PreferencesSaved(preferences.genderFilter), now)
    {
      ghost var st := View();
      var session := store.sessions[s];
      var who := session.who.(preferences := preferences);
      RewriteKeeps(st, s, who, session.mode);
      store.PutSession(s, session.(who := who));
      Emit(s, PreferencesSaved(preferences.genderFilter), now);
      assert SameStory(st.(sessions := st.sessions[s := session.(who := who)]), View());
    }

    method MarkLocked(s: SocketId)
      requires store.Valid() && Inv(View())
      modifies this`dirty
      ensures Inv(View()) && View() == old(View()).(dirty := old(dirty) + {s})
    {
      ghost var st := View();
      dirty := dirty + {s};
      assert SameStory(st, View());
    }

    /* -------------------------------------------------------------- */
    /* Rooms                                                           */
    /* -------------------------------------------------------------- */

    method Accept(s: SocketId, r: RoomId, env: Env)
      requires Valid(env.now)
      modifies this, store
      ensures Valid(env.now) && View() == AcceptStep(old(View()), s, r, env)
    {
      AcceptKeeps(View(), s, r, env);
      InvTwoSided(View());
      var found := MemberRoom(s, r);
      if found.Some? && !found.value.active {
        AcceptPending(s, r, found.value, env);
      }
    }

    /** A late accept is refused; the second accept of a room starts the call. */
    method AcceptPending(s: SocketId, r: RoomId, found: Room, env: Env)
      requires Ready(env.now) && TwoSided(store.rooms)
      requires MemberOf(View(), s, r) && found == store.rooms[r] && !found.active
      modifies this`out, this`calls, store`rooms, store`pendingRooms, store`sessions
      ensures Ready(env.now) && View() == AcceptStep(old(View()), s, r, env)
    {
      if env.now > found.expiresAt + cfg.matchAcceptGraceMs {
        Emit(s, ServerError(NotInRoom), env.now);
        return;
      }
      if HasAccepted(found, s) {
        return;
      }
      var room := AcceptedBy(found, s);
      if !room.acceptedA || !room.acceptedB {
        store.PutRoom(r, room);
        Emit(Partner(room, s), PartnerAccepted(r), env.now);
        return;
      }
      ActivateRoomLocked(r, room, env.now);
    }

    /** Blocks the pair of a live room, ends it for both members, and matches. */
    method BlockEndAndMatchLocked(r: RoomId, room: Room, s: SocketId, durationMs: nat, escalate: bool, mine: EndReason, theirs: EndReason, env: Env)
      requires Valid(env.now) && r in store.rooms && room == store.rooms[r]
      modifies this, store
      ensures Valid(env.now)
      ensures View() == MatchPass(EndRoomOf(BlockPair(old(View()), room.deviceA, room.deviceB, durationMs, escalate, env.now), r, s, Some(mine), Some(theirs), env),
                                  DirtyPass, env)
    {
      ghost var st := View();
      BlockedKeeps(st, r, durationMs, escalate, env.now);
      InvTwoSided(st);
      BlockPairLocked(room.deviceA, room.deviceB, durationMs, escalate, env.now);
      EndRoomOfKeeps(View(), r, s, mine, theirs, env);
      EndRoomOfLocked(r, room, s, Some(mine), Some(theirs), env);
      MatchPassLocked(DirtyPass, env);
    }

    method Decline(s: SocketId, r: RoomId, env: Env)
      requires Valid(env.now)
      modifies this, store
      ensures Valid(env.now) && View() == DeclineStep(old(View()), s, r, env)
    {
      var found := MemberRoom(s, r);
      if found == None || found.value.active {
        return;
      }
      BlockEndAndMatchLocked(r, found.value, s, cfg.declineBlockMs, false, Declined, PartnerDeclined, env);
    }

    method Connected(s: SocketId, r: RoomId, env: Env)
      requires Valid(env.now)
      modifies this, store
      ensures Valid(env.now) && View() == ConnectedStep(old(View()), s, r, env)
    {
      ConnectedKeeps(View(), s, r, env);
      var found := MemberRoom(s, r);
      if found.Some? && found.value.active {
        ConnectActive(s, r, found.value, env);
      }
    }

    /** Rewards start once both members say their peer connection is up. */
    method ConnectActive(s: SocketId, r: RoomId, found: Room, env: Env)
      requires Ready(env.now) && MemberOf(View(), s, r) && found == store.rooms[r] && found.active
      modifies store`rooms, store`pendingRooms
      ensures Ready(env.now) && View() == ConnectedStep(old(View()), s, r, env)
    {
      var already := if found.a == s then found.connectedA else found.connectedB;
      if already {
        return;
      }
      var room := if found.a == s then found.(connectedA := true) else found.(connectedB := true);
      if room.connectedA && room.connectedB {
        room := room.(connectedSince := Some(env.now));
      }
      store.PutRoom(r, room);
    }

    /** With a room named, a skip for a room the sender already left is ignored. */
    method Skip(s: SocketId, only: Option<RoomId>, env: Env)
      requires Valid(env.now)
      modifies this, store
      ensures Valid(env.now) && View() == SkipStep(old(View()), s, only, env)
    {
      if s !in store.sessions || store.sessions[s].roomId == None {
        return;
      }
      var r := store.sessions[s].roomId.value;
      if only.Some? && only.value != r {
        return;
      }
      var found := MemberRoom(s, r);
      if found == None {
        return;
      }
      BlockEndAndMatchLocked(r, found.value, s, 0, true, Skipped, PartnerSkipped, env);
    }

    /** The locked part of a report. */
    method Report(s: SocketId, r: RoomId, target: (DeviceId, DeviceId), env: Env)
      requires Valid(env.now)
      modifies this, store
      ensures Valid(env.now) && View() == ReportStep(old(View()), s, r, target, env)
    {
      ghost var st := View();
      var found := MemberRoom(s, r);
      if found == None {
        BlockPairLocked(target.0, target.1, cfg.reportBlockMs, false, env.now);
        assert SameStory(st, View());
        return;
      }
      BlockEndAndMatchLocked(r, found.value, s, cfg.reportBlockMs, false, Reported, PartnerSkipped, env);
    }

    method CallFailed(s: SocketId, r: RoomId, env: Env)
      requires Valid(env.now)
      modifies this, store
      ensures Valid(env.now) && View() == CallFailedStep(old(View()), s, r, env)
    {
      var found := MemberRoom(s, r);
      if found == None || !found.value.active {
        return;
      }
      BlockEndAndMatchLocked(r, found.value, s, cfg.declineBlockMs, false, ConnectionFailed, ConnectionFailed, env);
    }

    /** call:start goes out under the lock, only while its room is still the active one. */
    method StartCall(task: nat, ready: bool, env: Env)
      requires Valid(env.now) && task < |calls|
      modifies this`calls, this`out
      ensures Valid(env.now) && View() == StartCallStep(old(View()), task, ready, env)
    {
      StartCallKeeps(View(), task, ready, env);
      TakeTask(task, ready, env);
    }

    method TakeTask(task: nat, ready: bool, env: Env)
      requires task < |calls|
      modifies this`calls, this`out
      ensures View() == StartCallStep(old(View()), task, ready, env)
    {
      var t := calls[task];
      calls := calls[..task] + calls[task + 1..];
      if ready && !stopped && t.room in store.rooms && store.rooms[t.room].active && store.rooms[t.room].activeSince == Some(t.activeSince) {
        Emit(t.a, CallStart(t.room, true), env.now);
        Emit(t.b, CallStart(t.room, false), env.now);
      }
    }

    /* -------------------------------------------------------------- */
    /* Restrictions and leaving                                        */
    /* -------------------------------------------------------------- */

    /** Takes a restricted session out of its room and out of the queue. */
    method SidelineLocked(s: SocketId, env: Env)
      requires Ready(env.now) && TwoSided(store.rooms) && s in store.sessions
      modifies this`out, this`dirty, this`relaxing, store`rooms, store`pendingRooms, store`sessions, store`waiting, store`waitingSince
      ensures Ready(env.now) && View() == Sideline(old(View()), s, env)
    {
      var roomId := store.sessions[s].roomId;
      if roomId.Some? {
        var room := MemberRoom(s, roomId.value);
        if room.Some? {
          EndRoomOfLocked(roomId.value, room.value, s, Some(Restricted), Some(PartnerSkipped), env);
        }
      }
      var current := Lookup(store.sessions, s);
      if current.Some? && current.value.state != Idle {
        store.PutSession(s, current.value.(state := Idle, roomId := None, waitingSince := None));
      }
      store.RemoveFromQueue(s);
    }

    method RestrictionApplied(device: DeviceId, blocking: bool, env: Env)
      requires Valid(env.now)
      modifies this, store
      ensures Valid(env.now) && View() == RestrictStep(old(View()), device, blocking, env)
    {
      if device !in store.devices || store.devices[device] !in store.sessions {
        return;
      }
      var s := store.devices[device];
      if blocking {
        SidelineValid(s, env);
      }
      AnnounceRestriction(s, env.now);
      MatchPassLocked(DirtyPass, env);
    }

    method SidelineValid(s: SocketId, env: Env)
      requires Valid(env.now) && s in store.sessions
      modifies this`out, this`dirty, this`relaxing, store`rooms, store`pendingRooms, store`sessions, store`waiting, store`waitingSince
      ensures Valid(env.now) && View() == Sideline(old(View()), s, env)
    {
      EndRestrictedKeeps(View(), s, env);
      SidelinedKeeps(EndRestrictedRoom(View(), s, env), s);
      InvTwoSided(View());
      SidelineLocked(s, env);
    }

    method AnnounceRestriction(s: SocketId, now: nat)
      requires Valid(now)
      modifies this`out
      ensures Valid(now) && View() == MatchModel.Emit(old(View()), s, SessionRestricted, now)
    {
      ghost var st := View();
      Emit(s, SessionRestricted, now);
      assert SameStory(st, View());
    }

    method Disconnect(s: SocketId, env: Env)
      requires Valid(env.now)
      modifies this, store
      ensures Valid(env.now) && View() == DisconnectStep(old(View()), s, env)
    {
      ghost var st := View();
      local := local - {s};
      wakeAt := wakeAt - {s};
      assert SameStory(st, View());
      if s !in store.sessions {
        return;
      }
      InvTwoSided(View());
      RemoveSessionKeeps(View(), s, PartnerLeft, env);
      RemoveSessionLocked(s, PartnerLeft, env);
      MatchPassLocked(DirtyPass, env);
    }

    /** Runs one whole match pass under the lock. */
    method RunMatchPass(env: Env)
      requires Valid(env.now)
      modifies this, store
      ensures Valid(env.now) && View() == MatchPass(old(View()), WholePass, env)
    {
      MatchPassLocked(WholePass, env);
    }

    /** Removes this instance's sessions and lets their partners be matched at once. */
    method Shutdown(locals: seq<SocketId>, env: Env)
      requires Valid(env.now)
      modifies this, store
      ensures Valid(env.now) && View() == ShutdownStep(old(View()), locals, env)
    {
      if stopped {
        return;
      }
      ghost var st := View();
      ShutdownKeeps(st, locals, env);
      stopped := true;
      ghost var halted := View();
      assert SameStory(st, halted) && Inv(halted);
      var i := 0;
      while i < |locals|
        invariant 0 <= i <= |locals| && Valid(env.now)
        invariant View() == RemoveAll(halted, locals[..i], env)
      {
        assert locals[..i + 1][..i] == locals[..i];
        RemovePresentLocked(locals[i], PartnerUnavailable, env);
        i := i + 1;
      }
      assert locals[..i] == locals;
      MatchPassLocked(DirtyPass, env);
      local := {};
    }

    method RemovePresentLocked(s: SocketId, reason: EndReason, env: Env)
      requires Valid(env.now)
      modifies this`out, this`dirty, this`relaxing, store`rooms, store`pendingRooms, store`sessions, store`waiting, store`waitingSince,
               store`devices
      ensures Valid(env.now) && View() == RemoveIfPresent(old(View()), s, reason, env)
    {
      RemoveIfPresentKeeps(View(), s, reason, env);
      InvTwoSided(View());
      if s in store.sessions {
        RemoveSessionLocked(s, reason, env);
      }
    }

    /* -------------------------------------------------------------- */
    /* The sweep                                                       */
    /* -------------------------------------------------------------- */

    /** Removes this instance's sessions whose socket is gone. */
    method RemoveGhostsLocked(ghosts: seq<SocketId>, env: Env)
      requires Valid(env.now)
      modifies this`out, this`dirty, this`relaxing, this`local, this`wakeAt, store`rooms, store`pendingRooms, store`sessions,
               store`waiting, store`waitingSince, store`devices
      ensures Valid(env.now) && View() == RemoveGhosts(old(View()), ghosts, env)
    {
      ghost var st := View();
      var i := 0;
      while i < |ghosts|
        invariant 0 <= i <= |ghosts| && Valid(env.now)
        invariant View() == RemoveGhosts(st, ghosts[..i], env)
      {
        assert ghosts[..i + 1][..i] == ghosts[..i];
        ForgetAndRemoveLocked(ghosts[i], env);
        i := i + 1;
      }
      assert ghosts[..i] == ghosts;
    }

    method ForgetAndRemoveLocked(s: SocketId, env: Env)
      requires Valid(env.now)
      modifies this`out, this`dirty, this`relaxing, this`local, this`wakeAt, store`rooms, store`pendingRooms, store`sessions,
               store`waiting, store`waitingSince, store`devices
      ensures Valid(env.now) && View() == RemoveIfPresent(Forget(old(View()), s), s, PartnerLeft, env)
    {
      ghost var st := View();
      local := local - {s};
      wakeAt := wakeAt - {s};
      assert SameStory(st, View());
      RemovePresentLocked(s, PartnerLeft, env);
    }

    /** Ends the rooms whose accept window has passed. */
    method ExpireRoomsLocked(expired: seq<RoomId>, env: Env)
      requires Valid(env.now)
      modifies this`out, this`dirty, this`relaxing, store`blocks, store`blockWrites, store`allBlocks, store`clock, store`rooms,
               store`pendingRooms, store`sessions, store`waiting, store`waitingSince
      ensures Valid(env.now) && View() == ExpireRooms(old(View()), expired, env)
    {
      ghost var st := View();
      var i := 0;
      while i < |expired|
        invariant 0 <= i <= |expired| && Valid(env.now)
        invariant View() == ExpireRooms(st, expired[..i], env)
      {
        assert expired[..i + 1][..i] == expired[..i];
        ExpireRoomLocked(expired[i], env);
        i := i + 1;
      }
      assert expired[..i] == expired;
    }

    method ExpireRoomLocked(r: RoomId, env: Env)
      requires Valid(env.now)
      modifies this`out, this`dirty, this`relaxing, store`blocks, store`blockWrites, store`allBlocks, store`clock, store`rooms,
               store`pendingRooms, store`sessions, store`waiting, store`waitingSince
      ensures Valid(env.now) && View() == ExpireRoom(old(View()), r, env)
    {
      ExpireRoomKeeps(View(), r, env);
      InvTwoSided(View());
      if r !in store.rooms || store.rooms[r].active {
        return;
      }
      var room := store.rooms[r];
      BlockPairLocked(room.deviceA, room.deviceB, cfg.declineBlockMs, false, env.now);
      EndRoomLocked(r, room, Some(if room.acceptedA then TimedOut else AcceptTimeout),
                    Some(if room.acceptedB then TimedOut else AcceptTimeout), env);
    }

    /** Blocks that kept a session apart have lapsed: mark it for the next pass. */
    method WakeLapsedLocked(now: nat)
      modifies this`wakeAt, this`dirty
      ensures View() == WakeLapsed(old(View()), now)
    {
      var rest := wakeAt.Keys;
      while rest != {}
        invariant rest <= old(wakeAt).Keys
        invariant wakeAt == map s | s in old(wakeAt) && (s in rest || old(wakeAt)[s] > now) :: old(wakeAt)[s]
        invariant dirty == old(dirty) + set s | s in old(wakeAt) && s !in rest && old(wakeAt)[s] <= now
      {
        var s :| s in rest;
        if wakeAt[s] <= now {
          wakeAt := wakeAt - {s};
          dirty := dirty + {s};
        }
        rest := rest - {s};
      }
      assert wakeAt == old(wakeAt) - set s | s in old(wakeAt) && old(wakeAt)[s] <= now;
    }

    /** The keys of the ladder, each once. */
    method LadderKeys() returns (order: seq<SocketId>)
      ensures forall s :: s in order <==> s in relaxing
      ensures forall i, j :: 0 <= i < j < |order| ==> order[i] != order[j]
    {
      order := [];
      var rest := relaxing.Keys;
      while rest != {}
        invariant rest <= relaxing.Keys
        invariant forall s :: s in order <==> s in relaxing && s !in rest
        invariant forall i, j :: 0 <= i < j < |order| ==> order[i] != order[j]
      {
        var s :| s in rest;
        order := order + [s];
        rest := rest - {s};
      }
    }

    /** First finds whose step rose, then reads their sessions and records, marks and tells. */
    method RelaxTickLocked(order: seq<SocketId>, now: nat)
      requires forall i, j :: 0 <= i < j < |order| ==> order[i] != order[j]
      requires forall s :: s in order ==> s in relaxing
      modifies this`relaxing, this`dirty, this`out
      ensures View() == RelaxTick(old(View()), order, now)
    {
      var changed := FindRisen(order, now);
      RaiseAll(order, changed, now);
    }

    method FindRisen(order: seq<SocketId>, now: nat) returns (changed: map<SocketId, int>)
      requires forall s :: s in order ==> s in relaxing
      ensures forall s :: s in changed <==> s in order && Rises(View(), s, now)
      ensures forall s :: s in changed ==> changed[s] == LadderStep(View(), s, now)
    {
      changed := map[];
      var k := 0;
      while k < |order|
        invariant 0 <= k <= |order|
        invariant forall s :: s in changed <==> s in order[..k] && Rises(View(), s, now)
        invariant forall s :: s in changed ==> changed[s] == LadderStep(View(), s, now)
      {
        var entry := relaxing[order[k]];
        var step := RelaxStep(now - entry.since, cfg.ladder, entry.low);
        assert order[..k + 1] == order[..k] + [order[k]];
        if step > entry.step {
          changed := changed[order[k] := step];
        }
        k := k + 1;
      }
      assert order[..k] == order;
    }

    /** Entries not reached yet are as they were. */
    ghost predicate Untold(st: State, order: seq<SocketId>, k: nat)
      reads this`relaxing
    {
      forall i :: k <= i < |order| ==> LadderOf(relaxing, order[i]) == LadderOf(st.relaxing, order[i])
    }

    method RaiseAll(order: seq<SocketId>, changed: map<SocketId, int>, now: nat)
      requires forall i, j :: 0 <= i < j < |order| ==> order[i] != order[j]
      requires forall s :: s in order ==> s in relaxing
      requires forall s :: s in changed <==> s in order && Rises(View(), s, now)
      requires forall s :: s in changed ==> changed[s] == LadderStep(View(), s, now)
      modifies this`relaxing, this`dirty, this`out
      ensures View() == RelaxTick(old(View()), order, now)
    {
      ghost var st := View();
      var k := 0;
      while k < |order|
        invariant 0 <= k <= |order|
        invariant View() == RelaxTick(st, order[..k], now)
        invariant Untold(st, order, k)
      {
        var s := order[k];
        assert order[..k + 1][..k] == order[..k] && s in order;
        assert LadderOf(relaxing, s) == LadderOf(st.relaxing, s);
        if s in changed {
          RaiseLocked(s, changed[s], now);
        }
        k := k + 1;
      }
      assert order[..k] == order;
    }

    /** Records the new step of one session, marks it and tells it. */
    method RaiseLocked(s: SocketId, step: int, now: nat)
      requires s in relaxing && step == LadderStep(View(), s, now) && Rises(View(), s, now)
      modifies this`relaxing, this`dirty, this`out
      ensures View() == RelaxOne(old(View()), s, now)
      ensures forall x :: x != s ==> LadderOf(relaxing, x) == LadderOf(old(relaxing), x)
    {
      var entry := relaxing[s];
      if s !in store.sessions || store.sessions[s].state != Waiting || store.sessions[s].waitingSince != Some(entry.since) {
        relaxing := relaxing - {s};
        return;
      }
      var shownBefore := Max(0, entry.step);
      relaxing := relaxing[s := entry.(step := step)];
      dirty := dirty + {s};
      if step > shownBefore {
        Emit(s, QueueWaiting(Max(0, step)), now);
      }
      if step >= MAX_STEP {
        relaxing := relaxing - {s};
      }
    }

    /**
     * The locked part of a sweep. It walks the whole ladder and every room that
     * has expired, so no waiting pair that could be matched survives it.
     */
    method RunSweep(ghosts: seq<SocketId>, env: Env, passAt: nat) returns (input: SweepInput)
      requires Valid(env.now) && passAt >= env.now
      modifies this, store
      ensures Valid(passAt) && input.ghosts == ghosts && input.passAt == passAt
      ensures View() == SweepStep(old(View()), input, env) && LegalSweep(old(View()), input, env)
      ensures var reaped := Reaped(old(View()), ghosts, env);
        forall r :: r in input.expired <==>
          r in reaped.rooms && !reaped.rooms[r].active && reaped.rooms[r].expiresAt + cfg.matchAcceptGraceMs <= env.now
    {
      ghost var st := View();
      var expired, recheck := RouseLocked(ghosts, env);
      var order := LadderKeys();
      input := SweepInput(ghosts, expired, order, passAt);
      RelaxTickLocked(order, env.now);
      SweepPreparedKeeps(st, input, env);
      MatchPassLocked(if recheck then RecheckPass else DirtyPass, env.(now := passAt));
    }

    /** A sweep before its ladder walk; whether its pass is a recheck. */
    method RouseLocked(ghosts: seq<SocketId>, env: Env) returns (expired: seq<RoomId>, recheck: bool)
      requires Valid(env.now)
      modifies this`out, this`dirty, this`relaxing, this`local, this`wakeAt, this`lastReapAt, this`lastRecheckAt, store
      ensures Ready(env.now) && View() == Roused(old(View()), ghosts, expired, env) && recheck == RecheckDue(old(View()), env)
      ensures var reaped := Reaped(old(View()), ghosts, env);
        forall r :: r in expired <==>
          r in reaped.rooms && !reaped.rooms[r].active && reaped.rooms[r].expiresAt + cfg.matchAcceptGraceMs <= env.now
    {
      expired := ReapAndExpireLocked(ghosts, env);
      WakeLapsedLocked(env.now);
      recheck := env.now - lastRecheckAt >= cfg.recheckIntervalMs;
      if recheck {
        lastRecheckAt := env.now;
      }
    }

    /** The first part of a sweep: dead sockets, then every room whose accept window and grace have passed. */
    method ReapAndExpireLocked(ghosts: seq<SocketId>, env: Env) returns (expired: seq<RoomId>)
      requires Valid(env.now)
      modifies this`out, this`dirty, this`relaxing, this`local, this`wakeAt, this`lastReapAt, store
      ensures Valid(env.now)
      ensures var reaped := Reaped(old(View()), ghosts, env);
        && View() == ExpireRooms(reaped, expired, env)
        && forall r :: r in expired <==>
             r in reaped.rooms && !reaped.rooms[r].active && reaped.rooms[r].expiresAt + cfg.matchAcceptGraceMs <= env.now
    {
      ghost var st := View();
      if env.now - lastReapAt >= cfg.heartbeatIntervalMs {
        lastReapAt := env.now;
        assert SameStory(st, View());
        RemoveGhostsLocked(ghosts, env);
      }
      expired := store.ListExpiredPendingRooms(env.now - cfg.matchAcceptGraceMs);
      ExpireRoomsLocked(expired, env);
    }
  }
}
