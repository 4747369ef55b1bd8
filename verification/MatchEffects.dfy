/**
 * What handlers do, said without their bodies: who is told what when a room
 * ends, which rooms a pass may create, that a parted pair is not matched
 * straight back, that blocks escalate, that sweeps leave no expired room, and
 * that a device's new socket takes over from its old one.
 */
module MatchEffects {
  import opened Wrappers
  import opened Compatibility
  import opened Protocol
  import opened Greedy
  import opened MatchModel
  import opened PassTheory
  import opened MatchInvariant
  import opened MatchSteps
  import opened MatchComplete

  /* ---------------------------------------------------------------- */
  /* A room ends                                                       */
  /* ---------------------------------------------------------------- */

  /** Goes idle: never accepted in time, over the hourly cap, or banned. */
  predicate GoesIdle(reason: EndReason, device: DeviceId, env: Env) {
    reason == AcceptTimeout || device in env.capped || device in env.banned
  }

  /** What one freed member's session and marks become. */
  predicate Freed(before: Session, after: Session, marked: bool, reason: EndReason, env: Env) {
    && after.roomId == None && after.mode == before.mode
    && (after.state == Idle <==> GoesIdle(reason, before.who.deviceId, env))
    && (after.state != Idle ==> after.state == Waiting && after.waitingSince == Some(env.now) && marked)
    && after.who.deviceId == before.who.deviceId && after.who.profile == before.who.profile
    && after.who.preferences.languageFilter == before.who.preferences.languageFilter
    && after.who.preferences.genderFilter ==
         (if after.state == Waiting && before.who.deviceId !in env.premium then AllGenders else before.who.preferences.genderFilter)
  }

  lemma IdledIsFreed(st: State, s: SocketId, capped: bool, reason: EndReason, env: Env)
    requires s in st.sessions && GoesIdle(reason, st.sessions[s].who.deviceId, env)
    ensures var st' := LeaveIdle(st, s, capped, env.now);
      Freed(st.sessions[s], st'.sessions[s], s in st'.dirty, reason, env) && st.out <= st'.out && st.dirty <= st'.dirty
  {
  }

  lemma QueuedIsFreed(st: State, s: SocketId, reason: EndReason, env: Env)
    requires s in st.sessions && !GoesIdle(reason, st.sessions[s].who.deviceId, env)
    ensures var st' := Enqueue(st, s, None, env);
      Freed(st.sessions[s], st'.sessions[s], s in st'.dirty, reason, env) && st.out <= st'.out && st.dirty <= st'.dirty
  {
  }

  lemma FreedMember(st: State, r: RoomId, s: SocketId, reason: EndReason, env: Env)
    requires s in st.sessions && st.sessions[s].roomId == Some(r)
    ensures var st' := FreeMember(st, r, s, Some(reason), env);
      && s in st'.sessions && Freed(st.sessions[s], st'.sessions[s], s in st'.dirty, reason, env)
      && st.out + [Sent(s, MatchEnded(r, reason), env.now)] <= st'.out && st.dirty <= st'.dirty
  {
    var told := Emit(st, s, MatchEnded(r, reason), env.now);
    var device := st.sessions[s].who.deviceId;
    if GoesIdle(reason, device, env) {
      IdleBranch(st, r, s, reason, env);
      IdledIsFreed(told, s, reason != AcceptTimeout && device in env.capped, reason, env);
    } else {
      QueueBranch(st, r, s, reason, env);
      QueuedIsFreed(told, s, reason, env);
    }
  }

  lemma IdleBranch(st: State, r: RoomId, s: SocketId, reason: EndReason, env: Env)
    requires s in st.sessions && st.sessions[s].roomId == Some(r) && GoesIdle(reason, st.sessions[s].who.deviceId, env)
    ensures FreeMember(st, r, s, Some(reason), env)
            == LeaveIdle(Emit(st, s, MatchEnded(r, reason), env.now), s, reason != AcceptTimeout && st.sessions[s].who.deviceId in env.capped, env.now)
  {
  }

  lemma QueueBranch(st: State, r: RoomId, s: SocketId, reason: EndReason, env: Env)
    requires s in st.sessions && st.sessions[s].roomId == Some(r) && !GoesIdle(reason, st.sessions[s].who.deviceId, env)
    ensures FreeMember(st, r, s, Some(reason), env) == Enqueue(Emit(st, s, MatchEnded(r, reason), env.now), s, None, env)
  {
  }

  /** Told: the trace has grown, and `item` is among what was added. */
  predicate Told(out: seq<Item>, out': seq<Item>, item: Item) {
    out <= out' && item in out'[|out|..]
  }

  lemma ToldLater(out: seq<Item>, out': seq<Item>, out'': seq<Item>, item: Item)
    requires Told(out, out', item) && out' <= out''
    ensures Told(out, out'', item)
  {
    var k :| |out| <= k < |out'| && out'[k] == item;
    assert out''[k] == item && out''[|out|..][k - |out|] == item;
  }

  lemma ToldSince(out: seq<Item>, out': seq<Item>, out'': seq<Item>, item: Item)
    requires out <= out' && Told(out', out'', item)
    ensures Told(out, out'', item)
  {
    var k :| |out'| <= k < |out''| && out''[k] == item;
    assert out''[|out|..][k - |out|] == item;
  }

  /** Ending a room: each member with a reason hears it and is freed; the others stay as they are. */
  lemma EndRoomEffect(st: State, r: RoomId, reasonA: Option<EndReason>, reasonB: Option<EndReason>, env: Env)
    requires Inv(st) && r in st.rooms
    ensures var room, st' := st.rooms[r], EndRoom(st, r, reasonA, reasonB, env);
      && room.a in st.sessions && room.b in st.sessions && room.a in st'.sessions && room.b in st'.sessions
      && st.out <= st'.out && st'.rooms == st.rooms - {r}
      && (if reasonA == None then st'.sessions[room.a] == st.sessions[room.a]
          else Told(st.out, st'.out, Sent(room.a, MatchEnded(r, reasonA.value), env.now))
               && Freed(st.sessions[room.a], st'.sessions[room.a], room.a in st'.dirty, reasonA.value, env))
      && (if reasonB == None then st'.sessions[room.b] == st.sessions[room.b]
          else Told(st.out, st'.out, Sent(room.b, MatchEnded(r, reasonB.value), env.now))
               && Freed(st.sessions[room.b], st'.sessions[room.b], room.b in st'.dirty, reasonB.value, env))
      && (forall x :: x != room.a && x != room.b && x in st.sessions ==> x in st'.sessions && st'.sessions[x] == st.sessions[x])
  {
    var room := st.rooms[r];
    assert RoomOk(st.sessions, r, room);
    EndRoomFrame(st, r, reasonA, reasonB, env);
    var deleted := RoomDeleted(st, r);
    var one := FreeMember(deleted, r, room.a, reasonA, env);
    FreeMemberFrame(deleted, r, room.a, reasonA, env);
    OneFreed(deleted, r, room.a, reasonA, env);
    OneFreed(one, r, room.b, reasonB, env);
    FreeMemberFrame(one, r, room.b, reasonB, env);
    var st' := FreeMember(one, r, room.b, reasonB, env);
    if reasonA.Some? {
      ToldLater(st.out, one.out, st'.out, Sent(room.a, MatchEnded(r, reasonA.value), env.now));
    }
    if reasonB.Some? {
      ToldSince(st.out, one.out, st'.out, Sent(room.b, MatchEnded(r, reasonB.value), env.now));
    }
  }

  lemma OneFreed(st: State, r: RoomId, s: SocketId, reason: Option<EndReason>, env: Env)
    requires s in st.sessions && st.sessions[s].roomId == Some(r)
    ensures var st' := FreeMember(st, r, s, reason, env);
      && s in st'.sessions && st.out <= st'.out && st.dirty <= st'.dirty
      && (reason.Some? ==>
            && Told(st.out, st'.out, Sent(s, MatchEnded(r, reason.value), env.now))
            && Freed(st.sessions[s], st'.sessions[s], s in st'.dirty, reason.value, env))
  {
    if reason.Some? {
      FreedMember(st, r, s, reason.value, env);
      var st' := FreeMember(st, r, s, reason, env);
      assert st'.out[|st.out|] == Sent(s, MatchEnded(r, reason.value), env.now);
      assert st'.out[|st.out|..][0] == Sent(s, MatchEnded(r, reason.value), env.now);
    }
  }

  /* ---------------------------------------------------------------- */
  /* The rooms a pass creates                                          */
  /* ---------------------------------------------------------------- */

  /** The room of two waiters, before any of them answers. */
  predicate FreshRoom(room: Room, x: Waiter, y: Waiter, cfg: Config, env: Env) {
    && room.a == x.socket && room.b == y.socket
    && room.deviceA == x.session.who.deviceId && room.deviceB == y.session.who.deviceId
    && room.acceptedA == (EffectiveMode(x.session.mode, env) == Instant)
    && room.acceptedB == (EffectiveMode(y.session.mode, env) == Instant)
    && room.active == (room.acceptedA && room.acceptedB)
    && room.createdAt == env.now && room.expiresAt == env.now + cfg.matchAcceptTimeoutMs
    && !room.connectedA && !room.connectedB && room.connectedSince == None
  }

  predicate RoomOf(room: Room, waiting: seq<Waiter>, p: Pairing, cfg: Config, env: Env) {
    p.i < |waiting| && p.j < |waiting| && FreshRoom(room, waiting[p.i], waiting[p.j], cfg, env)
  }

  /** Rooms of `st'` are those of `st` and one fresh room for each pair, numbered in order. */
  ghost predicate OneRoomEach(st: State, st': State, waiting: seq<Waiter>, pairs: seq<Pairing>, env: Env) {
    && st'.nextRoom == st.nextRoom + |pairs| && st'.cfg == st.cfg
    && (forall q :: q in st.rooms ==> q in st'.rooms && st'.rooms[q] == st.rooms[q])
    && (forall q :: q in st'.rooms && q !in st.rooms ==> st.nextRoom <= q < st.nextRoom + |pairs|)
    && (forall q :: st.nextRoom <= q < st.nextRoom + |pairs| ==> q in st'.rooms && RoomOf(st'.rooms[q], waiting, pairs[q - st.nextRoom], st.cfg, env))
  }

  lemma {:induction false} CreateRoomsOneEach(st: State, waiting: seq<Waiter>, pairs: seq<Pairing>, env: Env)
    requires Inv(st) && Loaded(st, waiting) && Creatable(waiting, pairs)
    ensures OneRoomEach(st, CreateRooms(st, waiting, pairs, env), waiting, pairs, env)
  {
    if pairs != [] {
      var n := |pairs| - 1;
      LastPairIsFree(waiting, pairs);
      CreateRoomsOneEach(st, waiting, pairs[..n], env);
      CreateRoomsKeeps(st, waiting, pairs[..n], env);
      var before := CreateRooms(st, waiting, pairs[..n], env);
      LastRoomKeeps(before, waiting, pairs, env);
      OneMore(st, before, CreateRooms(st, waiting, pairs, env), waiting, pairs, env);
    }
  }

  lemma CreatedIsFresh(before: State, after: State, x: Waiter, y: Waiter, env: Env)
    requires x.socket in before.sessions && before.sessions[x.socket] == x.session
    requires y.socket in before.sessions && before.sessions[y.socket] == y.session
    requires Created(before, after, x.socket, y.socket, env)
    ensures var r := before.nextRoom;
      && after.nextRoom == r + 1 && after.cfg == before.cfg && r in after.rooms
      && after.rooms == before.rooms[r := after.rooms[r]] && FreshRoom(after.rooms[r], x, y, before.cfg, env)
  {
  }

  lemma OneMore(st: State, before: State, after: State, waiting: seq<Waiter>, pairs: seq<Pairing>, env: Env)
    requires pairs != [] && OneRoomEach(st, before, waiting, pairs[..|pairs| - 1], env) && Numbered(st.rooms, st.nextRoom)
    requires var p := pairs[|pairs| - 1];
      && p.i < |waiting| && p.j < |waiting|
      && waiting[p.i].socket in before.sessions && before.sessions[waiting[p.i].socket] == waiting[p.i].session
      && waiting[p.j].socket in before.sessions && before.sessions[waiting[p.j].socket] == waiting[p.j].session
      && Created(before, after, waiting[p.i].socket, waiting[p.j].socket, env)
    ensures OneRoomEach(st, after, waiting, pairs, env)
  {
    var n := |pairs| - 1;
    CreatedIsFresh(before, after, waiting[pairs[n].i], waiting[pairs[n].j], env);
    EachAndOne(st, before, after, waiting, pairs, env);
  }

  lemma EachAndOne(st: State, before: State, after: State, waiting: seq<Waiter>, pairs: seq<Pairing>, env: Env)
    requires pairs != [] && OneRoomEach(st, before, waiting, pairs[..|pairs| - 1], env) && Numbered(st.rooms, st.nextRoom)
    requires after.nextRoom == before.nextRoom + 1 && after.cfg == before.cfg && before.nextRoom in after.rooms
    requires after.rooms == before.rooms[before.nextRoom := after.rooms[before.nextRoom]]
    requires RoomOf(after.rooms[before.nextRoom], waiting, pairs[|pairs| - 1], before.cfg, env)
    ensures OneRoomEach(st, after, waiting, pairs, env)
  {
    var n := |pairs| - 1;
    assert |pairs[..n]| == n && before.nextRoom == st.nextRoom + n;
    forall q | st.nextRoom <= q < st.nextRoom + |pairs|
      ensures q in after.rooms && RoomOf(after.rooms[q], waiting, pairs[q - st.nextRoom], st.cfg, env)
    {
      if q < before.nextRoom {
        assert pairs[..n][q - st.nextRoom] == pairs[q - st.nextRoom];
        assert q in before.rooms;
      }
    }
    forall q | q in st.rooms ensures q in after.rooms && after.rooms[q] == st.rooms[q] {
      assert q in before.rooms && before.rooms[q] == st.rooms[q];
      assert q < st.nextRoom;
    }
    forall q | q in after.rooms && q !in st.rooms ensures st.nextRoom <= q < st.nextRoom + |pairs| {
      if q != before.nextRoom {
        assert q in before.rooms;
      }
    }
  }

  /** A room that is new after a pass: two sessions that waited, could be matched, and came in queue order. */
  ghost predicate MatchedByPass(st: State, room: Room, env: Env) {
    && Matchable(st, env.low, env.banned, room.a, room.b, env.now)
    && FreshRoom(room, Waiter(room.a, st.sessions[room.a]), Waiter(room.b, st.sessions[room.b]), st.cfg, env)
    && exists i, j :: 0 <= i < j < |st.queue| && st.queue[i].socket == room.a && st.queue[j].socket == room.b
  }

  ghost predicate OnlyMatched(st: State, st': State, env: Env) {
    && (forall q :: q in st.rooms ==> q in st'.rooms && st'.rooms[q] == st.rooms[q])
    && (forall q :: q in st'.rooms && q !in st.rooms ==> MatchedByPass(st, st'.rooms[q], env))
  }

  lemma ScannedPairMatches(st: State, waiting: seq<Waiter>, focus: Option<set<SocketId>>, env: Env, p: Pairing)
    requires Loaded(st, waiting) && p in Scan(MakeBoard(st, waiting, focus, env), 0, {}, st.wakeAt).pairs
    ensures p.i < p.j < |waiting| && Matchable(st, env.low, env.banned, waiting[p.i].socket, waiting[p.j].socket, env.now)
  {
    var bd := MakeBoard(st, waiting, focus, env);
    ScanIsPass(bd, 0, {}, st.wakeAt);
    PassFacts(MayTryRelation(bd), |waiting|, 0, {});
    assert Candidates(MayTryRelation(bd), |waiting|, p);
    assert bd.May(p.i, p.j);
    assert waiting[p.i] == Waiter(waiting[p.i].socket, st.sessions[waiting[p.i].socket]);
    assert waiting[p.j] == Waiter(waiting[p.j].socket, st.sessions[waiting[p.j].socket]);
  }

  lemma RunScanCreatesOnlyMatched(st: State, waiting: seq<Waiter>, focus: Option<set<SocketId>>, env: Env)
    requires Inv(st) && Loaded(st, waiting) && |waiting| == |st.queue|
    requires forall i :: 0 <= i < |waiting| ==> waiting[i].socket == st.queue[i].socket
    ensures OnlyMatched(st, RunScan(st, waiting, focus, env), env)
  {
    var bd := MakeBoard(st, waiting, focus, env);
    var scan := Scan(bd, 0, {}, st.wakeAt);
    var woken := st.(wakeAt := scan.wake);
    var st' := RunScan(st, waiting, focus, env);
    ScanIsCreatable(bd, st.wakeAt);
    assert SameStory(st, woken) && Inv(woken) && Loaded(woken, waiting);
    CreateRoomsOneEach(woken, waiting, scan.pairs, env);
    forall q | q in st'.rooms && q !in st.rooms ensures MatchedByPass(st, st'.rooms[q], env) {
      NewRoomMatches(st, st', waiting, focus, env, q);
    }
  }

  lemma NewRoomMatches(st: State, st': State, waiting: seq<Waiter>, focus: Option<set<SocketId>>, env: Env, q: RoomId)
    requires Loaded(st, waiting) && |waiting| == |st.queue|
    requires forall i :: 0 <= i < |waiting| ==> waiting[i].socket == st.queue[i].socket
    requires var scan := Scan(MakeBoard(st, waiting, focus, env), 0, {}, st.wakeAt);
      OneRoomEach(st.(wakeAt := scan.wake), st', waiting, scan.pairs, env)
    requires q in st'.rooms && q !in st.rooms
    ensures MatchedByPass(st, st'.rooms[q], env)
  {
    var pairs := Scan(MakeBoard(st, waiting, focus, env), 0, {}, st.wakeAt).pairs;
    var p := pairs[q - st.nextRoom];
    ScannedPairMatches(st, waiting, focus, env, p);
    assert RoomOf(st'.rooms[q], waiting, p, st.cfg, env);
    FreshPairMatches(st, waiting, p, st'.rooms[q], env);
  }

  lemma FreshPairMatches(st: State, waiting: seq<Waiter>, p: Pairing, room: Room, env: Env)
    requires Loaded(st, waiting) && |waiting| == |st.queue| && p.i < p.j < |waiting|
    requires forall i :: 0 <= i < |waiting| ==> waiting[i].socket == st.queue[i].socket
    requires Matchable(st, env.low, env.banned, waiting[p.i].socket, waiting[p.j].socket, env.now)
    requires RoomOf(room, waiting, p, st.cfg, env)
    ensures MatchedByPass(st, room, env)
  {
    assert waiting[p.i] == Waiter(room.a, st.sessions[room.a]) && waiting[p.j] == Waiter(room.b, st.sessions[room.b]);
    assert st.queue[p.i].socket == room.a && st.queue[p.j].socket == room.b;
  }

  /** The waiters a pass loads. */
  function Loads(st: State): seq<Waiter> {
    LoadWaiting(st.queue, st.sessions)
  }

  /** The state a pass over a loaded queue scans from. */
  function ScanFrom(st: State, mode: PassMode): State {
    var waiting := Loads(st);
    var pruned := Pruned(st, mode, waiting);
    if mode == RecheckPass && |waiting| > 0
    then pruned.(recheckCursor := RecheckSlice(|waiting|, st.cfg.recheckPairBudget, st.recheckCursor).cursor)
    else pruned
  }

  /** The focus of such a scan. */
  function ScanFocus(st: State, mode: PassMode): Option<set<SocketId>> {
    var waiting := Loads(st);
    if mode == RecheckPass && |waiting| > 0
    then Some(st.dirty + SliceSockets(waiting, RecheckSlice(|waiting|, st.cfg.recheckPairBudget, st.recheckCursor)))
    else if mode == WholePass then None else Some(st.dirty)
  }

  lemma ScannedSame(st: State, mode: PassMode)
    ensures var pruned := ScanFrom(st, mode);
      pruned == Pruned(st, mode, Loads(st)).(recheckCursor := pruned.recheckCursor)
  {
  }

  lemma ScannedIsLoaded(st: State, mode: PassMode)
    requires Inv(st)
    ensures var pruned := ScanFrom(st, mode);
      && SameStory(st, pruned) && Inv(pruned) && pruned.blocks == st.blocks && pruned.cfg == st.cfg && pruned.out == st.out
      && Loaded(pruned, Loads(st)) && |Loads(st)| == |st.queue|
      && (forall i :: 0 <= i < |Loads(st)| ==> Loads(st)[i].socket == st.queue[i].socket)
  {
    QueueIsLoaded(st);
    ScannedSame(st, mode);
  }

  lemma PassOverIsScan(st: State, mode: PassMode, env: Env)
    requires |Loads(st)| > 0
    ensures PassOver(st, mode, Loads(st), env) == RunScan(ScanFrom(st, mode), Loads(st), ScanFocus(st, mode), env)
  {
  }

  /** The pass scanned nothing: it was closed, unmarked or short of waiters. */
  predicate NoScan(st: State, mode: PassMode, env: Env) {
    !env.open || (mode == DirtyPass && st.dirty == {}) || |st.queue| < 2
  }

  lemma SkippedPass(st: State, mode: PassMode, env: Env)
    requires NoScan(st, mode, env)
    ensures SameStory(st, MatchPass(st, mode, env)) && MatchPass(st, mode, env).out == st.out && MatchPass(st, mode, env).cfg == st.cfg
  {
  }

  /** Every other pass is a scan of the queue as it stands. */
  lemma PassIsScan(st: State, mode: PassMode, env: Env)
    requires Inv(st) && !NoScan(st, mode, env)
    ensures MatchPass(st, mode, env) == RunScan(ScanFrom(st, mode), Loads(st), ScanFocus(st, mode), env)
  {
    QueueIsLoaded(st);
    PassOverIsScan(st, mode, env);
  }

  /** Whatever its mode, a pass keeps every room and creates only rooms of sessions that could be matched. */
  lemma PassCreatesOnlyMatched(st: State, mode: PassMode, env: Env)
    requires Inv(st)
    ensures OnlyMatched(st, MatchPass(st, mode, env), env)
  {
    if NoScan(st, mode, env) {
      SkippedPass(st, mode, env);
    } else {
      PassIsScan(st, mode, env);
      ScannedIsLoaded(st, mode);
      RunScanCreatesOnlyMatched(ScanFrom(st, mode), Loads(st), ScanFocus(st, mode), env);
      PrunedMatched(st, ScanFrom(st, mode), MatchPass(st, mode, env), env);
    }
  }

  lemma PrunedMatched(st: State, pruned: State, st': State, env: Env)
    requires SameStory(st, pruned) && pruned.blocks == st.blocks && pruned.cfg == st.cfg && OnlyMatched(pruned, st', env)
    ensures OnlyMatched(st, st', env)
  {
    forall q | q in st'.rooms && q !in st.rooms ensures MatchedByPass(st, st'.rooms[q], env) {
      assert MatchedByPass(pruned, st'.rooms[q], env);
    }
  }

  /* ---------------------------------------------------------------- */
  /* A parted pair is not matched straight back                        */
  /* ---------------------------------------------------------------- */

  predicate Between(room: Room, a: DeviceId, b: DeviceId) {
    (room.deviceA == a && room.deviceB == b) || (room.deviceA == b && room.deviceB == a)
  }

  /** With a block in force that reaches past `now`, a pass creates no room for the pair. */
  lemma BlockedPairStaysApart(st: State, mode: PassMode, env: Env, a: DeviceId, b: DeviceId)
    requires Inv(st) && Remembered(st.blocks) && PairKey(a, b) in st.blocks && st.blocks[PairKey(a, b)].until > env.now
    requires forall q :: q in st.rooms ==> !Between(st.rooms[q], a, b)
    ensures forall q :: q in MatchPass(st, mode, env).rooms ==> !Between(MatchPass(st, mode, env).rooms[q], a, b)
  {
    var st' := MatchPass(st, mode, env);
    PassCreatesOnlyMatched(st, mode, env);
    forall q | q in st'.rooms ensures !Between(st'.rooms[q], a, b) {
      if q !in st.rooms {
        MatchedIsUnblocked(st, st'.rooms[q], env, a, b);
      }
    }
  }

  lemma MatchedIsUnblocked(st: State, room: Room, env: Env, a: DeviceId, b: DeviceId)
    requires MatchedByPass(st, room, env) && Remembered(st.blocks)
    requires PairKey(a, b) in st.blocks && st.blocks[PairKey(a, b)].until > env.now
    ensures !Between(room, a, b)
  {
  }

  lemma OnlyOneRoomForAPair(st: State, r: RoomId, q: RoomId)
    requires Inv(st) && r in st.rooms && q in st.rooms && q != r
    ensures !Between(st.rooms[q], st.rooms[r].deviceA, st.rooms[r].deviceB)
  {
    var room, other := st.rooms[r], st.rooms[q];
    assert RoomOk(st.sessions, r, room) && RoomOk(st.sessions, q, other);
    if other.deviceA == room.deviceA {
      NoTwoSessionsShareADevice(st, other.a, room.a);
    } else if other.deviceA == room.deviceB {
      NoTwoSessionsShareADevice(st, other.a, room.b);
    }
  }

  /**
   * Declining, skipping, reporting or failing a call parts the pair: the room
   * is gone, each member is told its own reason, the block reaches past now,
   * and the pass in the same section cannot put the two together again.
   */
  lemma PartedPairStaysApart(st: State, r: RoomId, s: SocketId, durationMs: nat, escalate: bool, mine: EndReason, theirs: EndReason, env: Env)
    requires Inv(st) && Remembered(st.blocks) && r in st.rooms && (s == st.rooms[r].a || s == st.rooms[r].b)
    requires if escalate then st.cfg.skipBlockMs > 0 else durationMs > 0
    ensures var room := st.rooms[r];
      var blocked := BlockPair(st, room.deviceA, room.deviceB, durationMs, escalate, env.now);
      var ended := EndRoomOf(blocked, r, s, Some(mine), Some(theirs), env);
      var st' := MatchPass(ended, DirtyPass, env);
      && r !in st'.rooms
      && (forall q :: q in st'.rooms ==> !Between(st'.rooms[q], room.deviceA, room.deviceB))
      && Told(st.out, ended.out, Sent(s, MatchEnded(r, mine), env.now))
      && Told(st.out, ended.out, Sent(Partner(room, s), MatchEnded(r, theirs), env.now))
  {
    var room := st.rooms[r];
    var blocked := BlockPair(st, room.deviceA, room.deviceB, durationMs, escalate, env.now);
    var ended := EndRoomOf(blocked, r, s, Some(mine), Some(theirs), env);
    assert RoomOk(st.sessions, r, room);
    BlockReaches(st, room.deviceA, room.deviceB, durationMs, escalate, env.now);
    if escalate {
      Escalates(st.cfg.skipBlockMs, blocked.blocks[PairKey(room.deviceA, room.deviceB)].skipCount);
    }
    BlockedKeeps(st, r, durationMs, escalate, env.now);
    EndRoomOfKeeps(blocked, r, s, mine, theirs, env);
    var (reasonA, reasonB) := ReasonsFor(room, s, Some(mine), Some(theirs));
    EndRoomEffect(blocked, r, reasonA, reasonB, env);
    EndRoomFrame(blocked, r, reasonA, reasonB, env);
    forall q | q in ended.rooms ensures !Between(ended.rooms[q], room.deviceA, room.deviceB) {
      OnlyOneRoomForAPair(st, r, q);
    }
    BlockedPairStaysApart(ended, DirtyPass, env, room.deviceA, room.deviceB);
    EndedRoomIsGone(ended, r, DirtyPass, env);
  }

  lemma EndedRoomIsGone(st: State, r: RoomId, mode: PassMode, env: Env)
    requires Inv(st) && r !in st.rooms && r < st.nextRoom
    ensures r !in MatchPass(st, mode, env).rooms
  {
    if NoScan(st, mode, env) {
      SkippedPass(st, mode, env);
    } else {
      PassIsScan(st, mode, env);
      ScannedIsLoaded(st, mode);
      RunScanNumbersRooms(ScanFrom(st, mode), Loads(st), ScanFocus(st, mode), env);
    }
  }

  lemma RunScanNumbersRooms(st: State, waiting: seq<Waiter>, focus: Option<set<SocketId>>, env: Env)
    requires Inv(st) && Loaded(st, waiting)
    ensures forall q :: q in RunScan(st, waiting, focus, env).rooms && q !in st.rooms ==> q >= st.nextRoom
  {
    var bd := MakeBoard(st, waiting, focus, env);
    var scan := Scan(bd, 0, {}, st.wakeAt);
    ScanIsCreatable(bd, st.wakeAt);
    var woken := st.(wakeAt := scan.wake);
    assert SameStory(st, woken) && Inv(woken) && Loaded(woken, waiting);
    CreateRoomsOneEach(woken, waiting, scan.pairs, env);
  }

  /** A block set now reaches at least its duration ahead; a skip's grows with every skip still remembered. */
  lemma BlockReaches(st: State, a: DeviceId, b: DeviceId, durationMs: nat, escalate: bool, now: nat)
    requires Remembered(st.blocks)
    ensures var st' := BlockPair(st, a, b, durationMs, escalate, now);
      var before := GetBlock(st.blocks, a, b, now);
      && Remembered(st'.blocks) && st'.cfg == st.cfg && PairKey(a, b) in st'.blocks
      && var block := st'.blocks[PairKey(a, b)];
      && block.skipCount == (if before.Some? then before.value.skipCount else 0) + (if escalate then 1 else 0)
      && block.until >= now + (if escalate then st.cfg.skipBlockMs * block.skipCount else durationMs)
      && (before.Some? ==> block.until >= before.value.until)
  {
  }

  lemma Escalates(ms: nat, count: nat)
    requires count >= 1
    ensures ms * count >= ms
  {
  }

  /** The state after skips of one pair at the given times. */
  function Skips(st: State, a: DeviceId, b: DeviceId, times: seq<nat>): State {
    if times == [] then st
    else BlockPair(Skips(st, a, b, times[..|times| - 1]), a, b, 0, true, times[|times| - 1])
  }

  /** Skips no further apart than blocks are remembered. */
  predicate CloseTogether(times: seq<nat>) {
    forall i :: 0 < i < |times| ==> times[i - 1] <= times[i] < times[i - 1] + BLOCK_MEMORY_MS
  }

  /** The pair's record after `count` skips, the last one at `now`. */
  predicate Escalated(st: State, a: DeviceId, b: DeviceId, count: nat, now: nat) {
    && PairKey(a, b) in st.blocks
    && var block := st.blocks[PairKey(a, b)];
    && block.skipCount == count && block.until >= now + st.cfg.skipBlockMs * count && block.retainUntil == block.until + BLOCK_MEMORY_MS
  }

  lemma EscalatedIsRead(st: State, a: DeviceId, b: DeviceId, count: nat, now: nat, later: nat)
    requires Escalated(st, a, b, count, now) && later < now + BLOCK_MEMORY_MS
    ensures var block := GetBlock(st.blocks, a, b, later);
      && block.Some? && block.value.skipCount == count && block.value.until >= now + st.cfg.skipBlockMs * count
      && GetBlock(st.blocks, b, a, later) == block
  {
  }

  /** The n-th skip of a pair in a row keeps it apart n times as long, whichever side skips. */
  lemma {:induction false} SkipsEscalate(st: State, a: DeviceId, b: DeviceId, times: seq<nat>)
    requires times != [] && CloseTogether(times) && Remembered(st.blocks) && PairKey(a, b) !in st.blocks
    ensures var after := Skips(st, a, b, times);
      Remembered(after.blocks) && after.cfg == st.cfg && Escalated(after, a, b, |times|, times[|times| - 1])
  {
    var n := |times| - 1;
    var before := Skips(st, a, b, times[..n]);
    if n > 0 {
      SkipsEscalate(st, a, b, times[..n]);
      assert times[..n][n - 1] == times[n - 1];
      EscalatedIsRead(before, a, b, n, times[n - 1], times[n]);
    } else {
      assert times[..n] == [];
    }
    BlockReaches(before, a, b, 0, true, times[n]);
  }

  /* ---------------------------------------------------------------- */
  /* The leaving events                                                */
  /* ---------------------------------------------------------------- */

  lemma CreateRoomGrows(st: State, a: SocketId, b: SocketId, env: Env)
    requires a in st.sessions && b in st.sessions
    ensures st.out <= CreateRoom(st, a, b, env).out
  {
  }

  lemma {:induction false} CreateRoomsGrow(st: State, waiting: seq<Waiter>, pairs: seq<Pairing>, env: Env)
    ensures st.out <= CreateRooms(st, waiting, pairs, env).out
  {
    if pairs != [] {
      var before := CreateRooms(st, waiting, pairs[..|pairs| - 1], env);
      var p := pairs[|pairs| - 1];
      CreateRoomsGrow(st, waiting, pairs[..|pairs| - 1], env);
      if p.i < |waiting| && p.j < |waiting| && waiting[p.i].socket in before.sessions && waiting[p.j].socket in before.sessions {
        CreateRoomGrows(before, waiting[p.i].socket, waiting[p.j].socket, env);
      }
    }
  }

  lemma {:induction false} CreateRoomsKeepDevices(st: State, waiting: seq<Waiter>, pairs: seq<Pairing>, env: Env)
    ensures CreateRooms(st, waiting, pairs, env).devices == st.devices
  {
    if pairs != [] {
      CreateRoomsKeepDevices(st, waiting, pairs[..|pairs| - 1], env);
    }
  }

  lemma RunScanGrows(st: State, waiting: seq<Waiter>, focus: Option<set<SocketId>>, env: Env)
    ensures st.out <= RunScan(st, waiting, focus, env).out && RunScan(st, waiting, focus, env).devices == st.devices
  {
    var scan := Scan(MakeBoard(st, waiting, focus, env), 0, {}, st.wakeAt);
    CreateRoomsGrow(st.(wakeAt := scan.wake), waiting, scan.pairs, env);
    CreateRoomsKeepDevices(st.(wakeAt := scan.wake), waiting, scan.pairs, env);
  }

  lemma MatchPassGrows(st: State, mode: PassMode, env: Env)
    requires Inv(st)
    ensures st.out <= MatchPass(st, mode, env).out && MatchPass(st, mode, env).devices == st.devices
  {
    if NoScan(st, mode, env) {
      SkippedPass(st, mode, env);
    } else {
      PassIsScan(st, mode, env);
      ScannedIsLoaded(st, mode);
      RunScanGrows(ScanFrom(st, mode), Loads(st), ScanFocus(st, mode), env);
    }
  }

  /** The room is gone, both hear why, and the pair shares no room when the section ends. */
  ghost predicate Parted(st: State, st': State, r: RoomId, s: SocketId, mine: EndReason, theirs: EndReason, now: nat)
    requires r in st.rooms
  {
    var room := st.rooms[r];
    && r !in st'.rooms
    && (forall q :: q in st'.rooms ==> !Between(st'.rooms[q], room.deviceA, room.deviceB))
    && Told(st.out, st'.out, Sent(s, MatchEnded(r, mine), now))
    && Told(st.out, st'.out, Sent(Partner(room, s), MatchEnded(r, theirs), now))
  }

  lemma PartsPair(st: State, r: RoomId, s: SocketId, durationMs: nat, escalate: bool, mine: EndReason, theirs: EndReason, env: Env)
    requires Inv(st) && Remembered(st.blocks) && r in st.rooms && (s == st.rooms[r].a || s == st.rooms[r].b)
    requires if escalate then st.cfg.skipBlockMs > 0 else durationMs > 0
    ensures var blocked := BlockPair(st, st.rooms[r].deviceA, st.rooms[r].deviceB, durationMs, escalate, env.now);
      Parted(st, MatchPass(EndRoomOf(blocked, r, s, Some(mine), Some(theirs), env), DirtyPass, env), r, s, mine, theirs, env.now)
  {
    var room := st.rooms[r];
    var blocked := BlockPair(st, room.deviceA, room.deviceB, durationMs, escalate, env.now);
    var ended := EndRoomOf(blocked, r, s, Some(mine), Some(theirs), env);
    PartedPairStaysApart(st, r, s, durationMs, escalate, mine, theirs, env);
    BlockedKeeps(st, r, durationMs, escalate, env.now);
    EndRoomOfKeeps(blocked, r, s, mine, theirs, env);
    MatchPassGrows(ended, DirtyPass, env);
    var st' := MatchPass(ended, DirtyPass, env);
    ToldLater(st.out, ended.out, st'.out, Sent(s, MatchEnded(r, mine), env.now));
    ToldLater(st.out, ended.out, st'.out, Sent(Partner(room, s), MatchEnded(r, theirs), env.now));
  }

  predicate BlocksLast(cfg: Config) {
    cfg.declineBlockMs > 0 && cfg.skipBlockMs > 0 && cfg.reportBlockMs > 0
  }

  /** A decline of a pending room, or nothing. */
  lemma DeclineEffect(st: State, s: SocketId, r: RoomId, env: Env)
    requires Inv(st) && Remembered(st.blocks) && BlocksLast(st.cfg)
    ensures var st' := DeclineStep(st, s, r, env);
      if MemberOf(st, s, r) && !st.rooms[r].active then Parted(st, st', r, s, Declined, PartnerDeclined, env.now) else st' == st
  {
    if MemberOf(st, s, r) && !st.rooms[r].active {
      PendingDeclined(st, s, r, env);
      PartsPair(st, r, s, st.cfg.declineBlockMs, false, Declined, PartnerDeclined, env);
    }
  }

  lemma PendingDeclined(st: State, s: SocketId, r: RoomId, env: Env)
    requires MemberOf(st, s, r) && !st.rooms[r].active
    ensures var blocked := BlockPair(st, st.rooms[r].deviceA, st.rooms[r].deviceB, st.cfg.declineBlockMs, false, env.now);
      && r in blocked.rooms
      && DeclineStep(st, s, r, env) == MatchPass(EndRoomOf(blocked, r, s, Some(Declined), Some(PartnerDeclined), env), DirtyPass, env)
  {
  }

  /** A skip of the room the sender is in, pending or active, or nothing. */
  lemma SkipEffect(st: State, s: SocketId, only: Option<RoomId>, env: Env)
    requires Inv(st) && Remembered(st.blocks) && BlocksLast(st.cfg)
    ensures var st' := SkipStep(st, s, only, env);
      if s in st.sessions && st.sessions[s].roomId.Some? && (only.Some? ==> only == st.sessions[s].roomId)
      then
        && st.sessions[s].roomId.value in st.rooms
        && Parted(st, st', st.sessions[s].roomId.value, s, Skipped, PartnerSkipped, env.now)
      else st' == st
  {
    if s in st.sessions && st.sessions[s].roomId.Some? && (only.Some? ==> only == st.sessions[s].roomId) {
      RoomedIsMember(st, s);
      RoomSkipped(st, s, only, env);
      PartsPair(st, st.sessions[s].roomId.value, s, 0, true, Skipped, PartnerSkipped, env);
    }
  }

  lemma RoomSkipped(st: State, s: SocketId, only: Option<RoomId>, env: Env)
    requires s in st.sessions && st.sessions[s].roomId.Some? && (only.Some? ==> only == st.sessions[s].roomId)
    requires MemberOf(st, s, st.sessions[s].roomId.value)
    ensures var r := st.sessions[s].roomId.value;
      var blocked := BlockPair(st, st.rooms[r].deviceA, st.rooms[r].deviceB, 0, true, env.now);
      && r in blocked.rooms
      && SkipStep(st, s, only, env) == MatchPass(EndRoomOf(blocked, r, s, Some(Skipped), Some(PartnerSkipped), env), DirtyPass, env)
  {
  }

  /** A report of a live room ends it; the reported side only hears that its partner moved on. */
  lemma ReportEffect(st: State, s: SocketId, r: RoomId, target: (DeviceId, DeviceId), env: Env)
    requires Inv(st) && Remembered(st.blocks) && BlocksLast(st.cfg) && MemberOf(st, s, r)
    ensures Parted(st, ReportStep(st, s, r, target, env), r, s, Reported, PartnerSkipped, env.now)
  {
    LiveReport(st, s, r, target, env);
    PartsPair(st, r, s, st.cfg.reportBlockMs, false, Reported, PartnerSkipped, env);
  }

  lemma LiveReport(st: State, s: SocketId, r: RoomId, target: (DeviceId, DeviceId), env: Env)
    requires MemberOf(st, s, r)
    ensures var blocked := BlockPair(st, st.rooms[r].deviceA, st.rooms[r].deviceB, st.cfg.reportBlockMs, false, env.now);
      && r in blocked.rooms
      && ReportStep(st, s, r, target, env) == MatchPass(EndRoomOf(blocked, r, s, Some(Reported), Some(PartnerSkipped), env), DirtyPass, env)
  {
  }

  /** A report of a room already left only blocks the pair. */
  lemma LateReportEffect(st: State, s: SocketId, r: RoomId, target: (DeviceId, DeviceId), env: Env)
    requires Remembered(st.blocks) && !MemberOf(st, s, r)
    ensures var st' := ReportStep(st, s, r, target, env);
      && st'.(blocks := st.blocks) == st
      && PairKey(target.0, target.1) in st'.blocks && st'.blocks[PairKey(target.0, target.1)].until >= env.now + st.cfg.reportBlockMs
  {
    BlockReaches(st, target.0, target.1, st.cfg.reportBlockMs, false, env.now);
  }

  /** A failed call ends the active room for both alike, or nothing. */
  lemma CallFailedEffect(st: State, s: SocketId, r: RoomId, env: Env)
    requires Inv(st) && Remembered(st.blocks) && BlocksLast(st.cfg)
    ensures var st' := CallFailedStep(st, s, r, env);
      if MemberOf(st, s, r) && st.rooms[r].active then Parted(st, st', r, s, ConnectionFailed, ConnectionFailed, env.now) else st' == st
  {
    if MemberOf(st, s, r) && st.rooms[r].active {
      FailedCall(st, s, r, env);
      PartsPair(st, r, s, st.cfg.declineBlockMs, false, ConnectionFailed, ConnectionFailed, env);
    }
  }

  lemma FailedCall(st: State, s: SocketId, r: RoomId, env: Env)
    requires MemberOf(st, s, r) && st.rooms[r].active
    ensures var blocked := BlockPair(st, st.rooms[r].deviceA, st.rooms[r].deviceB, st.cfg.declineBlockMs, false, env.now);
      && r in blocked.rooms
      && CallFailedStep(st, s, r, env) == MatchPass(EndRoomOf(blocked, r, s, Some(ConnectionFailed), Some(ConnectionFailed), env), DirtyPass, env)
  {
  }

  /* ---------------------------------------------------------------- */
  /* Accepting                                                         */
  /* ---------------------------------------------------------------- */

  predicate InTime(st: State, r: RoomId, now: nat)
    requires r in st.rooms
  {
    now <= st.rooms[r].expiresAt + st.cfg.matchAcceptGraceMs
  }

  /** The room a member's accept leaves. */
  function AcceptedRoom(st: State, s: SocketId, r: RoomId, now: nat): Room
    requires r in st.rooms
  {
    var room := st.rooms[r];
    if !InTime(st, r, now) || HasAccepted(room, s) then room
    else if HasAccepted(room, Partner(room, s)) then AcceptedBy(room, s).(active := true, activeSince := Some(now))
    else AcceptedBy(room, s)
  }

  lemma AcceptLeaves(st: State, s: SocketId, r: RoomId, env: Env)
    requires MemberOf(st, s, r) && !st.rooms[r].active && RoomShape(st.rooms[r])
    ensures var st' := AcceptStep(st, s, r, env);
      var started := AcceptedRoom(st, s, r, env.now).active;
      && st'.rooms == st.rooms[r := AcceptedRoom(st, s, r, env.now)] && st'.nextRoom == st.nextRoom
      && |st'.calls| == |st.calls| + (if started then 1 else 0)
      && st'.sessions == if started then Activated(Activated(st.sessions, st.rooms[r].a, r), st.rooms[r].b, r) else st.sessions
  {
    var room := st.rooms[r];
    if !InTime(st, r, env.now) || HasAccepted(room, s) {
      assert st.rooms == st.rooms[r := room];
    }
  }

  /**
   * An accept starts the call exactly when it is the second one and in time;
   * then, and only then, one call task is left and both sessions turn active.
   * Otherwise the room stays pending, and the accept counts exactly when it is
   * in time.
   */
  lemma AcceptDecides(st: State, s: SocketId, r: RoomId, env: Env)
    requires Inv(st) && MemberOf(st, s, r) && !st.rooms[r].active
    ensures var room, st' := st.rooms[r], Step(st, Accept(s, r), env);
      && r in st'.rooms && s in st'.sessions && Partner(room, s) in st'.sessions
      && (st'.rooms[r].active <==> InTime(st, r, env.now) && HasAccepted(room, Partner(room, s)))
      && (HasAccepted(st'.rooms[r], s) <==> InTime(st, r, env.now) || HasAccepted(room, s))
      && (HasAccepted(st'.rooms[r], Partner(room, s)) <==> HasAccepted(room, Partner(room, s)))
      && |st'.calls| == |st.calls| + (if st'.rooms[r].active then 1 else 0)
      && (if st'.rooms[r].active then st'.sessions[s].state == Active && st'.sessions[Partner(room, s)].state == Active
          else st'.sessions == st.sessions)
  {
    assert RoomOk(st.sessions, r, st.rooms[r]);
    AcceptLeaves(st, s, r, env);
  }

  /* ---------------------------------------------------------------- */
  /* Expiry                                                            */
  /* ---------------------------------------------------------------- */

  predicate Due(room: Room, cfg: Config, now: nat) {
    !room.active && room.expiresAt + cfg.matchAcceptGraceMs <= now
  }

  lemma ExpireRoomEffect(st: State, r: RoomId, env: Env)
    requires Inv(st)
    ensures var st' := ExpireRoom(st, r, env);
      && st'.cfg == st.cfg && st.out <= st'.out
      && st'.rooms == (if r in st.rooms && !st.rooms[r].active then st.rooms - {r} else st.rooms)
      && (r in st.rooms && !st.rooms[r].active ==>
            var room := st.rooms[r];
            && Told(st.out, st'.out, Sent(room.a, MatchEnded(r, if room.acceptedA then TimedOut else AcceptTimeout), env.now))
            && Told(st.out, st'.out, Sent(room.b, MatchEnded(r, if room.acceptedB then TimedOut else AcceptTimeout), env.now))
            && room.a in st'.sessions && room.b in st'.sessions
            && (!room.acceptedA ==> st'.sessions[room.a].state == Idle) && (!room.acceptedB ==> st'.sessions[room.b].state == Idle))
  {
    if r in st.rooms && !st.rooms[r].active {
      var room := st.rooms[r];
      var blocked := BlockPair(st, room.deviceA, room.deviceB, st.cfg.declineBlockMs, false, env.now);
      BlockedKeeps(st, r, st.cfg.declineBlockMs, false, env.now);
      EndRoomEffect(blocked, r, ExpiredReason(room.acceptedA), ExpiredReason(room.acceptedB), env);
      EndRoomFrame(blocked, r, ExpiredReason(room.acceptedA), ExpiredReason(room.acceptedB), env);
    }
  }

  /** Only the listed rooms that were still pending are gone. */
  ghost predicate Expired(before: State, after: State, expired: seq<RoomId>) {
    && after.cfg == before.cfg && before.out <= after.out
    && (forall r :: r in after.rooms <==> r in before.rooms && (r !in expired || before.rooms[r].active))
    && (forall r :: r in after.rooms ==> after.rooms[r] == before.rooms[r])
  }

  lemma {:induction false} ExpireRoomsEffect(st: State, expired: seq<RoomId>, env: Env)
    requires Inv(st)
    ensures Expired(st, ExpireRooms(st, expired, env), expired)
  {
    if expired != [] {
      var n := |expired| - 1;
      ExpireRoomsEffect(st, expired[..n], env);
      ExpireRoomsKeeps(st, expired[..n], env);
      var before := ExpireRooms(st, expired[..n], env);
      ExpireRoomEffect(before, expired[n], env);
      OneMoreExpired(st, before, ExpireRoom(before, expired[n], env), expired);
    }
  }

  lemma OneMoreExpired(st: State, before: State, after: State, expired: seq<RoomId>)
    requires expired != [] && Expired(st, before, expired[..|expired| - 1])
    requires after.cfg == before.cfg && before.out <= after.out
    requires var r := expired[|expired| - 1];
      after.rooms == if r in before.rooms && !before.rooms[r].active then before.rooms - {r} else before.rooms
    ensures Expired(st, after, expired)
  {
    var n := |expired| - 1;
    assert forall r :: r in expired <==> r in expired[..n] || r == expired[n];
  }

  /**
   * After a sweep that lists every due room, no pending room is left past its
   * deadline and grace, although the sweep's own pass creates new ones.
   */
  lemma SweepLeavesNoDueRoom(st: State, input: SweepInput, env: Env)
    requires Inv(st) && Remembered(st.blocks) && input.passAt >= env.now && st.cfg.matchAcceptTimeoutMs > 0
    requires var reaped := Reaped(st, input.ghosts, env);
      forall r :: r in reaped.rooms && Due(reaped.rooms[r], reaped.cfg, env.now) ==> r in input.expired
    ensures var st' := SweepStep(st, input, env); forall r :: r in st'.rooms ==> !Due(st'.rooms[r], st'.cfg, env.now)
  {
    var reaped := Reaped(st, input.ghosts, env);
    var marked := st.(lastReapAt := env.now);
    assert SameStory(st, marked) && Inv(marked);
    RemoveGhostsKeeps(marked, input.ghosts, env);
    KeptAtOnce(marked, env.low, env.now);
    RemoveGhostsKept(marked, marked, input.ghosts, env);
    assert Inv(reaped) && reaped.cfg == st.cfg;
    ExpireRoomsEffect(reaped, input.expired, env);
    var roused := Roused(st, input.ghosts, input.expired, env);
    RelaxTickSameStory(roused, input.order, env.now);
    RelaxTickConfig(roused, input.order, env.now);
    SweepPreparedKeeps(st, input, env);
    NoDueAfterPass(SweepPrepared(st, input, env), if RecheckDue(st, env) then RecheckPass else DirtyPass, env.(now := input.passAt), env.now);
  }

  lemma {:induction false} RelaxTickConfig(st: State, order: seq<SocketId>, now: nat)
    ensures RelaxTick(st, order, now).cfg == st.cfg
  {
    if order != [] {
      RelaxTickConfig(st, order[..|order| - 1], now);
    }
  }

  lemma NoDueAfterPass(st: State, mode: PassMode, env: Env, now: nat)
    requires Inv(st) && now <= env.now && st.cfg.matchAcceptTimeoutMs > 0
    requires forall r :: r in st.rooms ==> !Due(st.rooms[r], st.cfg, now)
    ensures var st' := MatchPass(st, mode, env); forall r :: r in st'.rooms ==> !Due(st'.rooms[r], st'.cfg, now)
  {
    PassCreatesOnlyMatched(st, mode, env);
    PassKeepsConfig(st, mode, env);
    var st' := MatchPass(st, mode, env);
    forall r | r in st'.rooms ensures !Due(st'.rooms[r], st'.cfg, now) {
      if r !in st.rooms {
        assert MatchedByPass(st, st'.rooms[r], env);
      }
    }
  }

  lemma PassKeepsConfig(st: State, mode: PassMode, env: Env)
    requires Inv(st)
    ensures MatchPass(st, mode, env).cfg == st.cfg
  {
    if NoScan(st, mode, env) {
      SkippedPass(st, mode, env);
    } else {
      PassIsScan(st, mode, env);
      ScannedIsLoaded(st, mode);
      RunScanWaiters(ScanFrom(st, mode), Loads(st), ScanFocus(st, mode), env);
    }
  }

  /* ---------------------------------------------------------------- */
  /* Who has a session                                                 */
  /* ---------------------------------------------------------------- */

  /** The socket a hello retires, if any: the one its device was bound to before. */
  function Retired(st: State, s: SocketId, device: DeviceId): set<SocketId> {
    if s !in st.sessions && device in st.devices && st.devices[device] != s then {st.devices[device]} else {}
  }

  lemma HelloStoredTakesOver(st: State, s: SocketId, p: HelloPayload, env: Env)
    requires Inv(st) && (s in st.sessions ==> st.sessions[s].who.deviceId == p.device)
    ensures var stored := HelloStored(st, s, p, env);
      && stored.sessions.Keys == st.sessions.Keys - Retired(st, s, p.device) + {s}
      && stored.sessions[s].who == HelloWho(p, env) && stored.sessions[s].mode == p.mode
      && p.device in stored.devices && stored.devices[p.device] == s
  {
    if s in st.sessions {
      assert BoundTo(st.devices, s, st.sessions[s]);
    } else if p.device in st.devices && st.devices[p.device] != s {
      ReplaceKeeps(st, st.devices[p.device], env);
    }
  }

  lemma EnqueueAndPassTakesOver(acked: State, s: SocketId, since: Option<nat>, env: Env)
    requires Inv(acked) && s in acked.sessions && (acked.sessions[s].state == Idle || acked.sessions[s].state == Waiting)
    ensures var st' := MatchPass(Enqueue(acked, s, since, env), DirtyPass, env);
      && st'.sessions.Keys == acked.sessions.Keys && st'.devices == acked.devices
      && (Waits(st', s) ==> st'.sessions[s].waitingSince == Some(since.GetOr(env.now)))
  {
    assert SessionOk(acked.rooms, s, acked.sessions[s]);
    RoomlessIsUnroomed(acked.sessions, acked.rooms, s);
    EnqueueKeeps(acked, s, since, env, {});
    EnqueueFrame(acked, s, since, env);
    PassTakesNobody(Enqueue(acked, s, since, env), env);
  }

  lemma PassTakesNobody(queued: State, env: Env)
    requires Inv(queued)
    ensures var st' := MatchPass(queued, DirtyPass, env);
      && st'.sessions.Keys == queued.sessions.Keys && st'.devices == queued.devices
      && (forall x :: Waits(st', x) ==> Waits(queued, x) && st'.sessions[x] == queued.sessions[x])
  {
    MatchPassKeeps(queued, DirtyPass, env);
    MatchPassGrows(queued, DirtyPass, env);
    PassKeepsWaiters(queued, DirtyPass, env);
  }

  lemma PassKeepsWaiters(st: State, mode: PassMode, env: Env)
    requires Inv(st)
    ensures var st' := MatchPass(st, mode, env); forall s :: Waits(st', s) ==> Waits(st, s) && st'.sessions[s] == st.sessions[s]
  {
    if NoScan(st, mode, env) {
      SkippedPass(st, mode, env);
    } else {
      PassIsScan(st, mode, env);
      ScannedIsLoaded(st, mode);
      RunScanWaiters(ScanFrom(st, mode), Loads(st), ScanFocus(st, mode), env);
      forall s | Waits(MatchPass(st, mode, env), s) ensures Waits(st, s) && MatchPass(st, mode, env).sessions[s] == st.sessions[s] {
        assert Waits(ScanFrom(st, mode), s);
      }
    }
  }

  /** Nobody but the device's previous socket lost a session, and `s` is the device's only one. */
  ghost predicate TookOver(st: State, st': State, s: SocketId, device: DeviceId) {
    && st'.sessions.Keys == st.sessions.Keys - Retired(st, s, device) + {s}
    && device in st'.devices && st'.devices[device] == s
    && (Waits(st, s) && Waits(st', s) ==> st'.sessions[s].waitingSince == st.sessions[s].waitingSince)
  }

  /**
   * An admitted hello makes its socket the device's only one: the old socket is
   * gone, nobody else lost or won a session, and a session that was waiting
   * keeps its place in the queue if it still waits.
   */
  lemma HelloTakesOver(st: State, s: SocketId, p: HelloPayload, answers: HelloAnswers, env: Env)
    requires Inv(st) && HelloRefusal(st, s, p, answers, env) == None
    ensures var st' := HelloStep(st, s, p, answers, env);
      TookOver(st, st', s, p.device) && s in st'.sessions && st'.sessions[s].who.deviceId == p.device
  {
    HelloTookOver(st, s, p, answers, env);
    HelloKeeps(st, s, p, answers, env);
    BoundSession(HelloStep(st, s, p, answers, env), s, p.device);
  }

  lemma HelloTookOver(st: State, s: SocketId, p: HelloPayload, answers: HelloAnswers, env: Env)
    requires Inv(st) && HelloRefusal(st, s, p, answers, env) == None
    ensures TookOver(st, HelloStep(st, s, p, answers, env), s, p.device)
  {
    AckedTakesOver(st, s, p, env);
    HelloIsJoined(st, s, p, answers, env);
    JoinedTakesOver(st, HelloAcked(HelloStored(st, s, p, env), s, HelloWho(p, env).preferences.genderFilter, env.now), s, p.device, env);
  }

  lemma JoinedTakesOver(st: State, acked: State, s: SocketId, device: DeviceId, env: Env)
    requires Inv(acked) && s in acked.sessions && TookOver(st, acked, s, device) && (Waits(st, s) ==> Waits(acked, s))
    ensures TookOver(st, Joined(acked, s, env), s, device)
  {
    AdmittedTakesOver(acked, s, env);
  }

  lemma AckedTakesOver(st: State, s: SocketId, p: HelloPayload, env: Env)
    requires Inv(st) && (s in st.sessions ==> st.sessions[s].who.deviceId == p.device)
    ensures var acked := HelloAcked(HelloStored(st, s, p, env), s, HelloWho(p, env).preferences.genderFilter, env.now);
      && Inv(acked) && TookOver(st, acked, s, p.device) && (Waits(st, s) ==> Waits(acked, s))
  {
    HelloStoredKeeps(st, s, p, env);
    HelloStoredTakesOver(st, s, p, env);
    HelloStoredPlace(st, s, p, env);
    assert SameStory(HelloStored(st, s, p, env), HelloAcked(HelloStored(st, s, p, env), s, HelloWho(p, env).preferences.genderFilter, env.now));
  }

  lemma HelloStoredPlace(st: State, s: SocketId, p: HelloPayload, env: Env)
    ensures s in HelloStored(st, s, p, env).sessions
    ensures Waits(st, s) ==> Waits(HelloStored(st, s, p, env), s)
                             && HelloStored(st, s, p, env).sessions[s].waitingSince == st.sessions[s].waitingSince
  {
  }

  lemma BoundSession(st: State, s: SocketId, device: DeviceId)
    requires Inv(st) && device in st.devices && st.devices[device] == s
    ensures s in st.sessions && st.sessions[s].who.deviceId == device
  {
  }

  /** The end of an admitted hello: an idle or waiting session is queued. */
  function Joined(acked: State, s: SocketId, env: Env): State
    requires s in acked.sessions
  {
    var session := acked.sessions[s];
    if session.state == Idle || session.state == Waiting
    then MatchPass(Enqueue(acked, s, if session.state == Waiting then session.waitingSince else None, env), DirtyPass, env)
    else acked
  }

  lemma HelloIsJoined(st: State, s: SocketId, p: HelloPayload, answers: HelloAnswers, env: Env)
    requires HelloRefusal(st, s, p, answers, env) == None
    ensures HelloStep(st, s, p, answers, env)
            == Joined(HelloAcked(HelloStored(st, s, p, env), s, HelloWho(p, env).preferences.genderFilter, env.now), s, env)
  {
  }

  /** Joining the queue after a hello changes nobody's session set or binding, nor the place of a waiting session. */
  lemma AdmittedTakesOver(acked: State, s: SocketId, env: Env)
    requires Inv(acked) && s in acked.sessions
    ensures var session, st' := acked.sessions[s], Joined(acked, s, env);
      && st'.sessions.Keys == acked.sessions.Keys && st'.devices == acked.devices
      && (session.state == Waiting && Waits(st', s) ==> st'.sessions[s].waitingSince == session.waitingSince)
  {
    var session := acked.sessions[s];
    if session.state == Idle || session.state == Waiting {
      WaitingHasSince(acked, s);
      EnqueueAndPassTakesOver(acked, s, if session.state == Waiting then session.waitingSince else None, env);
    }
  }

  lemma WaitingHasSince(st: State, s: SocketId)
    requires Inv(st) && s in st.sessions
    ensures st.sessions[s].state == Waiting <==> st.sessions[s].waitingSince.Some?
  {
    assert SessionOk(st.rooms, s, st.sessions[s]);
  }

  /** Only hellos, disconnects, sweeps and a shutdown add or remove sessions. */
  lemma SessionsAreConserved(st: State, ev: Event, env: Env)
    requires Inv(st) && !ev.Hello? && !ev.Disconnect? && !ev.Sweep? && !ev.Shutdown?
    ensures Step(st, ev, env).sessions.Keys == st.sessions.Keys
  {
    match ev
    case UpdatePreferences(s, preferences) => PreferencesConserve(st, s, preferences, env);
    case Accept(s, r) => AcceptConserves(st, s, r, env);
    case Decline(_, _) => LeavingConserves(st, ev, env);
    case Skip(_, _) => LeavingConserves(st, ev, env);
    case Report(_, _, _) => LeavingConserves(st, ev, env);
    case CallFailed(_, _) => LeavingConserves(st, ev, env);
    case Restrict(device, blocking) => RestrictConserves(st, device, blocking, env);
    case RunWholePass => MatchPassKeeps(st, WholePass, env);
    case Connected(s, r) => assert ConnectedStep(st, s, r, env).sessions == st.sessions;
    case StartCall(task, ready) => StartCallSame(st, task, ready, env);
    case Aside(s, e) => assert Emit(st, s, e, env.now).sessions == st.sessions;
    case Act(_, _) =>
  }

  lemma AcceptConserves(st: State, s: SocketId, r: RoomId, env: Env)
    requires Inv(st)
    ensures AcceptStep(st, s, r, env).sessions.Keys == st.sessions.Keys
  {
    if MemberOf(st, s, r) && !st.rooms[r].active {
      assert RoomOk(st.sessions, r, st.rooms[r]);
      AcceptLeaves(st, s, r, env);
    }
  }

  lemma PreferencesConserve(st: State, s: SocketId, preferences: Preferences, env: Env)
    requires Inv(st)
    ensures UpdatePreferencesStep(st, s, preferences, env).sessions.Keys == st.sessions.Keys
  {
    if s in st.sessions {
      var session := st.sessions[s];
      var who := session.who.(preferences := preferences);
      RewriteKeeps(st, s, who, session.mode);
      var stored := st.(sessions := st.sessions[s := session.(who := who)]);
      var marked := Emit(stored, s, PreferencesSaved(preferences.genderFilter), env.now).(dirty := st.dirty + {s});
      assert SameStory(stored, marked) && Inv(marked);
      MatchPassKeeps(marked, DirtyPass, env);
    }
  }

  lemma BlockEndConserves(st: State, r: RoomId, s: SocketId, durationMs: nat, escalate: bool, mine: EndReason, theirs: EndReason, env: Env)
    requires Inv(st) && r in st.rooms
    ensures var blocked := BlockPair(st, st.rooms[r].deviceA, st.rooms[r].deviceB, durationMs, escalate, env.now);
      && r in blocked.rooms
      && MatchPass(EndRoomOf(blocked, r, s, Some(mine), Some(theirs), env), DirtyPass, env).sessions.Keys == st.sessions.Keys
  {
    BlockedKeeps(st, r, durationMs, escalate, env.now);
    var blocked := BlockPair(st, st.rooms[r].deviceA, st.rooms[r].deviceB, durationMs, escalate, env.now);
    EndRoomOfKeeps(blocked, r, s, mine, theirs, env);
    MatchPassKeeps(EndRoomOf(blocked, r, s, Some(mine), Some(theirs), env), DirtyPass, env);
  }

  lemma LeavingConserves(st: State, ev: Event, env: Env)
    requires Inv(st) && (ev.Decline? || ev.Skip? || ev.Report? || ev.CallFailed?)
    ensures Step(st, ev, env).sessions.Keys == st.sessions.Keys
  {
    match ev
    case Decline(s, r) => DeclineConserves(st, s, r, env);
    case Skip(s, only) => SkipConserves(st, s, only, env);
    case Report(s, r, target) => ReportConserves(st, s, r, target, env);
    case CallFailed(s, r) => CallFailedConserves(st, s, r, env);
  }

  lemma DeclineConserves(st: State, s: SocketId, r: RoomId, env: Env)
    requires Inv(st)
    ensures DeclineStep(st, s, r, env).sessions.Keys == st.sessions.Keys
  {
    if MemberOf(st, s, r) && !st.rooms[r].active {
      PendingDeclined(st, s, r, env);
      BlockEndConserves(st, r, s, st.cfg.declineBlockMs, false, Declined, PartnerDeclined, env);
    }
  }

  lemma SkipConserves(st: State, s: SocketId, only: Option<RoomId>, env: Env)
    requires Inv(st)
    ensures SkipStep(st, s, only, env).sessions.Keys == st.sessions.Keys
  {
    if s in st.sessions && st.sessions[s].roomId.Some? && (only.Some? ==> only == st.sessions[s].roomId) {
      RoomedIsMember(st, s);
      RoomSkipped(st, s, only, env);
      BlockEndConserves(st, st.sessions[s].roomId.value, s, 0, true, Skipped, PartnerSkipped, env);
    }
  }

  lemma ReportConserves(st: State, s: SocketId, r: RoomId, target: (DeviceId, DeviceId), env: Env)
    requires Inv(st)
    ensures ReportStep(st, s, r, target, env).sessions.Keys == st.sessions.Keys
  {
    if MemberOf(st, s, r) {
      LiveReport(st, s, r, target, env);
      BlockEndConserves(st, r, s, st.cfg.reportBlockMs, false, Reported, PartnerSkipped, env);
    }
  }

  lemma CallFailedConserves(st: State, s: SocketId, r: RoomId, env: Env)
    requires Inv(st)
    ensures CallFailedStep(st, s, r, env).sessions.Keys == st.sessions.Keys
  {
    if MemberOf(st, s, r) && st.rooms[r].active {
      FailedCall(st, s, r, env);
      BlockEndConserves(st, r, s, st.cfg.declineBlockMs, false, ConnectionFailed, ConnectionFailed, env);
    }
  }

  /** The state a restriction is announced in: nobody lost, and a blocked session idle and roomless. */
  lemma SidelinedTold(st: State, s: SocketId, blocking: bool, env: Env)
    requires Inv(st) && s in st.sessions
    ensures var told := Emit(if blocking then Sideline(st, s, env) else st, s, SessionRestricted, env.now);
      && Inv(told) && told.sessions.Keys == st.sessions.Keys
      && (blocking ==> told.sessions[s].state == Idle)
  {
    var side := if blocking then Sideline(st, s, env) else st;
    if blocking {
      EndRestrictedKeeps(st, s, env);
      SidelinedKeeps(EndRestrictedRoom(st, s, env), s);
    }
    assert SameStory(side, Emit(side, s, SessionRestricted, env.now));
  }

  lemma RestrictConserves(st: State, device: DeviceId, blocking: bool, env: Env)
    requires Inv(st)
    ensures RestrictStep(st, device, blocking, env).sessions.Keys == st.sessions.Keys
  {
    if device in st.devices && st.devices[device] in st.sessions {
      var s := st.devices[device];
      SidelinedTold(st, s, blocking, env);
      MatchPassKeeps(Emit(if blocking then Sideline(st, s, env) else st, s, SessionRestricted, env.now), DirtyPass, env);
    }
  }

  /** A restricted device ends up out of its room, out of the queue and idle, with no room in its name. */
  lemma RestrictSidelines(st: State, device: DeviceId, env: Env)
    requires Inv(st) && device in st.devices
    ensures var s, st' := st.devices[device], Step(st, Restrict(device, true), env);
      && s in st'.sessions && st'.sessions[s].state == Idle
      && (forall r :: r in st'.rooms ==> st'.rooms[r].a != s && st'.rooms[r].b != s)
  {
    var s := st.devices[device];
    SidelinedTold(st, s, true, env);
    IdleStaysIdle(Emit(Sideline(st, s, env), s, SessionRestricted, env.now), DirtyPass, env, s);
  }

  lemma IdleIsUnroomed(st: State, s: SocketId)
    requires Inv(st) && s in st.sessions && st.sessions[s].state == Idle
    ensures Unroomed(st.rooms, s)
  {
    assert SessionOk(st.rooms, s, st.sessions[s]);
    RoomlessIsUnroomed(st.sessions, st.rooms, s);
  }

  lemma UnroomedIsIdleOrWaits(st: State, s: SocketId)
    requires Inv(st) && s in st.sessions && Unroomed(st.rooms, s)
    ensures st.sessions[s].state == Idle || Waits(st, s)
  {
    assert SessionOk(st.rooms, s, st.sessions[s]);
  }

  /** A pass never touches an idle session. */
  lemma IdleStaysIdle(st: State, mode: PassMode, env: Env, s: SocketId)
    requires Inv(st) && s in st.sessions && st.sessions[s].state == Idle
    ensures var st' := MatchPass(st, mode, env);
      && s in st'.sessions && st'.sessions[s].state == Idle
      && (forall r :: r in st'.rooms ==> st'.rooms[r].a != s && st'.rooms[r].b != s)
  {
    MatchPassKeeps(st, mode, env);
    PassCreatesOnlyMatched(st, mode, env);
    PassKeepsWaiters(st, mode, env);
    IdleIsUnroomed(st, s);
    var st' := MatchPass(st, mode, env);
    forall r | r in st'.rooms ensures st'.rooms[r].a != s && st'.rooms[r].b != s {
      if r !in st.rooms {
        assert MatchedByPass(st, st'.rooms[r], env);
      }
    }
    UnroomedIsIdleOrWaits(st', s);
  }
}
