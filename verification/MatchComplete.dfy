/**
 * The incremental matcher loses nobody: after every sweep, no two sessions
 * that are still waiting could be matched at the sweep's clock. Passes only
 * try pairs with a dirty member, so this rests on the bookkeeping around them:
 * the recorded ladder steps, the dirty marks and the wake times.
 */
module MatchComplete {
  import opened Wrappers
  import opened Compatibility
  import opened Protocol
  import opened WaitingQueue
  import opened Greedy
  import opened MatchModel
  import opened PassTheory
  import opened MatchInvariant
  import opened MatchSteps

  type Blocks = map<(DeviceId, DeviceId), Block>
  type Ladders = map<SocketId, Relaxing>

  /* ---------------------------------------------------------------- */
  /* What the bookkeeping promises                                     */
  /* ---------------------------------------------------------------- */

  function LadderOf(relaxing: Ladders, s: SocketId): Option<Relaxing> {
    if s in relaxing then Some(relaxing[s]) else None
  }

  /** A session that left the ladder is at its top. */
  function RecordedStep(relaxing: Ladders, s: SocketId): int {
    if s in relaxing then relaxing[s].step else MAX_STEP
  }

  /** The recorded step of a waiting session is one it has reached by `t`. */
  predicate LadderFits(ladder: Ladder, session: Session, entry: Option<Relaxing>, low: set<DeviceId>, t: nat) {
    && session.waitingSince.Some?
    && var since := session.waitingSince.value;
    && since <= t
    && match entry
       case Some(e) =>
         e.since == since && e.low == (session.who.deviceId in low) && HELD <= e.step <= RelaxStep(t - since, ladder, e.low)
       case None => RelaxStep(t - since, ladder, session.who.deviceId in low) == MAX_STEP
  }

  ghost predicate LaddersFit(st: State, low: set<DeviceId>, t: nat) {
    forall s :: s in st.sessions && st.sessions[s].state == Waiting ==>
      LadderFits(st.cfg.ladder, st.sessions[s], LadderOf(st.relaxing, s), low, t)
  }

  predicate WokenBy(wakeAt: map<SocketId, nat>, s: SocketId, until: nat) {
    s in wakeAt && wakeAt[s] <= until
  }

  /** A blocked pair whose lapse one of the two is woken for. */
  predicate Parked(blocks: Blocks, wakeAt: map<SocketId, nat>, s: SocketId, t: SocketId, ds: DeviceId, dt: DeviceId) {
    && PairKey(ds, dt) in blocks
    && var until := blocks[PairKey(ds, dt)].until;
      WokenBy(wakeAt, s, until) || WokenBy(wakeAt, t, until)
  }

  /** Two waiters that need not be tried: they do not fit at their recorded steps, one is banned, or they are parked. */
  predicate Apart(st: State, banned: set<DeviceId>, s: SocketId, t: SocketId)
    requires s in st.sessions && t in st.sessions
  {
    var who, other := st.sessions[s].who, st.sessions[t].who;
    || !Fits(who, other, RecordedStep(st.relaxing, s), RecordedStep(st.relaxing, t))
    || who.deviceId in banned || other.deviceId in banned
    || Parked(st.blocks, st.wakeAt, s, t, who.deviceId, other.deviceId)
  }

  predicate Waits(st: State, s: SocketId) {
    s in st.sessions && st.sessions[s].state == Waiting
  }

  predicate Quiet(st: State, s: SocketId) {
    Waits(st, s) && s !in st.dirty
  }

  ghost predicate Calm(st: State, banned: set<DeviceId>) {
    forall s, t :: Quiet(st, s) && Quiet(st, t) && s != t ==> Apart(st, banned, s, t)
  }

  /** A block is remembered for a fixed time after it lapses. */
  ghost predicate Remembered(blocks: Blocks) {
    forall k :: k in blocks ==> blocks[k].retainUntil == blocks[k].until + BLOCK_MEMORY_MS
  }

  /** At time `t`: every pair without a dirty member is settled. */
  ghost predicate Diligent(st: State, low: set<DeviceId>, banned: set<DeviceId>, t: nat) {
    LaddersFit(st, low, t) && Calm(st, banned) && Remembered(st.blocks)
  }

  /** A legal environment: the clock does not run back, the low-priority set is fixed, bans only grow. */
  predicate LegalEnv(env: Env, low: set<DeviceId>, banned: set<DeviceId>, t: nat) {
    env.now >= t && env.low == low && banned <= env.banned
  }

  lemma ApartIsSymmetric(st: State, banned: set<DeviceId>, s: SocketId, t: SocketId)
    requires s in st.sessions && t in st.sessions && Apart(st, banned, s, t)
    ensures Apart(st, banned, t, s)
  {
    FitsIsSymmetric(st.sessions[s].who, st.sessions[t].who, RecordedStep(st.relaxing, s), RecordedStep(st.relaxing, t));
  }

  /* ---------------------------------------------------------------- */
  /* Steps between passes                                              */
  /* ---------------------------------------------------------------- */

  ghost predicate BlocksGrow(blocks: Blocks, blocks': Blocks) {
    forall k :: k in blocks ==> k in blocks' && blocks[k].until <= blocks'[k].until
  }

  predicate WakesNoLater(wake': map<SocketId, nat>, wake: map<SocketId, nat>, s: SocketId) {
    s in wake ==> s in wake' && wake'[s] <= wake[s]
  }

  /** `s` waits in `st` as it did in `o`; its settled pairs stay settled unless it is dirty. */
  predicate Unmoved(o: State, st: State, s: SocketId)
    requires s in st.sessions
  {
    && s in o.sessions && o.sessions[s].state == Waiting
    && o.sessions[s].waitingSince == st.sessions[s].waitingSince
    && o.sessions[s].who.deviceId == st.sessions[s].who.deviceId
    && LadderOf(o.relaxing, s) == LadderOf(st.relaxing, s)
    && (s !in st.dirty ==>
          s !in o.dirty && o.sessions[s].who == st.sessions[s].who && WakesNoLater(st.wakeAt, o.wakeAt, s))
  }

  /** `s` is marked for the next pass, at a step it has reached. */
  predicate Marked(st: State, s: SocketId, low: set<DeviceId>, t: nat)
    requires s in st.sessions
  {
    s in st.dirty && LadderFits(st.cfg.ladder, st.sessions[s], LadderOf(st.relaxing, s), low, t)
  }

  /** From `o` to `st`, up to time `t`: every session waiting in `st`, but those in `but`, is unmoved or marked. */
  ghost predicate Kept(o: State, st: State, but: set<SocketId>, low: set<DeviceId>, t: nat) {
    && st.cfg == o.cfg && BlocksGrow(o.blocks, st.blocks) && Remembered(st.blocks)
    && (forall s :: s in st.sessions && st.sessions[s].state == Waiting && s !in but ==> Unmoved(o, st, s) || Marked(st, s, low, t))
  }

  lemma KeptAtOnce(o: State, low: set<DeviceId>, t: nat)
    requires Remembered(o.blocks)
    ensures Kept(o, o, {}, low, t)
  {
  }

  /** Steps that keep every waiting pair settled or marked keep the promise. */
  lemma KeptIsDiligent(o: State, st: State, low: set<DeviceId>, banned: set<DeviceId>, t0: nat, t: nat)
    requires Diligent(o, low, banned, t0) && t0 <= t && Kept(o, st, {}, low, t)
    ensures Diligent(st, low, banned, t)
  {
    forall s | s in st.sessions && st.sessions[s].state == Waiting
      ensures LadderFits(st.cfg.ladder, st.sessions[s], LadderOf(st.relaxing, s), low, t)
    {
      if !Marked(st, s, low, t) {
        assert Unmoved(o, st, s);
        assert LadderFits(o.cfg.ladder, o.sessions[s], LadderOf(o.relaxing, s), low, t0);
      }
    }
    forall s, x | Quiet(st, s) && Quiet(st, x) && s != x ensures Apart(st, banned, s, x) {
      QuietStaysApart(o, st, low, banned, t, s, x);
    }
  }

  lemma QuietStaysApart(o: State, st: State, low: set<DeviceId>, banned: set<DeviceId>, t: nat, s: SocketId, x: SocketId)
    requires Calm(o, banned) && Kept(o, st, {}, low, t)
    requires Quiet(st, s) && Quiet(st, x) && s != x
    ensures Apart(st, banned, s, x)
  {
    assert Unmoved(o, st, s) && Unmoved(o, st, x);
    assert Quiet(o, s) && Quiet(o, x) && Apart(o, banned, s, x);
  }

  /** The fields the promise speaks of are the same. */
  predicate SameMarks(st: State, st': State) {
    && st'.sessions == st.sessions && st'.relaxing == st.relaxing && st'.dirty == st.dirty
    && st'.wakeAt == st.wakeAt && st'.blocks == st.blocks && st'.cfg == st.cfg
  }

  lemma BookkeepingKept(o: State, st: State, st': State, but: set<SocketId>, low: set<DeviceId>, t: nat)
    requires Kept(o, st, but, low, t) && SameMarks(st, st')
    ensures Kept(o, st', but, low, t)
  {
    forall s | s in st'.sessions && st'.sessions[s].state == Waiting && s !in but
      ensures Unmoved(o, st', s) || Marked(st', s, low, t)
    {
      assert Unmoved(o, st, s) || Marked(st, s, low, t);
    }
  }

  /** A block never shortens, even one whose record had been forgotten. */
  lemma BlockNeverShortens(st: State, a: DeviceId, b: DeviceId, durationMs: nat, escalate: bool, now: nat)
    requires Remembered(st.blocks)
    ensures var st' := BlockPair(st, a, b, durationMs, escalate, now);
      && BlocksGrow(st.blocks, st'.blocks) && Remembered(st'.blocks)
      && PairKey(a, b) in st'.blocks && st'.blocks[PairKey(a, b)].until >= now
  {
  }

  lemma BlockPairKept(o: State, st: State, a: DeviceId, b: DeviceId, durationMs: nat, escalate: bool, now: nat,
                      but: set<SocketId>, low: set<DeviceId>, t: nat)
    requires Kept(o, st, but, low, t)
    ensures Kept(o, BlockPair(st, a, b, durationMs, escalate, now), but, low, t)
  {
    BlockNeverShortens(st, a, b, durationMs, escalate, now);
    var st' := BlockPair(st, a, b, durationMs, escalate, now);
    forall s | s in st'.sessions && st'.sessions[s].state == Waiting && s !in but
      ensures Unmoved(o, st', s) || Marked(st', s, low, t)
    {
      assert Unmoved(o, st, s) || Marked(st, s, low, t);
    }
  }

  /** What a step does that concerns `s` alone: everyone else's marks stay. */
  ghost predicate OthersSame(st: State, st': State, s: SocketId) {
    && st'.cfg == st.cfg && st'.blocks == st.blocks
    && (forall x :: x != s ==> (x in st'.sessions <==> x in st.sessions) && (x in st'.dirty <==> x in st.dirty))
    && (forall x :: x != s && x in st.sessions ==> st'.sessions[x] == st.sessions[x])
    && (forall x :: x != s ==> LadderOf(st'.relaxing, x) == LadderOf(st.relaxing, x))
    && (forall x :: x != s ==> WakesNoLater(st'.wakeAt, st.wakeAt, x))
  }

  lemma OneKept(o: State, st: State, st': State, s: SocketId, but: set<SocketId>, low: set<DeviceId>, t: nat)
    requires Kept(o, st, but, low, t) && OthersSame(st, st', s)
    ensures Kept(o, st', but + {s}, low, t)
    ensures (s in st'.sessions && st'.sessions[s].state == Waiting ==> Marked(st', s, low, t)) ==> Kept(o, st', but - {s}, low, t)
  {
    forall x | x in st'.sessions && st'.sessions[x].state == Waiting && x !in but && x != s
      ensures Unmoved(o, st', x) || Marked(st', x, low, t)
    {
      assert st'.sessions[x] == st.sessions[x] && LadderOf(st'.relaxing, x) == LadderOf(st.relaxing, x);
      assert WakesNoLater(st'.wakeAt, st.wakeAt, x);
      assert Unmoved(o, st, x) || Marked(st, x, low, t);
    }
  }

  lemma EnqueueKept(o: State, st: State, s: SocketId, since: Option<nat>, env: Env, but: set<SocketId>)
    requires Kept(o, st, but, env.low, env.now) && s in st.sessions && since.GetOr(env.now) <= env.now
    ensures Kept(o, Enqueue(st, s, since, env), but - {s}, env.low, env.now)
  {
    var st' := Enqueue(st, s, since, env);
    assert OthersSame(st, st', s);
    assert LadderFits(st'.cfg.ladder, st'.sessions[s], LadderOf(st'.relaxing, s), env.low, env.now);
    OneKept(o, st, st', s, but, env.low, env.now);
  }

  lemma LeaveIdleKept(o: State, st: State, s: SocketId, capped: bool, now: nat, but: set<SocketId>, low: set<DeviceId>, t: nat)
    requires Kept(o, st, but, low, t) && s in st.sessions
    ensures Kept(o, LeaveIdle(st, s, capped, now), but, low, t)
  {
    assert OthersSame(st, LeaveIdle(st, s, capped, now), s);
    OneKept(o, st, LeaveIdle(st, s, capped, now), s, but, low, t);
  }

  lemma FreeMemberKept(o: State, st: State, r: RoomId, s: SocketId, reason: Option<EndReason>, env: Env, but: set<SocketId>)
    requires Kept(o, st, but, env.low, env.now) && s in st.sessions
    ensures Kept(o, FreeMember(st, r, s, reason, env), but, env.low, env.now)
  {
    if reason.Some? {
      var told := Emit(st, s, MatchEnded(r, reason.value), env.now);
      BookkeepingKept(o, st, told, but, env.low, env.now);
      var device := st.sessions[s].who.deviceId;
      var capped := reason.value != AcceptTimeout && device in env.capped;
      if st.sessions[s].roomId != Some(r) {
        assert FreeMember(st, r, s, reason, env) == told;
      } else if reason.value == AcceptTimeout || capped || device in env.banned {
        assert FreeMember(st, r, s, reason, env) == LeaveIdle(told, s, capped, env.now);
        LeaveIdleKept(o, told, s, capped, env.now, but, env.low, env.now);
      } else {
        assert FreeMember(st, r, s, reason, env) == Enqueue(told, s, None, env);
        EnqueueKept(o, told, s, None, env, but);
      }
    }
  }

  lemma EndRoomKept(o: State, st: State, r: RoomId, reasonA: Option<EndReason>, reasonB: Option<EndReason>, env: Env, but: set<SocketId>)
    requires Kept(o, st, but, env.low, env.now) && Inv(st) && r in st.rooms
    ensures Kept(o, EndRoom(st, r, reasonA, reasonB, env), but, env.low, env.now)
  {
    var room := st.rooms[r];
    assert RoomOk(st.sessions, r, room);
    var deleted := RoomDeleted(st, r);
    BookkeepingKept(o, st, deleted, but, env.low, env.now);
    FreeMemberKept(o, deleted, r, room.a, reasonA, env, but);
    FreeMemberFrame(deleted, r, room.a, reasonA, env);
    FreeMemberKept(o, FreeMember(deleted, r, room.a, reasonA, env), r, room.b, reasonB, env, but);
  }

  lemma EndRoomOfKept(o: State, st: State, r: RoomId, s: SocketId, mine: Option<EndReason>, theirs: Option<EndReason>, env: Env, but: set<SocketId>)
    requires Kept(o, st, but, env.low, env.now) && Inv(st) && r in st.rooms
    ensures Kept(o, EndRoomOf(st, r, s, mine, theirs, env), but, env.low, env.now)
  {
    var (reasonA, reasonB) := ReasonsFor(st.rooms[r], s, mine, theirs);
    EndRoomKept(o, st, r, reasonA, reasonB, env, but);
  }

  /** Forgetting a session takes its marks along. */
  lemma RemoveKept(o: State, st: State, s: SocketId, reason: EndReason, env: Env, but: set<SocketId>)
    requires Kept(o, st, but, env.low, env.now) && Inv(st)
    ensures Kept(o, RemoveIfPresent(st, s, reason, env), but - {s}, env.low, env.now)
  {
    if s in st.sessions {
      var roomId := st.sessions[s].roomId;
      var ended := EndLeaversRoom(st, s, reason, env);
      if roomId.Some? && MemberOf(st, s, roomId.value) {
        EndRoomOfKept(o, st, roomId.value, s, None, Some(reason), env, but);
      }
      DroppedKept(o, ended, s, st.sessions[s].who.deviceId, but, env.low, env.now);
    }
  }

  lemma DroppedKept(o: State, st: State, s: SocketId, device: DeviceId, but: set<SocketId>, low: set<DeviceId>, t: nat)
    requires Kept(o, st, but, low, t)
    ensures Kept(o, DropSession(st, s, device), but - {s}, low, t)
  {
    assert OthersSame(st, DropSession(st, s, device), s);
    OneKept(o, st, DropSession(st, s, device), s, but, low, t);
  }

  lemma ReplaceKept(o: State, st: State, previous: SocketId, env: Env)
    requires Kept(o, st, {}, env.low, env.now) && Inv(st)
    ensures Kept(o, Replace(st, previous, env), {}, env.low, env.now)
  {
    var told := Emit(st, previous, SessionReplaced, env.now);
    BookkeepingKept(o, st, told, {}, env.low, env.now);
    assert SameStory(st, told) && Inv(told);
    RemoveKept(o, told, previous, PartnerUnavailable, env, {});
    assert {} - {previous} == {};
    BookkeepingKept(o, RemoveIfPresent(told, previous, PartnerUnavailable, env), Replace(st, previous, env), {}, env.low, env.now);
  }

  lemma ForgetKept(o: State, st: State, s: SocketId, low: set<DeviceId>, t: nat)
    requires Kept(o, st, {}, low, t)
    ensures Kept(o, Forget(st, s), {s}, low, t)
  {
    assert OthersSame(st, Forget(st, s), s);
    OneKept(o, st, Forget(st, s), s, {}, low, t);
    assert {} + {s} == {s};
  }

  lemma ActivateKept(o: State, st: State, r: RoomId, room: Room, now: nat, low: set<DeviceId>, t: nat)
    requires Kept(o, st, {}, low, t)
    ensures Kept(o, ActivateRoom(st, r, room, now), {}, low, t)
  {
    var st' := ActivateRoom(st, r, room, now);
    forall s | s in st'.sessions && st'.sessions[s].state == Waiting ensures Unmoved(o, st', s) || Marked(st', s, low, t) {
      assert st'.sessions[s] == st.sessions[s];
      assert Unmoved(o, st, s) || Marked(st, s, low, t);
    }
  }

  /* ---------------------------------------------------------------- */
  /* The pass                                                          */
  /* ---------------------------------------------------------------- */

  /** Who still waits after rooms were created was in none of the pairs, and is as it was. */
  ghost predicate LeftWaiting(st: State, st': State, waiting: seq<Waiter>, pairs: seq<Pairing>) {
    && st'.cfg == st.cfg && st'.blocks == st.blocks && st'.wakeAt == st.wakeAt && st'.dirty == st.dirty
    && (forall s :: s in st'.sessions && st'.sessions[s].state == Waiting ==>
          && s in st.sessions && st'.sessions[s] == st.sessions[s]
          && LadderOf(st'.relaxing, s) == LadderOf(st.relaxing, s)
          && (forall x :: 0 <= x < |waiting| && waiting[x].socket == s ==> !InSome(pairs, x)))
  }

  lemma CreatedLeaves(st: State, before: State, after: State, waiting: seq<Waiter>, pairs: seq<Pairing>, env: Env)
    requires pairs != [] && Creatable(waiting, pairs) && LeftWaiting(st, before, waiting, pairs[..|pairs| - 1])
    requires var p := pairs[|pairs| - 1];
      && p.i < |waiting| && p.j < |waiting| && waiting[p.i].socket in before.sessions && waiting[p.j].socket in before.sessions
      && Created(before, after, waiting[p.i].socket, waiting[p.j].socket, env)
    ensures LeftWaiting(st, after, waiting, pairs)
  {
    LastPairIsFree(waiting, pairs);
    var p := pairs[|pairs| - 1];
    forall s | s in after.sessions && after.sessions[s].state == Waiting
      ensures s in before.sessions && after.sessions[s] == before.sessions[s]
      ensures LadderOf(after.relaxing, s) == LadderOf(before.relaxing, s)
      ensures s != waiting[p.i].socket && s != waiting[p.j].socket
    {
    }
  }

  lemma {:induction false} CreateRoomsLeave(st: State, waiting: seq<Waiter>, pairs: seq<Pairing>, env: Env)
    requires Inv(st) && Loaded(st, waiting) && Creatable(waiting, pairs)
    ensures LeftWaiting(st, CreateRooms(st, waiting, pairs, env), waiting, pairs)
  {
    if pairs != [] {
      var n := |pairs| - 1;
      LastPairIsFree(waiting, pairs);
      CreateRoomsLeave(st, waiting, pairs[..n], env);
      CreateRoomsKeeps(st, waiting, pairs[..n], env);
      var before := CreateRooms(st, waiting, pairs[..n], env);
      LastRoomKeeps(before, waiting, pairs, env);
      CreatedLeaves(st, before, CreateRooms(st, waiting, pairs, env), waiting, pairs, env);
    }
  }

  /** Two waiters not fitting at the steps of the pass do not fit at their recorded ones. */
  lemma RecordedFitsAreRealFits(st: State, s: SocketId, t: SocketId, low: set<DeviceId>, now: nat)
    requires s in st.sessions && t in st.sessions
    requires LadderFits(st.cfg.ladder, st.sessions[s], LadderOf(st.relaxing, s), low, now)
    requires LadderFits(st.cfg.ladder, st.sessions[t], LadderOf(st.relaxing, t), low, now)
    requires Fits(st.sessions[s].who, st.sessions[t].who, RecordedStep(st.relaxing, s), RecordedStep(st.relaxing, t))
    ensures Fits(st.sessions[s].who, st.sessions[t].who,
                 StepOf(Waiter(s, st.sessions[s]), st.cfg.ladder, now, low), StepOf(Waiter(t, st.sessions[t]), st.cfg.ladder, now, low))
  {
    FitsIsMonotone(st.sessions[s].who, st.sessions[t].who, RecordedStep(st.relaxing, s), RecordedStep(st.relaxing, t),
                   StepOf(Waiter(s, st.sessions[s]), st.cfg.ladder, now, low), StepOf(Waiter(t, st.sessions[t]), st.cfg.ladder, now, low));
  }

  /** Before the scan, every pair outside the focus is settled and the ladders fit. */
  ghost predicate ReadyToScan(st: State, waiting: seq<Waiter>, focus: Option<set<SocketId>>, env: Env) {
    && Inv(st) && Loaded(st, waiting) && Remembered(st.blocks) && LaddersFit(st, env.low, env.now)
    && (forall s :: s in st.sessions && st.sessions[s].state == Waiting ==> exists x :: 0 <= x < |waiting| && waiting[x].socket == s)
    && (focus.Some? ==>
          forall s, t :: Waits(st, s) && Waits(st, t) && s != t && s !in focus.value && t !in focus.value ==> Apart(st, env.banned, s, t))
  }

  /** Two waiters x, y the scan left apart are settled once its wake times are set. */
  lemma ScannedPairIsApart(st: State, waiting: seq<Waiter>, focus: Option<set<SocketId>>, env: Env, x: nat, y: nat)
    requires ReadyToScan(st, waiting, focus, env) && x < y < |waiting|
    requires var pairs := Scan(MakeBoard(st, waiting, focus, env), 0, {}, st.wakeAt).pairs; !InSome(pairs, x) && !InSome(pairs, y)
    ensures var woken := st.(wakeAt := Scan(MakeBoard(st, waiting, focus, env), 0, {}, st.wakeAt).wake);
      Apart(woken, env.banned, waiting[x].socket, waiting[y].socket)
  {
    var bd := MakeBoard(st, waiting, focus, env);
    var scan := Scan(bd, 0, {}, st.wakeAt);
    ScanSettles(bd, 0, {}, st.wakeAt);
    var s, t := waiting[x].socket, waiting[y].socket;
    if Fits(st.sessions[s].who, st.sessions[t].who, RecordedStep(st.relaxing, s), RecordedStep(st.relaxing, t)) && !bd.BannedAt(x, y) {
      RecordedFitsAreRealFits(st, s, t, env.low, env.now);
      assert waiting[x] == Waiter(s, st.sessions[s]) && waiting[y] == Waiter(t, st.sessions[t]);
      assert bd.FitsAt(x, y);
      if bd.InFocus(x) || bd.InFocus(y) {
        assert OnlyBlocked(bd, x, y);
        CoveredIsParked(st, bd, scan.wake, x, y);
      } else {
        assert Apart(st, env.banned, s, t);
      }
    }
  }

  lemma CoveredIsParked(st: State, bd: Board, wake: map<SocketId, nat>, x: nat, y: nat)
    requires x < |bd.waiting| && y < |bd.waiting| && bd.blocks == st.blocks && Covered(bd, wake, x, y)
    ensures Parked(st.blocks, wake, bd.waiting[x].socket, bd.waiting[y].socket, bd.waiting[x].session.who.deviceId, bd.waiting[y].session.who.deviceId)
  {
  }

  lemma RunScanDiligent(st: State, waiting: seq<Waiter>, focus: Option<set<SocketId>>, env: Env)
    requires ReadyToScan(st, waiting, focus, env)
    ensures var st' := RunScan(st, waiting, focus, env);
      && LaddersFit(st', env.low, env.now) && Remembered(st'.blocks)
      && (forall s, t :: Waits(st', s) && Waits(st', t) && s != t ==> Apart(st', env.banned, s, t))
  {
    var bd := MakeBoard(st, waiting, focus, env);
    var scan := Scan(bd, 0, {}, st.wakeAt);
    var woken := st.(wakeAt := scan.wake);
    var st' := RunScan(st, waiting, focus, env);
    ScanIsCreatable(bd, st.wakeAt);
    assert SameStory(st, woken) && Inv(woken) && Loaded(woken, waiting);
    CreateRoomsLeave(woken, waiting, scan.pairs, env);
    LeftLaddersFit(woken, st', waiting, scan.pairs, env.low, env.now);
    forall s, t | Waits(st', s) && Waits(st', t) && s != t ensures Apart(st', env.banned, s, t) {
      assert s in woken.sessions && t in woken.sessions;
      WaitersStayApart(st, waiting, focus, env, scan.pairs, s, t);
      LeftApart(woken, st', waiting, scan.pairs, env.banned, s, t);
    }
  }

  /** The same for two sockets, whichever of them is ahead in the queue. */
  lemma WaitersStayApart(st: State, waiting: seq<Waiter>, focus: Option<set<SocketId>>, env: Env, pairs: seq<Pairing>, s: SocketId, t: SocketId)
    requires ReadyToScan(st, waiting, focus, env) && pairs == Scan(MakeBoard(st, waiting, focus, env), 0, {}, st.wakeAt).pairs
    requires Waits(st, s) && Waits(st, t) && s != t
    requires forall x :: 0 <= x < |waiting| && (waiting[x].socket == s || waiting[x].socket == t) ==> !InSome(pairs, x)
    ensures Apart(st.(wakeAt := Scan(MakeBoard(st, waiting, focus, env), 0, {}, st.wakeAt).wake), env.banned, s, t)
  {
    var x :| 0 <= x < |waiting| && waiting[x].socket == s;
    var y :| 0 <= y < |waiting| && waiting[y].socket == t;
    if x < y {
      ScannedPairIsApart(st, waiting, focus, env, x, y);
    } else {
      ScannedPairIsApart(st, waiting, focus, env, y, x);
      ApartIsSymmetric(st.(wakeAt := Scan(MakeBoard(st, waiting, focus, env), 0, {}, st.wakeAt).wake), env.banned, t, s);
    }
  }

  lemma LeftLaddersFit(st: State, st': State, waiting: seq<Waiter>, pairs: seq<Pairing>, low: set<DeviceId>, now: nat)
    requires LeftWaiting(st, st', waiting, pairs) && LaddersFit(st, low, now)
    ensures LaddersFit(st', low, now)
  {
    forall s | s in st'.sessions && st'.sessions[s].state == Waiting
      ensures LadderFits(st'.cfg.ladder, st'.sessions[s], LadderOf(st'.relaxing, s), low, now)
    {
      assert LadderFits(st.cfg.ladder, st.sessions[s], LadderOf(st.relaxing, s), low, now);
    }
  }

  lemma LeftApart(st: State, st': State, waiting: seq<Waiter>, pairs: seq<Pairing>, banned: set<DeviceId>, s: SocketId, t: SocketId)
    requires LeftWaiting(st, st', waiting, pairs)
    requires s in st'.sessions && t in st'.sessions && st'.sessions[s].state == Waiting && st'.sessions[t].state == Waiting
    requires s in st.sessions && t in st.sessions && Apart(st, banned, s, t)
    ensures Apart(st', banned, s, t)
  {
    assert LadderOf(st'.relaxing, s) == LadderOf(st.relaxing, s) && LadderOf(st'.relaxing, t) == LadderOf(st.relaxing, t);
    assert RecordedStep(st'.relaxing, s) == RecordedStep(st.relaxing, s) && RecordedStep(st'.relaxing, t) == RecordedStep(st.relaxing, t);
  }

  /** Time passes and bans grow: nothing comes unsettled. */
  lemma DiligentLater(st: State, low: set<DeviceId>, banned: set<DeviceId>, t: nat, banned': set<DeviceId>, t': nat)
    requires Diligent(st, low, banned, t) && banned <= banned' && t <= t'
    ensures Diligent(st, low, banned', t')
  {
    KeptAtOnce(st, low, t');
    KeptIsDiligent(st, st, low, banned, t, t');
    forall s, x | Quiet(st, s) && Quiet(st, x) && s != x ensures Apart(st, banned', s, x) {
      assert Apart(st, banned, s, x);
    }
  }

  lemma EveryWaiterIsQueued(st: State, s: SocketId)
    requires Inv(st) && Waits(st, s)
    ensures exists i :: 0 <= i < |st.queue| && st.queue[i].socket == s
  {
    assert SessionOk(st.rooms, s, st.sessions[s]);
    assert s in WaitKeys(st.sessions);
    var e := Entry(s, WaitKeys(st.sessions)[s]);
    assert e in st.queue;
  }

  /** With fewer than two in the queue there is no pair to lose. */
  lemma ShortQueueIsCalm(st: State, low: set<DeviceId>, banned: set<DeviceId>, now: nat)
    requires Inv(st) && |st.queue| < 2 && Diligent(st, low, banned, now)
    ensures Diligent(st.(dirty := {}), low, banned, now)
  {
    var st' := st.(dirty := {});
    forall s, t | Quiet(st', s) && Quiet(st', t) ensures s == t {
      EveryWaiterIsQueued(st, s);
      EveryWaiterIsQueued(st, t);
    }
    forall s | Waits(st', s) ensures LadderFits(st'.cfg.ladder, st'.sessions[s], LadderOf(st'.relaxing, s), low, now) {
      assert LadderFits(st.cfg.ladder, st.sessions[s], LadderOf(st.relaxing, s), low, now);
    }
  }

  lemma LoadedEveryWaiter(st: State)
    requires Inv(st)
    ensures var waiting := LoadWaiting(st.queue, st.sessions);
      forall s :: Waits(st, s) ==> s in SocketsOf(waiting) && exists x :: 0 <= x < |waiting| && waiting[x].socket == s
  {
    QueueIsLoaded(st);
    var waiting := LoadWaiting(st.queue, st.sessions);
    forall s | Waits(st, s) ensures s in SocketsOf(waiting) && exists x :: 0 <= x < |waiting| && waiting[x].socket == s {
      EveryWaiterIsQueued(st, s);
      var x :| 0 <= x < |st.queue| && st.queue[x].socket == s;
      assert waiting[x].socket == s && waiting[x] in waiting;
    }
  }

  /** Pruning wake times of sessions that no longer wait costs no waiter its wake time. */
  lemma PrunedStaysApart(st: State, pruned: State, waiting: seq<Waiter>, focus: set<SocketId>, banned: set<DeviceId>)
    requires Calm(st, banned) && st.dirty <= focus
    requires forall s :: Waits(st, s) ==> s in SocketsOf(waiting)
    requires pruned.sessions == st.sessions && pruned.relaxing == st.relaxing && pruned.blocks == st.blocks
    requires pruned.wakeAt == st.wakeAt || pruned.wakeAt == map s | s in st.wakeAt && s in SocketsOf(waiting) :: st.wakeAt[s]
    ensures forall s, t :: Waits(pruned, s) && Waits(pruned, t) && s != t && s !in focus && t !in focus ==> Apart(pruned, banned, s, t)
  {
    forall s, t | Waits(pruned, s) && Waits(pruned, t) && s != t && s !in focus && t !in focus ensures Apart(pruned, banned, s, t) {
      assert Waits(st, s) && Waits(st, t);
      assert Quiet(st, s) && Quiet(st, t) && Apart(st, banned, s, t);
    }
  }

  lemma SameLadders(st: State, st': State, low: set<DeviceId>, now: nat)
    requires LaddersFit(st, low, now)
    requires st'.sessions == st.sessions && st'.relaxing == st.relaxing && st'.cfg == st.cfg
    ensures LaddersFit(st', low, now)
  {
    forall s | Waits(st', s) ensures LadderFits(st'.cfg.ladder, st'.sessions[s], LadderOf(st'.relaxing, s), low, now) {
      assert LadderFits(st.cfg.ladder, st.sessions[s], LadderOf(st.relaxing, s), low, now);
    }
  }

  lemma PrunedIsReady(st: State, mode: PassMode, focus: Option<set<SocketId>>, cursor: nat, env: Env)
    requires Inv(st) && LaddersFit(st, env.low, env.now) && Calm(st, env.banned) && Remembered(st.blocks)
    requires focus.Some? ==> st.dirty <= focus.value
    ensures var waiting := LoadWaiting(st.queue, st.sessions);
      ReadyToScan(Pruned(st, mode, waiting).(recheckCursor := cursor), waiting, focus, env)
  {
    var waiting := LoadWaiting(st.queue, st.sessions);
    var pruned := Pruned(st, mode, waiting).(recheckCursor := cursor);
    QueueIsLoaded(st);
    LoadedEveryWaiter(st);
    SameLadders(st, pruned, env.low, env.now);
    if focus.Some? {
      PrunedStaysApart(st, pruned, waiting, focus.value, env.banned);
    }
    AllLoaded(st, pruned, waiting);
  }

  lemma AllLoaded(st: State, pruned: State, waiting: seq<Waiter>)
    requires Inv(st) && SameStory(st, pruned) && Loaded(st, waiting)
    requires forall s :: Waits(st, s) ==> exists x :: 0 <= x < |waiting| && waiting[x].socket == s
    ensures Inv(pruned) && Loaded(pruned, waiting)
    ensures forall s :: s in pruned.sessions && pruned.sessions[s].state == Waiting ==> exists x :: 0 <= x < |waiting| && waiting[x].socket == s
  {
    forall s | s in pruned.sessions && pruned.sessions[s].state == Waiting ensures exists x :: 0 <= x < |waiting| && waiting[x].socket == s {
      assert Waits(st, s);
    }
  }

  /** Who waits in `st'` waited in `st`, at the same recorded step. */
  ghost predicate WaitersSame(st: State, st': State) {
    && st'.cfg == st.cfg
    && (forall s :: Waits(st', s) ==> Waits(st, s) && st'.sessions[s] == st.sessions[s] && LadderOf(st'.relaxing, s) == LadderOf(st.relaxing, s))
  }

  lemma RunScanWaiters(st: State, waiting: seq<Waiter>, focus: Option<set<SocketId>>, env: Env)
    requires Inv(st) && Loaded(st, waiting)
    ensures WaitersSame(st, RunScan(st, waiting, focus, env)) && RunScan(st, waiting, focus, env).dirty == st.dirty
  {
    var bd := MakeBoard(st, waiting, focus, env);
    var scan := Scan(bd, 0, {}, st.wakeAt);
    var woken := st.(wakeAt := scan.wake);
    ScanIsCreatable(bd, st.wakeAt);
    assert SameStory(st, woken) && Inv(woken) && Loaded(woken, waiting);
    CreateRoomsLeave(woken, waiting, scan.pairs, env);
  }

  lemma PassOverDiligent(st: State, mode: PassMode, waiting: seq<Waiter>, env: Env)
    requires Inv(st) && Diligent(st, env.low, env.banned, env.now)
    requires waiting == LoadWaiting(st.queue, st.sessions) && |waiting| > 0
    ensures var st' := PassOver(st, mode, waiting, env);
      Diligent(st', env.low, env.banned, env.now) && st'.dirty == {} && WaitersSame(st, st')
  {
    var slice := RecheckSlice(|waiting|, st.cfg.recheckPairBudget, st.recheckCursor);
    var cursor := if mode == RecheckPass then slice.cursor else st.recheckCursor;
    var focus := if mode == RecheckPass then Some(st.dirty + SliceSockets(waiting, slice)) else if mode == WholePass then None else Some(st.dirty);
    var pruned := Pruned(st, mode, waiting).(recheckCursor := cursor);
    PrunedIsReady(st, mode, focus, cursor, env);
    assert PassOver(st, mode, waiting, env) == RunScan(pruned, waiting, focus, env);
    RunScanDiligent(pruned, waiting, focus, env);
    RunScanWaiters(pruned, waiting, focus, env);
  }

  /** A pass, whatever its mode, leaves every pair settled; while matching is open it leaves no mark. */
  lemma MatchPassDiligent(st: State, mode: PassMode, env: Env, banned: set<DeviceId>, t: nat)
    requires Inv(st) && Diligent(st, env.low, banned, t) && LegalEnv(env, env.low, banned, t)
    ensures var st' := MatchPass(st, mode, env);
      Diligent(st', env.low, env.banned, env.now) && (env.open ==> st'.dirty == {}) && WaitersSame(st, st')
  {
    DiligentLater(st, env.low, banned, t, env.banned, env.now);
    if !env.open {
    } else if (mode == DirtyPass && st.dirty == {}) || |st.queue| < 2 {
      var st' := st.(dirty := {});
      if st.dirty != {} {
        ShortQueueIsCalm(st, env.low, env.banned, env.now);
      } else {
        assert st' == st;
      }
    } else {
      QueueIsLoaded(st);
      PassOverDiligent(st, mode, LoadWaiting(st.queue, st.sessions), env);
    }
  }

  /* ---------------------------------------------------------------- */
  /* Every event                                                       */
  /* ---------------------------------------------------------------- */

  /** A section that prepares and then runs the pass after an event. */
  lemma PreparedDiligent(o: State, st: State, env: Env, banned: set<DeviceId>, t: nat)
    requires Diligent(o, env.low, banned, t) && LegalEnv(env, env.low, banned, t)
    requires Kept(o, st, {}, env.low, env.now) && Inv(st)
    ensures Diligent(st, env.low, env.banned, env.now)
    ensures Diligent(MatchPass(st, DirtyPass, env), env.low, env.banned, env.now)
  {
    KeptIsDiligent(o, st, env.low, banned, t, env.now);
    DiligentLater(st, env.low, banned, env.now, env.banned, env.now);
    MatchPassDiligent(st, DirtyPass, env, env.banned, env.now);
  }

  lemma BlockEndAndMatchDiligent(st: State, r: RoomId, s: SocketId, durationMs: nat, escalate: bool,
                                 mine: EndReason, theirs: EndReason, env: Env, banned: set<DeviceId>, t: nat)
    requires Inv(st) && Diligent(st, env.low, banned, t) && LegalEnv(env, env.low, banned, t) && r in st.rooms
    ensures var blocked := BlockPair(st, st.rooms[r].deviceA, st.rooms[r].deviceB, durationMs, escalate, env.now);
      && r in blocked.rooms
      && Diligent(MatchPass(EndRoomOf(blocked, r, s, Some(mine), Some(theirs), env), DirtyPass, env), env.low, env.banned, env.now)
  {
    var blocked := BlockPair(st, st.rooms[r].deviceA, st.rooms[r].deviceB, durationMs, escalate, env.now);
    KeptAtOnce(st, env.low, env.now);
    BlockPairKept(st, st, st.rooms[r].deviceA, st.rooms[r].deviceB, durationMs, escalate, env.now, {}, env.low, env.now);
    BlockedKeeps(st, r, durationMs, escalate, env.now);
    EndRoomOfKept(st, blocked, r, s, Some(mine), Some(theirs), env, {});
    EndRoomOfKeeps(blocked, r, s, mine, theirs, env);
    PreparedDiligent(st, EndRoomOf(blocked, r, s, Some(mine), Some(theirs), env), env, banned, t);
  }

  lemma LeavingDiligent(st: State, ev: Event, env: Env, banned: set<DeviceId>, t: nat)
    requires Inv(st) && Diligent(st, env.low, banned, t) && LegalEnv(env, env.low, banned, t)
    requires ev.Decline? || ev.Skip? || ev.CallFailed?
    ensures Diligent(Step(st, ev, env), env.low, env.banned, env.now)
  {
    DiligentLater(st, env.low, banned, t, env.banned, env.now);
    match ev
    case Decline(s, r) =>
      if MemberOf(st, s, r) && !st.rooms[r].active {
        BlockEndAndMatchDiligent(st, r, s, st.cfg.declineBlockMs, false, Declined, PartnerDeclined, env, banned, t);
      }
    case Skip(s, only) =>
      if s in st.sessions && st.sessions[s].roomId.Some? && MemberOf(st, s, st.sessions[s].roomId.value) {
        BlockEndAndMatchDiligent(st, st.sessions[s].roomId.value, s, 0, true, Skipped, PartnerSkipped, env, banned, t);
      }
    case CallFailed(s, r) =>
      if MemberOf(st, s, r) && st.rooms[r].active {
        BlockEndAndMatchDiligent(st, r, s, st.cfg.declineBlockMs, false, ConnectionFailed, ConnectionFailed, env, banned, t);
      }
  }

  lemma ReportDiligent(st: State, s: SocketId, r: RoomId, target: (DeviceId, DeviceId), env: Env, banned: set<DeviceId>, t: nat)
    requires Inv(st) && Diligent(st, env.low, banned, t) && LegalEnv(env, env.low, banned, t)
    ensures Diligent(ReportStep(st, s, r, target, env), env.low, env.banned, env.now)
  {
    if MemberOf(st, s, r) {
      BlockEndAndMatchDiligent(st, r, s, st.cfg.reportBlockMs, false, Reported, PartnerSkipped, env, banned, t);
    } else {
      KeptAtOnce(st, env.low, env.now);
      BlockPairKept(st, st, target.0, target.1, st.cfg.reportBlockMs, false, env.now, {}, env.low, env.now);
      assert SameStory(st, ReportStep(st, s, r, target, env)) && Inv(ReportStep(st, s, r, target, env));
      PreparedDiligent(st, ReportStep(st, s, r, target, env), env, banned, t);
    }
  }

  /** A session rewritten by a hello or by new preferences is unmoved once it is marked. */
  lemma RewrittenKept(o: State, st': State, s: SocketId, low: set<DeviceId>, t: nat)
    requires Remembered(o.blocks) && s in o.sessions && s in st'.sessions
    requires st'.sessions == o.sessions[s := o.sessions[s].(who := st'.sessions[s].who, mode := st'.sessions[s].mode)]
    requires st'.sessions[s].who.deviceId == o.sessions[s].who.deviceId
    requires st'.relaxing == o.relaxing && st'.wakeAt == o.wakeAt && st'.blocks == o.blocks && st'.cfg == o.cfg
    requires st'.dirty == o.dirty || st'.dirty == o.dirty + {s}
    ensures Kept(o, st', {s}, low, t)
    ensures s in st'.dirty || st'.sessions[s].state != Waiting ==> Kept(o, st', {}, low, t)
  {
    forall x | x in st'.sessions && st'.sessions[x].state == Waiting ensures x != s || x in st'.dirty ==> Unmoved(o, st', x) {
    }
  }

  lemma UpdatePreferencesDiligent(st: State, s: SocketId, preferences: Preferences, env: Env, banned: set<DeviceId>, t: nat)
    requires Inv(st) && Diligent(st, env.low, banned, t) && LegalEnv(env, env.low, banned, t)
    ensures Diligent(UpdatePreferencesStep(st, s, preferences, env), env.low, env.banned, env.now)
  {
    DiligentLater(st, env.low, banned, t, env.banned, env.now);
    if s in st.sessions {
      var session := st.sessions[s];
      var who := session.who.(preferences := preferences);
      if !NeedsPremium(who, env) && session.who.preferences != preferences {
        RewriteKeeps(st, s, who, session.mode);
        var stored := st.(sessions := st.sessions[s := session.(who := who)]);
        var acked := Emit(stored, s, PreferencesSaved(preferences.genderFilter), env.now);
        var ready := if session.state == Waiting then acked.(dirty := acked.dirty + {s}) else acked;
        assert SameStory(stored, ready) && Inv(ready);
        RewrittenKept(st, ready, s, env.low, env.now);
        PreparedDiligent(st, ready, env, banned, t);
      }
    }
  }

  /** A hello's session is stored; it is left for Enqueue to mark. */
  lemma HelloStoredKept(st: State, s: SocketId, p: HelloPayload, env: Env)
    requires Inv(st) && Remembered(st.blocks) && (s in st.sessions ==> st.sessions[s].who.deviceId == p.device)
    ensures Kept(st, HelloStored(st, s, p, env), {s}, env.low, env.now)
    ensures var stored := HelloStored(st, s, p, env);
      stored.sessions[s].state != Waiting ==> Kept(st, stored, {}, env.low, env.now)
  {
    var stored := HelloStored(st, s, p, env);
    KeptAtOnce(st, env.low, env.now);
    if s in st.sessions {
      RewrittenKept(st, stored, s, env.low, env.now);
    } else {
      var retired := RetirePrevious(st, s, p.device, env);
      if p.device in st.devices && st.devices[p.device] != s {
        ReplaceKept(st, st, st.devices[p.device], env);
      }
      NewIdleKept(st, retired, stored, s, env);
    }
  }

  lemma NewIdleKept(o: State, st: State, st': State, s: SocketId, env: Env)
    requires Kept(o, st, {}, env.low, env.now) && s in st'.sessions && st'.sessions[s].state == Idle
    requires st' == st.(sessions := st.sessions[s := st'.sessions[s]], devices := st'.devices)
    ensures Kept(o, st', {}, env.low, env.now) && Kept(o, st', {s}, env.low, env.now)
  {
    assert OthersSame(st, st', s);
    OneKept(o, st, st', s, {}, env.low, env.now);
    assert {} + {s} == {s} && {} - {s} == {};
  }

  lemma HelloDiligent(st: State, s: SocketId, p: HelloPayload, answers: HelloAnswers, env: Env, banned: set<DeviceId>, t: nat)
    requires Inv(st) && Diligent(st, env.low, banned, t) && LegalEnv(env, env.low, banned, t)
    ensures Diligent(HelloStep(st, s, p, answers, env), env.low, env.banned, env.now)
  {
    var refusal := HelloRefusal(st, s, p, answers, env);
    if refusal.Some? {
      KeptAtOnce(st, env.low, env.now);
      var told := Emit(st, s, HelloRefused(refusal.value), env.now);
      BookkeepingKept(st, st, told, {}, env.low, env.now);
      assert SameStory(st, told) && Inv(told);
      PreparedDiligent(st, told, env, banned, t);
    } else {
      HelloStoredKeeps(st, s, p, env);
      HelloStoredKept(st, s, p, env);
      var stored := HelloStored(st, s, p, env);
      var acked := HelloAcked(stored, s, HelloWho(p, env).preferences.genderFilter, env.now);
      assert SameStory(stored, acked) && Inv(acked);
      BookkeepingKept(st, stored, acked, {s}, env.low, env.now);
      if acked.sessions[s].state == Idle || acked.sessions[s].state == Waiting {
        HelloSinceIsPast(st, s, p, env, banned, t);
        HelloQueuedDiligent(st, acked, s, env, banned, t);
      } else {
        BookkeepingKept(st, stored, acked, {}, env.low, env.now);
        PreparedDiligent(st, acked, env, banned, t);
      }
    }
  }

  lemma HelloSinceIsPast(st: State, s: SocketId, p: HelloPayload, env: Env, banned: set<DeviceId>, t: nat)
    requires Diligent(st, env.low, banned, t) && t <= env.now
    ensures var session := HelloStored(st, s, p, env).sessions[s];
      session.state == Waiting ==> session.waitingSince.GetOr(env.now) <= env.now
  {
    if s in st.sessions && st.sessions[s].state == Waiting {
      assert LadderFits(st.cfg.ladder, st.sessions[s], LadderOf(st.relaxing, s), env.low, t);
    }
  }

  lemma HelloQueuedDiligent(st: State, acked: State, s: SocketId, env: Env, banned: set<DeviceId>, t: nat)
    requires Diligent(st, env.low, banned, t) && LegalEnv(env, env.low, banned, t)
    requires Kept(st, acked, {s}, env.low, env.now) && Inv(acked) && s in acked.sessions
    requires acked.sessions[s].state == Idle || acked.sessions[s].state == Waiting
    requires acked.sessions[s].state == Waiting ==> acked.sessions[s].waitingSince.GetOr(env.now) <= env.now
    ensures var since := if acked.sessions[s].state == Waiting then acked.sessions[s].waitingSince else None;
      Diligent(MatchPass(Enqueue(acked, s, since, env), DirtyPass, env), env.low, env.banned, env.now)
  {
    var since := if acked.sessions[s].state == Waiting then acked.sessions[s].waitingSince else None;
    EnqueueKept(st, acked, s, since, env, {s});
    assert {s} - {s} == {};
    assert SessionOk(acked.rooms, s, acked.sessions[s]);
    RoomlessIsUnroomed(acked.sessions, acked.rooms, s);
    EnqueueKeeps(acked, s, since, env, {});
    PreparedDiligent(st, Enqueue(acked, s, since, env), env, banned, t);
  }

  lemma AcceptKept(st: State, s: SocketId, r: RoomId, env: Env)
    requires Inv(st) && Remembered(st.blocks)
    ensures Kept(st, AcceptStep(st, s, r, env), {}, env.low, env.now)
  {
    KeptAtOnce(st, env.low, env.now);
    if MemberOf(st, s, r) && !st.rooms[r].active {
      var room := st.rooms[r];
      if env.now > room.expiresAt + st.cfg.matchAcceptGraceMs {
        BookkeepingKept(st, st, Emit(st, s, ServerError(NotInRoom), env.now), {}, env.low, env.now);
      } else if !HasAccepted(room, s) {
        AcceptedKept(st, s, r, env);
      }
    }
  }

  lemma AcceptedKept(st: State, s: SocketId, r: RoomId, env: Env)
    requires Kept(st, st, {}, env.low, env.now) && r in st.rooms
    ensures var room' := AcceptedBy(st.rooms[r], s);
      Kept(st, if room'.acceptedA && room'.acceptedB then ActivateRoom(st, r, room', env.now)
               else Emit(st.(rooms := st.rooms[r := room']), Partner(st.rooms[r], s), PartnerAccepted(r), env.now), {}, env.low, env.now)
  {
    var room' := AcceptedBy(st.rooms[r], s);
    if room'.acceptedA && room'.acceptedB {
      ActivateKept(st, st, r, room', env.now, env.low, env.now);
    } else {
      BookkeepingKept(st, st, Emit(st.(rooms := st.rooms[r := room']), Partner(st.rooms[r], s), PartnerAccepted(r), env.now),
                      {}, env.low, env.now);
    }
  }

  lemma AcceptDiligent(st: State, s: SocketId, r: RoomId, env: Env, banned: set<DeviceId>, t: nat)
    requires Inv(st) && Diligent(st, env.low, banned, t) && LegalEnv(env, env.low, banned, t)
    ensures Diligent(AcceptStep(st, s, r, env), env.low, env.banned, env.now)
  {
    AcceptKept(st, s, r, env);
    AcceptKeeps(st, s, r, env);
    PreparedDiligent(st, AcceptStep(st, s, r, env), env, banned, t);
  }

  lemma SidelineKept(st: State, s: SocketId, env: Env)
    requires Inv(st) && Remembered(st.blocks) && s in st.sessions
    ensures Kept(st, Sideline(st, s, env), {}, env.low, env.now)
  {
    KeptAtOnce(st, env.low, env.now);
    var ended := EndRestrictedRoom(st, s, env);
    var roomId := st.sessions[s].roomId;
    if roomId.Some? && MemberOf(st, s, roomId.value) {
      EndRoomOfKept(st, st, roomId.value, s, Some(Restricted), Some(PartnerSkipped), env, {});
    }
    MadeIdleKept(st, ended, Sideline(st, s, env), s, env);
  }

  lemma MadeIdleKept(o: State, st: State, st': State, s: SocketId, env: Env)
    requires Kept(o, st, {}, env.low, env.now)
    requires st' == st.(sessions := MadeIdle(st.sessions, s), queue := st'.queue)
    ensures Kept(o, st', {}, env.low, env.now)
  {
    assert OthersSame(st, st', s);
    OneKept(o, st, st', s, {}, env.low, env.now);
    assert {} - {s} == {};
  }

  lemma RestrictDiligent(st: State, device: DeviceId, blocking: bool, env: Env, banned: set<DeviceId>, t: nat)
    requires Inv(st) && Diligent(st, env.low, banned, t) && LegalEnv(env, env.low, banned, t)
    ensures Diligent(RestrictStep(st, device, blocking, env), env.low, env.banned, env.now)
  {
    DiligentLater(st, env.low, banned, t, env.banned, env.now);
    if device in st.devices && st.devices[device] in st.sessions {
      var s := st.devices[device];
      var side := if blocking then Sideline(st, s, env) else st;
      KeptAtOnce(st, env.low, env.now);
      if blocking {
        EndRestrictedKeeps(st, s, env);
        SidelinedKeeps(EndRestrictedRoom(st, s, env), s);
        SidelineKept(st, s, env);
      }
      var told := Emit(side, s, SessionRestricted, env.now);
      BookkeepingKept(st, side, told, {}, env.low, env.now);
      assert SameStory(side, told) && Inv(told);
      PreparedDiligent(st, told, env, banned, t);
    }
  }

  lemma DisconnectDiligent(st: State, s: SocketId, env: Env, banned: set<DeviceId>, t: nat)
    requires Inv(st) && Diligent(st, env.low, banned, t) && LegalEnv(env, env.low, banned, t)
    ensures Diligent(DisconnectStep(st, s, env), env.low, env.banned, env.now)
  {
    var forgotten := Forget(st, s);
    var removed := RemoveIfPresent(forgotten, s, PartnerLeft, env);
    KeptAtOnce(st, env.low, env.now);
    ForgetKept(st, st, s, env.low, env.now);
    assert SameStory(st, forgotten) && Inv(forgotten);
    RemoveIfPresentKeeps(forgotten, s, PartnerLeft, env);
    RemovedForgottenKept(st, forgotten, s, env);
    PreparedDiligent(st, removed, env, banned, t);
  }

  /** A socket forgotten and removed takes its exception along. */
  lemma RemovedForgottenKept(o: State, forgotten: State, s: SocketId, env: Env)
    requires Kept(o, forgotten, {s}, env.low, env.now) && Inv(forgotten)
    ensures Kept(o, RemoveIfPresent(forgotten, s, PartnerLeft, env), {}, env.low, env.now)
  {
    RemoveKept(o, forgotten, s, PartnerLeft, env, {s});
    assert {s} - {s} == {};
  }

  lemma {:induction false} RemoveAllKept(o: State, st: State, sockets: seq<SocketId>, env: Env)
    requires Inv(st) && Kept(o, st, {}, env.low, env.now)
    ensures Kept(o, RemoveAll(st, sockets, env), {}, env.low, env.now)
  {
    if sockets != [] {
      var n := |sockets| - 1;
      RemoveAllKept(o, st, sockets[..n], env);
      RemoveAllKeeps(st, sockets[..n], env);
      RemoveKept(o, RemoveAll(st, sockets[..n], env), sockets[n], PartnerUnavailable, env, {});
      assert {} - {sockets[n]} == {};
    }
  }

  lemma ShutdownDiligent(st: State, locals: seq<SocketId>, env: Env, banned: set<DeviceId>, t: nat)
    requires Inv(st) && Diligent(st, env.low, banned, t) && LegalEnv(env, env.low, banned, t)
    ensures Diligent(ShutdownStep(st, locals, env), env.low, env.banned, env.now)
  {
    DiligentLater(st, env.low, banned, t, env.banned, env.now);
    if !st.stopped {
      var stopped := st.(stopped := true);
      KeptAtOnce(st, env.low, env.now);
      BookkeepingKept(st, st, stopped, {}, env.low, env.now);
      assert SameStory(st, stopped) && Inv(stopped);
      RemoveAllKept(st, stopped, locals, env);
      RemoveAllKeeps(stopped, locals, env);
      var removed := RemoveAll(stopped, locals, env);
      PreparedDiligent(st, removed, env, banned, t);
      var passed := MatchPass(removed, DirtyPass, env);
      KeptAtOnce(passed, env.low, env.now);
      BookkeepingKept(passed, passed, ShutdownStep(st, locals, env), {}, env.low, env.now);
      KeptIsDiligent(passed, ShutdownStep(st, locals, env), env.low, env.banned, env.now, env.now);
    }
  }

  /* ---------------------------------------------------------------- */
  /* The sweep                                                         */
  /* ---------------------------------------------------------------- */

  lemma {:induction false} RemoveGhostsKept(o: State, st: State, ghosts: seq<SocketId>, env: Env)
    requires Inv(st) && Kept(o, st, {}, env.low, env.now)
    ensures Kept(o, RemoveGhosts(st, ghosts, env), {}, env.low, env.now)
  {
    if ghosts != [] {
      var n := |ghosts| - 1;
      RemoveGhostsKept(o, st, ghosts[..n], env);
      RemoveGhostsKeeps(st, ghosts[..n], env);
      var before := RemoveGhosts(st, ghosts[..n], env);
      ForgetKept(o, before, ghosts[n], env.low, env.now);
      assert SameStory(before, Forget(before, ghosts[n])) && Inv(Forget(before, ghosts[n]));
      RemovedForgottenKept(o, Forget(before, ghosts[n]), ghosts[n], env);
    }
  }

  lemma ExpireRoomKept(o: State, st: State, r: RoomId, env: Env)
    requires Inv(st) && Kept(o, st, {}, env.low, env.now)
    ensures Kept(o, ExpireRoom(st, r, env), {}, env.low, env.now)
  {
    if r in st.rooms && !st.rooms[r].active {
      var room := st.rooms[r];
      var blocked := BlockPair(st, room.deviceA, room.deviceB, st.cfg.declineBlockMs, false, env.now);
      BlockPairKept(o, st, room.deviceA, room.deviceB, st.cfg.declineBlockMs, false, env.now, {}, env.low, env.now);
      BlockedKeeps(st, r, st.cfg.declineBlockMs, false, env.now);
      EndRoomKept(o, blocked, r, ExpiredReason(room.acceptedA), ExpiredReason(room.acceptedB), env, {});
    }
  }

  lemma {:induction false} ExpireRoomsKept(o: State, st: State, expired: seq<RoomId>, env: Env)
    requires Inv(st) && Kept(o, st, {}, env.low, env.now)
    ensures Kept(o, ExpireRooms(st, expired, env), {}, env.low, env.now)
  {
    if expired != [] {
      var n := |expired| - 1;
      ExpireRoomsKept(o, st, expired[..n], env);
      ExpireRoomsKeeps(st, expired[..n], env);
      ExpireRoomKept(o, ExpireRooms(st, expired[..n], env), expired[n], env);
    }
  }

  /** A woken session is marked in the same step that takes its wake time. */
  lemma WakeLapsedDiligent(st: State, low: set<DeviceId>, banned: set<DeviceId>, now: nat)
    requires Diligent(st, low, banned, now)
    ensures var st' := WakeLapsed(st, now);
      && Diligent(st', low, banned, now)
      && (forall s :: s in st'.wakeAt ==> st'.wakeAt[s] > now)
  {
    var st' := WakeLapsed(st, now);
    forall s | Waits(st', s) ensures LadderFits(st'.cfg.ladder, st'.sessions[s], LadderOf(st'.relaxing, s), low, now) {
      assert LadderFits(st.cfg.ladder, st.sessions[s], LadderOf(st.relaxing, s), low, now);
    }
    forall s, x | Quiet(st', s) && Quiet(st', x) && s != x ensures Apart(st', banned, s, x) {
      assert Quiet(st, s) && Quiet(st, x) && Apart(st, banned, s, x);
    }
  }

  lemma RelaxOneOthers(st: State, s: SocketId, now: nat)
    ensures OthersSame(st, RelaxOne(st, s, now), s)
  {
  }

  lemma RaisedIsMarked(st: State, s: SocketId, low: set<DeviceId>, now: nat)
    requires LaddersFit(st, low, now) && RelaxOne(st, s, now) != st && Waits(st, s)
    ensures Marked(RelaxOne(st, s, now), s, low, now)
  {
    assert LadderFits(st.cfg.ladder, st.sessions[s], LadderOf(st.relaxing, s), low, now);
  }

  lemma RelaxOneSessions(st: State, s: SocketId, now: nat)
    ensures RelaxOne(st, s, now).sessions == st.sessions
  {
  }

  /** A session whose recorded step rises is marked in the same step. */
  lemma RelaxOneKept(o: State, st: State, s: SocketId, low: set<DeviceId>, now: nat)
    requires Kept(o, st, {}, low, now) && LaddersFit(st, low, now)
    ensures Kept(o, RelaxOne(st, s, now), {}, low, now)
  {
    var st' := RelaxOne(st, s, now);
    if st' != st {
      RelaxOneOthers(st, s, now);
      RelaxOneSessions(st, s, now);
      if Waits(st, s) {
        RaisedIsMarked(st, s, low, now);
      }
      OneKept(o, st, st', s, {}, low, now);
      assert {} - {s} == {};
    }
  }

  /** The recorded step of `s` is what the ladder says at `now`. */
  predicate CaughtUp(st: State, s: SocketId, now: nat) {
    s in st.relaxing ==> RelaxStep(now - st.relaxing[s].since, st.cfg.ladder, st.relaxing[s].low) <= st.relaxing[s].step
  }

  lemma RelaxOneCatchesUp(st: State, s: SocketId, x: SocketId, now: nat)
    ensures CaughtUp(RelaxOne(st, s, now), s, now)
    ensures CaughtUp(st, x, now) ==> CaughtUp(RelaxOne(st, s, now), x, now)
    ensures x !in st.relaxing ==> x !in RelaxOne(st, s, now).relaxing
    ensures RelaxOne(st, s, now).wakeAt == st.wakeAt
  {
    RelaxOneFields(st, s, now);
  }

  /** The ladder after one entry is walked: only that of `s` moves, to its step at `now` or off the ladder. */
  function RelaxedLadders(st: State, s: SocketId, now: nat): Ladders {
    if s !in st.relaxing then st.relaxing
    else
      var e := st.relaxing[s];
      var step := RelaxStep(now - e.since, st.cfg.ladder, e.low);
      if step <= e.step then st.relaxing
      else if s !in st.sessions || st.sessions[s].state != Waiting || st.sessions[s].waitingSince != Some(e.since) || step >= MAX_STEP
      then st.relaxing - {s}
      else st.relaxing[s := e.(step := step)]
  }

  lemma RelaxOneFields(st: State, s: SocketId, now: nat)
    ensures var st' := RelaxOne(st, s, now);
      st'.relaxing == RelaxedLadders(st, s, now) && st'.wakeAt == st.wakeAt && st'.cfg == st.cfg
  {
    if s in st.relaxing {
      var e := st.relaxing[s];
      var step := RelaxStep(now - e.since, st.cfg.ladder, e.low);
      if step <= e.step {
        assert RelaxOne(st, s, now) == st;
      } else if s !in st.sessions || st.sessions[s].state != Waiting || st.sessions[s].waitingSince != Some(e.since) {
        assert RelaxOne(st, s, now) == st.(relaxing := st.relaxing - {s});
      }
    }
  }

  /** Walking every ladder entry records the step of every session at `now`. */
  lemma {:induction false} RelaxTickCatchesUp(st: State, order: seq<SocketId>, now: nat, x: SocketId)
    ensures x in order || x !in st.relaxing ==> CaughtUp(RelaxTick(st, order, now), x, now)
    ensures x !in st.relaxing ==> x !in RelaxTick(st, order, now).relaxing
    ensures RelaxTick(st, order, now).wakeAt == st.wakeAt
  {
    if order != [] {
      var n := |order| - 1;
      RelaxTickCatchesUp(st, order[..n], now, x);
      RelaxOneCatchesUp(RelaxTick(st, order[..n], now), order[n], x, now);
    }
  }

  lemma {:induction false} RelaxTickDiligent(st: State, order: seq<SocketId>, low: set<DeviceId>, banned: set<DeviceId>, now: nat)
    requires Diligent(st, low, banned, now)
    ensures Diligent(RelaxTick(st, order, now), low, banned, now)
  {
    if order != [] {
      var n := |order| - 1;
      RelaxTickDiligent(st, order[..n], low, banned, now);
      var before := RelaxTick(st, order[..n], now);
      KeptAtOnce(before, low, now);
      RelaxOneKept(before, before, order[n], low, now);
      KeptIsDiligent(before, RelaxOne(before, order[n], now), low, banned, now, now);
    }
  }

  /** The sweep walks the whole ladder, and its pass does not read an older clock. */
  predicate LegalSweep(st: State, input: SweepInput, env: Env) {
    input.passAt >= env.now && forall s :: s in Roused(st, input.ghosts, input.expired, env).relaxing ==> s in input.order
  }

  lemma RousedDiligent(st: State, input: SweepInput, env: Env, banned: set<DeviceId>, t: nat)
    requires Inv(st) && Diligent(st, env.low, banned, t) && LegalEnv(env, env.low, banned, t)
    ensures Diligent(Roused(st, input.ghosts, input.expired, env), env.low, env.banned, env.now)
    ensures forall s :: s in Roused(st, input.ghosts, input.expired, env).wakeAt ==> Roused(st, input.ghosts, input.expired, env).wakeAt[s] > env.now
  {
    var marked := st.(lastReapAt := env.now);
    KeptAtOnce(st, env.low, env.now);
    BookkeepingKept(st, st, marked, {}, env.low, env.now);
    assert SameStory(st, marked) && Inv(marked);
    RemoveGhostsKept(st, marked, input.ghosts, env);
    RemoveGhostsKeeps(marked, input.ghosts, env);
    var reaped := Reaped(st, input.ghosts, env);
    assert Inv(reaped) && Kept(st, reaped, {}, env.low, env.now);
    RousedFromReaped(st, reaped, input, env, banned, t);
  }

  lemma RousedFromReaped(st: State, reaped: State, input: SweepInput, env: Env, banned: set<DeviceId>, t: nat)
    requires Diligent(st, env.low, banned, t) && LegalEnv(env, env.low, banned, t)
    requires reaped == Reaped(st, input.ghosts, env) && Inv(reaped) && Kept(st, reaped, {}, env.low, env.now)
    ensures Diligent(Roused(st, input.ghosts, input.expired, env), env.low, env.banned, env.now)
    ensures forall s :: s in Roused(st, input.ghosts, input.expired, env).wakeAt ==> Roused(st, input.ghosts, input.expired, env).wakeAt[s] > env.now
  {
    ExpireRoomsKept(st, reaped, input.expired, env);
    ExpireRoomsKeeps(reaped, input.expired, env);
    var expired := ExpireRooms(reaped, input.expired, env);
    PreparedDiligent(st, expired, env, banned, t);
    WakeLapsedDiligent(expired, env.low, env.banned, env.now);
    var woken := WakeLapsed(expired, env.now);
    KeptAtOnce(woken, env.low, env.now);
    BookkeepingKept(woken, woken, Roused(st, input.ghosts, input.expired, env), {}, env.low, env.now);
    KeptIsDiligent(woken, Roused(st, input.ghosts, input.expired, env), env.low, env.banned, env.now, env.now);
  }

  lemma SweepDiligent(st: State, input: SweepInput, env: Env, banned: set<DeviceId>, t: nat)
    requires Inv(st) && Diligent(st, env.low, banned, t) && LegalEnv(env, env.low, banned, t) && input.passAt >= env.now
    ensures Diligent(SweepPrepared(st, input, env), env.low, env.banned, env.now)
    ensures Diligent(SweepStep(st, input, env), env.low, env.banned, input.passAt)
  {
    RousedDiligent(st, input, env, banned, t);
    RelaxTickDiligent(Roused(st, input.ghosts, input.expired, env), input.order, env.low, env.banned, env.now);
    SweepPreparedKeeps(st, input, env);
    MatchPassDiligent(SweepPrepared(st, input, env), if RecheckDue(st, env) then RecheckPass else DirtyPass,
                      env.(now := input.passAt), env.banned, env.now);
  }

  /* ---------------------------------------------------------------- */
  /* Nobody is lost                                                    */
  /* ---------------------------------------------------------------- */

  /** The two waiting sessions could be matched at `now`: they fit at their real steps, unbanned and unblocked. */
  predicate Matchable(st: State, low: set<DeviceId>, banned: set<DeviceId>, s: SocketId, t: SocketId, now: nat) {
    && Waits(st, s) && Waits(st, t) && s != t
    && var a, b := st.sessions[s], st.sessions[t];
    && Fits(a.who, b.who, StepOf(Waiter(s, a), st.cfg.ladder, now, low), StepOf(Waiter(t, b), st.cfg.ladder, now, low))
    && a.who.deviceId !in banned && b.who.deviceId !in banned
    && var block := GetBlock(st.blocks, a.who.deviceId, b.who.deviceId, now);
       (block.Some? ==> block.value.until <= now)
  }

  ghost predicate WakesAfter(wakeAt: map<SocketId, nat>, now: nat) {
    forall s :: s in wakeAt ==> wakeAt[s] > now
  }

  lemma {:induction false} RowWakesAfter(bd: Board, i: nat, k: nat, taken: set<nat>, wake: map<SocketId, nat>, now: nat)
    requires bd.Valid() && i < |bd.waiting| && k <= |bd.waiting| && now <= bd.now && WakesAfter(wake, now)
    ensures WakesAfter(ScanRow(bd, i, k, taken, wake).wake, now)
    decreases |bd.waiting| - k
  {
    if k < |bd.waiting| {
      RowWakesAfter(bd, i, k + 1, taken, wake, now);
      if bd.BlockedUntil(i, k).Some? {
        RowWakesAfter(bd, i, k + 1, taken, Lower(wake, bd.waiting[i].socket, bd.BlockedUntil(i, k).value), now);
      }
    }
  }

  /** A scan only adds wake times that are still ahead. */
  lemma {:induction false} ScanWakesAfter(bd: Board, i: nat, taken: set<nat>, wake: map<SocketId, nat>, now: nat)
    requires bd.Valid() && i <= |bd.waiting| && now <= bd.now && WakesAfter(wake, now)
    ensures WakesAfter(Scan(bd, i, taken, wake).wake, now)
    decreases |bd.waiting| - i
  {
    if i < |bd.waiting| {
      if i in taken || bd.steps[i] == HELD {
        ScanWakesAfter(bd, i + 1, taken, wake, now);
      } else {
        var row := ScanRow(bd, i, i + 1, taken, wake);
        RowWakesAfter(bd, i, i + 1, taken, wake, now);
        ScanWakesAfter(bd, i + 1, if row.partner == None then taken else taken + {i, row.partner.value}, row.wake, now);
      }
    }
  }

  lemma RunScanWakesAfter(st: State, waiting: seq<Waiter>, focus: Option<set<SocketId>>, env: Env, now: nat)
    requires Inv(st) && Loaded(st, waiting) && now <= env.now && WakesAfter(st.wakeAt, now)
    ensures WakesAfter(RunScan(st, waiting, focus, env).wakeAt, now)
  {
    var bd := MakeBoard(st, waiting, focus, env);
    var scan := Scan(bd, 0, {}, st.wakeAt);
    var woken := st.(wakeAt := scan.wake);
    ScanWakesAfter(bd, 0, {}, st.wakeAt, now);
    ScanIsCreatable(bd, st.wakeAt);
    assert SameStory(st, woken) && Inv(woken) && Loaded(woken, waiting);
    CreateRoomsLeave(woken, waiting, scan.pairs, env);
  }

  lemma PassOverWakesAfter(st: State, mode: PassMode, waiting: seq<Waiter>, env: Env, now: nat)
    requires Inv(st) && Loaded(st, waiting) && |waiting| > 0 && DropStale(st.queue, st.sessions) == st.queue
    requires now <= env.now && WakesAfter(st.wakeAt, now)
    ensures WakesAfter(PassOver(st, mode, waiting, env).wakeAt, now)
  {
    var slice := RecheckSlice(|waiting|, st.cfg.recheckPairBudget, st.recheckCursor);
    var cursor := if mode == RecheckPass then slice.cursor else st.recheckCursor;
    var focus := if mode == RecheckPass then Some(st.dirty + SliceSockets(waiting, slice)) else if mode == WholePass then None else Some(st.dirty);
    var pruned := Pruned(st, mode, waiting).(recheckCursor := cursor);
    assert PassOver(st, mode, waiting, env) == RunScan(pruned, waiting, focus, env);
    assert SameStory(st, pruned) && Inv(pruned) && Loaded(pruned, waiting);
    RunScanWakesAfter(pruned, waiting, focus, env, now);
  }

  lemma MatchPassWakesAfter(st: State, mode: PassMode, env: Env, now: nat)
    requires Inv(st) && now <= env.now && WakesAfter(st.wakeAt, now)
    ensures WakesAfter(MatchPass(st, mode, env).wakeAt, now)
  {
    if env.open && !((mode == DirtyPass && st.dirty == {}) || |st.queue| < 2) {
      QueueIsLoaded(st);
      PassOverWakesAfter(st, mode, LoadWaiting(st.queue, st.sessions), env, now);
    }
  }

  lemma RealFitsAreRecordedFits(st: State, low: set<DeviceId>, s: SocketId, t: SocketId, now: nat, later: nat)
    requires Waits(st, s) && Waits(st, t) && LaddersFit(st, low, later) && CaughtUp(st, s, now) && CaughtUp(st, t, now)
    requires Fits(st.sessions[s].who, st.sessions[t].who, StepOf(Waiter(s, st.sessions[s]), st.cfg.ladder, now, low),
                  StepOf(Waiter(t, st.sessions[t]), st.cfg.ladder, now, low))
    ensures Fits(st.sessions[s].who, st.sessions[t].who, RecordedStep(st.relaxing, s), RecordedStep(st.relaxing, t))
  {
    var a, b := st.sessions[s], st.sessions[t];
    assert LadderFits(st.cfg.ladder, a, LadderOf(st.relaxing, s), low, later);
    assert LadderFits(st.cfg.ladder, b, LadderOf(st.relaxing, t), low, later);
    FitsIsMonotone(a.who, b.who, StepOf(Waiter(s, a), st.cfg.ladder, now, low), StepOf(Waiter(t, b), st.cfg.ladder, now, low),
                   RecordedStep(st.relaxing, s), RecordedStep(st.relaxing, t));
  }

  /** The two fit at `now` and are not banned. */
  predicate FitNow(st: State, low: set<DeviceId>, banned: set<DeviceId>, s: SocketId, t: SocketId, now: nat)
    requires Waits(st, s) && Waits(st, t)
  {
    && Fits(st.sessions[s].who, st.sessions[t].who, StepOf(Waiter(s, st.sessions[s]), st.cfg.ladder, now, low),
            StepOf(Waiter(t, st.sessions[t]), st.cfg.ladder, now, low))
    && st.sessions[s].who.deviceId !in banned && st.sessions[t].who.deviceId !in banned
  }

  /** With every waiter caught up and every wake time ahead, settled means not matchable now. */
  lemma SettledIsUnmatchable(st: State, low: set<DeviceId>, banned: set<DeviceId>, s: SocketId, t: SocketId, now: nat, later: nat)
    requires Diligent(st, low, banned, later) && st.dirty == {} && WakesAfter(st.wakeAt, now)
    requires forall x :: Waits(st, x) ==> CaughtUp(st, x, now)
    ensures !Matchable(st, low, banned, s, t, now)
  {
    if Waits(st, s) && Waits(st, t) && s != t && FitNow(st, low, banned, s, t, now) {
      RealFitsAreRecordedFits(st, low, s, t, now, later);
      assert Quiet(st, s) && Quiet(st, t) && Apart(st, banned, s, t);
      assert Parked(st.blocks, st.wakeAt, s, t, st.sessions[s].who.deviceId, st.sessions[t].who.deviceId);
    }
  }

  /**
   * After any sweep with matching open, no two sessions that still wait could
   * be matched at the sweep's clock, although its pass tried only pairs with a
   * dirty member.
   */
  lemma SweepLosesNobody(st: State, input: SweepInput, env: Env, banned: set<DeviceId>, t: nat, x: SocketId, y: SocketId)
    requires Inv(st) && Diligent(st, env.low, banned, t) && LegalEnv(env, env.low, banned, t)
    requires LegalSweep(st, input, env) && env.open
    ensures !Matchable(SweepStep(st, input, env), env.low, env.banned, x, y, env.now)
  {
    var prepared := SweepPrepared(st, input, env);
    var mode := if RecheckDue(st, env) then RecheckPass else DirtyPass;
    var later := env.(now := input.passAt);
    var st' := MatchPass(prepared, mode, later);
    RousedDiligent(st, input, env, banned, t);
    SweepDiligent(st, input, env, banned, t);
    SweepPreparedKeeps(st, input, env);
    TickedUp(Roused(st, input.ghosts, input.expired, env), input.order, env.now);
    MatchPassDiligent(prepared, mode, later, env.banned, env.now);
    MatchPassWakesAfter(prepared, mode, later, env.now);
    CaughtUpStays(prepared, st', env.now);
    SettledIsUnmatchable(st', env.low, env.banned, x, y, env.now, input.passAt);
  }

  lemma TickedUp(st: State, order: seq<SocketId>, now: nat)
    requires WakesAfter(st.wakeAt, now) && forall s :: s in st.relaxing ==> s in order
    ensures var ticked := RelaxTick(st, order, now); WakesAfter(ticked.wakeAt, now) && forall s :: CaughtUp(ticked, s, now)
  {
    RelaxTickCatchesUp(st, order, now, 0);
    forall s ensures CaughtUp(RelaxTick(st, order, now), s, now) {
      RelaxTickCatchesUp(st, order, now, s);
    }
  }

  lemma CaughtUpStays(st: State, st': State, now: nat)
    requires WaitersSame(st, st') && forall s :: CaughtUp(st, s, now)
    ensures forall s :: Waits(st', s) ==> CaughtUp(st', s, now)
  {
    forall s | Waits(st', s) ensures CaughtUp(st', s, now) {
      assert CaughtUp(st, s, now) && LadderOf(st'.relaxing, s) == LadderOf(st.relaxing, s);
    }
  }

  /* ---------------------------------------------------------------- */
  /* Whole runs                                                        */
  /* ---------------------------------------------------------------- */

  /** The clock a section has reached when it ends: a sweep reads it again for its pass. */
  function EndTime(ev: Event, env: Env): nat {
    if ev.Sweep? then ev.input.passAt else env.now
  }

  lemma StepDiligent(st: State, ev: Event, env: Env, banned: set<DeviceId>, t: nat)
    requires Inv(st) && Diligent(st, env.low, banned, t) && LegalEnv(env, env.low, banned, t)
    requires ev.Sweep? ==> ev.input.passAt >= env.now
    ensures Diligent(Step(st, ev, env), env.low, env.banned, EndTime(ev, env))
  {
    match ev
    case Hello(s, payload, answers) => HelloDiligent(st, s, payload, answers, env, banned, t);
    case UpdatePreferences(s, preferences) => UpdatePreferencesDiligent(st, s, preferences, env, banned, t);
    case Accept(s, r) => AcceptDiligent(st, s, r, env, banned, t);
    case Decline(s, r) => LeavingDiligent(st, ev, env, banned, t);
    case Skip(s, only) => LeavingDiligent(st, ev, env, banned, t);
    case Report(s, r, target) => ReportDiligent(st, s, r, target, env, banned, t);
    case Restrict(device, blocking) => RestrictDiligent(st, device, blocking, env, banned, t);
    case CallFailed(s, r) => LeavingDiligent(st, ev, env, banned, t);
    case Disconnect(s) => DisconnectDiligent(st, s, env, banned, t);
    case Sweep(input) => SweepDiligent(st, input, env, banned, t);
    case RunWholePass => MatchPassDiligent(st, WholePass, env, banned, t);
    case Shutdown(locals) => ShutdownDiligent(st, locals, env, banned, t);
    case Connected(_, _) => MarklessDiligent(st, ev, env, banned, t);
    case StartCall(_, _) => MarklessDiligent(st, ev, env, banned, t);
    case Aside(_, _) => MarklessDiligent(st, ev, env, banned, t);
    case Act(_, _) => MarklessDiligent(st, ev, env, banned, t);
  }

  lemma StartCallSame(st: State, task: nat, ready: bool, env: Env)
    ensures SameMarks(st, StartCallStep(st, task, ready, env))
  {
  }

  lemma MarklessSame(st: State, ev: Event, env: Env)
    requires ev.Connected? || ev.StartCall? || ev.Aside? || ev.Act?
    ensures SameMarks(st, Step(st, ev, env))
  {
    match ev
    case Connected(s, r) => assert SameMarks(st, ConnectedStep(st, s, r, env));
    case StartCall(task, ready) => StartCallSame(st, task, ready, env);
    case Aside(s, e) => assert SameMarks(st, Emit(st, s, e, env.now));
    case Act(s, act) => assert SameMarks(st, st.(out := st.out + [Acted(s, act)]));
  }

  /** Events that touch no session, mark or block. */
  lemma MarklessDiligent(st: State, ev: Event, env: Env, banned: set<DeviceId>, t: nat)
    requires Inv(st) && Diligent(st, env.low, banned, t) && LegalEnv(env, env.low, banned, t)
    requires ev.Connected? || ev.StartCall? || ev.Aside? || ev.Act?
    ensures Diligent(Step(st, ev, env), env.low, env.banned, env.now)
  {
    var st' := Step(st, ev, env);
    MarklessSame(st, ev, env);
    StepKeeps(st, ev, env);
    KeptAtOnce(st, env.low, env.now);
    BookkeepingKept(st, st, st', {}, env.low, env.now);
    PreparedDiligent(st, st', env, banned, t);
  }

  function BannedAfter(run: seq<(Event, Env)>): set<DeviceId> {
    if run == [] then {} else run[|run| - 1].1.banned
  }

  function TimeAfter(run: seq<(Event, Env)>): nat {
    if run == [] then 0 else EndTime(run[|run| - 1].0, run[|run| - 1].1)
  }

  /** One instance, a clock that does not run back, a fixed low-priority set, bans that only grow. */
  ghost predicate LegalRun(cfg: Config, run: seq<(Event, Env)>, low: set<DeviceId>) {
    run != [] ==>
      var n := |run| - 1;
      && LegalRun(cfg, run[..n], low)
      && LegalEnv(run[n].1, low, BannedAfter(run[..n]), TimeAfter(run[..n]))
      && (run[n].0.Sweep? ==> LegalSweep(Run(Init(cfg), run[..n]), run[n].0.input, run[n].1))
  }

  lemma {:induction false} EveryRunIsDiligent(cfg: Config, run: seq<(Event, Env)>, low: set<DeviceId>)
    requires LegalRun(cfg, run, low)
    ensures Diligent(Run(Init(cfg), run), low, BannedAfter(run), TimeAfter(run))
  {
    if run != [] {
      var n := |run| - 1;
      EveryRunIsDiligent(cfg, run[..n], low);
      EveryRunIsConsistent(cfg, run[..n]);
      StepDiligent(Run(Init(cfg), run[..n]), run[n].0, run[n].1, BannedAfter(run[..n]), TimeAfter(run[..n]));
    }
  }

  /** Over whole runs: a sweep with matching open leaves no two waiting sessions that could be matched. */
  lemma NobodyIsLost(cfg: Config, run: seq<(Event, Env)>, input: SweepInput, env: Env, low: set<DeviceId>, x: SocketId, y: SocketId)
    requires LegalRun(cfg, run, low) && LegalEnv(env, low, BannedAfter(run), TimeAfter(run))
    requires LegalSweep(Run(Init(cfg), run), input, env) && env.open
    ensures !Matchable(SweepStep(Run(Init(cfg), run), input, env), low, env.banned, x, y, env.now)
  {
    EveryRunIsDiligent(cfg, run, low);
    EveryRunIsConsistent(cfg, run);
    SweepLosesNobody(Run(Init(cfg), run), input, env, BannedAfter(run), TimeAfter(run), x, y);
  }
}
