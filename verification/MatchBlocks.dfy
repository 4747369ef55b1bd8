/**
 * How long a parted pair stays apart, field by field: which event blocks whom,
 * for how long, and how long the record is remembered after that.
 */
module MatchBlocks {
  import opened Wrappers
  import opened Compatibility
  import opened Protocol
  import opened Greedy
  import opened MatchModel
  import opened MatchInvariant
  import opened MatchSteps
  import opened MatchEffects
  import opened MatchFocus

  /** The store keeps one record for a pair, whichever way round it is named. */
  lemma KeyIsThePair(a: DeviceId, b: DeviceId, c: DeviceId, d: DeviceId)
    ensures PairKey(a, b) == PairKey(c, d) <==> (a == c && b == d) || (a == d && b == c)
  {
  }

  /** What is remembered of the pair, if anything still is. */
  predicate Recalls(st: State, a: DeviceId, b: DeviceId, now: nat) {
    PairKey(a, b) in st.blocks && st.blocks[PairKey(a, b)].retainUntil > now
  }

  function SkipsSoFar(st: State, a: DeviceId, b: DeviceId, now: nat): nat {
    if Recalls(st, a, b, now) then st.blocks[PairKey(a, b)].skipCount else 0
  }

  /** The pair, and no other, is blocked for `ms` from now, or for longer if it was; the record outlives the block by a day. */
  predicate BlockedFor(st: State, st': State, a: DeviceId, b: DeviceId, ms: nat, skips: nat, now: nat) {
    var key := PairKey(a, b);
    && key in st'.blocks && st'.blocks == st.blocks[key := st'.blocks[key]]
    && var block := st'.blocks[key];
    && block.skipCount == skips
    && now + ms <= block.until
    && (if Recalls(st, a, b, now) && st.blocks[key].until > now + ms then block.until == st.blocks[key].until else block.until == now + ms)
    && block.retainUntil == block.until + 24 * 60 * 60_000
  }

  lemma BlockPairBlocks(st: State, a: DeviceId, b: DeviceId, ms: nat, escalate: bool, now: nat)
    ensures var skips := SkipsSoFar(st, a, b, now);
      BlockedFor(st, BlockPair(st, a, b, ms, escalate, now), a, b,
                 if escalate then st.cfg.skipBlockMs * (skips + 1) else ms, if escalate then skips + 1 else skips, now)
  {
  }

  lemma {:induction false} CreateRoomsKeepsBlocks(st: State, waiting: seq<Waiter>, pairs: seq<Pairing>, env: Env)
    ensures CreateRooms(st, waiting, pairs, env).blocks == st.blocks
  {
    if pairs != [] {
      CreateRoomsKeepsBlocks(st, waiting, pairs[..|pairs| - 1], env);
    }
  }

  lemma PassKeepsBlocks(st: State, mode: PassMode, env: Env)
    requires Inv(st)
    ensures MatchPass(st, mode, env).blocks == st.blocks
  {
    if NoScan(st, mode, env) {
    } else {
      PassIsScan(st, mode, env);
      ScannedIsLoaded(st, mode);
      var from := ScanFrom(st, mode);
      var scan := Scan(MakeBoard(from, Loads(st), ScanFocus(st, mode), env), 0, {}, from.wakeAt);
      CreateRoomsKeepsBlocks(from.(wakeAt := scan.wake), Loads(st), scan.pairs, env);
    }
  }

  lemma EndKeepsBlocks(st: State, r: RoomId, s: SocketId, mine: EndReason, theirs: EndReason, env: Env)
    requires Inv(st) && r in st.rooms
    ensures EndRoomOf(st, r, s, Some(mine), Some(theirs), env).blocks == st.blocks
  {
    var (reasonA, reasonB) := ReasonsFor(st.rooms[r], s, Some(mine), Some(theirs));
    assert RoomOk(st.sessions, r, st.rooms[r]);
    EndRoomFrame(st, r, reasonA, reasonB, env);
  }

  /** A room's pair is parted for `ms`. */
  predicate PartedFor(st: State, st': State, r: RoomId, ms: nat, now: nat)
    requires r in st.rooms
  {
    var room := st.rooms[r];
    BlockedFor(st, st', room.deviceA, room.deviceB, ms, SkipsSoFar(st, room.deviceA, room.deviceB, now), now)
  }

  /** A room's pair is parted by a skip: as many times `ms` as the two have skipped each other, this time included. */
  predicate SkippedFor(st: State, st': State, r: RoomId, ms: nat, now: nat)
    requires r in st.rooms
  {
    var room := st.rooms[r];
    var skips := SkipsSoFar(st, room.deviceA, room.deviceB, now) + 1;
    BlockedFor(st, st', room.deviceA, room.deviceB, ms * skips, skips, now)
  }

  lemma PartingBlocks(st: State, r: RoomId, s: SocketId, ms: nat, escalate: bool, mine: EndReason, theirs: EndReason, env: Env)
    requires Inv(st) && r in st.rooms
    ensures var st' := MatchPass(BlockedAndEnded(st, r, s, ms, escalate, mine, theirs, env), DirtyPass, env);
      if escalate then SkippedFor(st, st', r, st.cfg.skipBlockMs, env.now) else PartedFor(st, st', r, ms, env.now)
  {
    var room := st.rooms[r];
    var blocked := BlockPair(st, room.deviceA, room.deviceB, ms, escalate, env.now);
    BlockPairBlocks(st, room.deviceA, room.deviceB, ms, escalate, env.now);
    BlockedKeeps(st, r, ms, escalate, env.now);
    EndKeepsBlocks(blocked, r, s, mine, theirs, env);
    EndRoomOfKeeps(blocked, r, s, mine, theirs, env);
    PassKeepsBlocks(BlockedAndEnded(st, r, s, ms, escalate, mine, theirs, env), DirtyPass, env);
  }

  predicate InRoom(st: State, s: SocketId, r: RoomId) {
    s in st.sessions && st.sessions[s].roomId == Some(r) && r in st.rooms && (st.rooms[r].a == s || st.rooms[r].b == s)
  }

  ghost predicate PartsBy(st: State, ev: Event, s: SocketId, r: RoomId, ms: nat, escalate: bool, mine: EndReason, theirs: EndReason, env: Env)
    requires r in st.rooms
  {
    Step(st, ev, env) == MatchPass(BlockedAndEnded(st, r, s, ms, escalate, mine, theirs, env), DirtyPass, env)
  }

  lemma PartingSteps(st: State, ev: Event, s: SocketId, r: RoomId, env: Env)
    requires InRoom(st, s, r)
    ensures ev == Decline(s, r) && !st.rooms[r].active ==>
      PartsBy(st, ev, s, r, st.cfg.declineBlockMs, false, Declined, PartnerDeclined, env)
    ensures ev == Skip(s, None) || ev == Skip(s, Some(r)) ==>
      PartsBy(st, ev, s, r, 0, true, Skipped, PartnerSkipped, env)
    ensures ev.Report? && ev.s == s && ev.r == r ==>
      PartsBy(st, ev, s, r, st.cfg.reportBlockMs, false, Reported, PartnerSkipped, env)
    ensures ev == CallFailed(s, r) && st.rooms[r].active ==>
      PartsBy(st, ev, s, r, st.cfg.declineBlockMs, false, ConnectionFailed, ConnectionFailed, env)
  {
  }

  /** A declined offer, and a failed call, part their pair for the decline time. */
  lemma DeclineBlocks(st: State, s: SocketId, r: RoomId, env: Env)
    requires Inv(st) && InRoom(st, s, r)
    ensures PartedFor(st, Step(st, if st.rooms[r].active then CallFailed(s, r) else Decline(s, r), env), r, st.cfg.declineBlockMs, env.now)
  {
    var reason := if st.rooms[r].active then ConnectionFailed else Declined;
    PartingSteps(st, if st.rooms[r].active then CallFailed(s, r) else Decline(s, r), s, r, env);
    PartingBlocks(st, r, s, st.cfg.declineBlockMs, false, reason, if st.rooms[r].active then reason else PartnerDeclined, env);
  }

  /** A skip parts it for as many times the skip time as the two have skipped each other, this time included. */
  lemma SkipBlocks(st: State, s: SocketId, r: RoomId, only: Option<RoomId>, env: Env)
    requires Inv(st) && InRoom(st, s, r) && (only == None || only == Some(r))
    ensures SkippedFor(st, Step(st, Skip(s, only), env), r, st.cfg.skipBlockMs, env.now)
  {
    PartingSteps(st, Skip(s, only), s, r, env);
    PartingBlocks(st, r, s, 0, true, Skipped, PartnerSkipped, env);
  }

  /** A report of a live room parts it for the report time. */
  lemma ReportBlocks(st: State, s: SocketId, r: RoomId, target: (DeviceId, DeviceId), env: Env)
    requires Inv(st) && InRoom(st, s, r)
    ensures PartedFor(st, Step(st, Report(s, r, target), env), r, st.cfg.reportBlockMs, env.now)
  {
    PartingSteps(st, Report(s, r, target), s, r, env);
    PartingBlocks(st, r, s, st.cfg.reportBlockMs, false, Reported, PartnerSkipped, env);
  }

  /** A late one parts the pair it names as long. */
  lemma LateReportBlocks(st: State, s: SocketId, r: RoomId, a: DeviceId, b: DeviceId, env: Env)
    requires !InRoom(st, s, r)
    ensures BlockedFor(st, Step(st, Report(s, r, (a, b)), env), a, b, st.cfg.reportBlockMs, SkipsSoFar(st, a, b, env.now), env.now)
  {
    BlockPairBlocks(st, a, b, st.cfg.reportBlockMs, false, env.now);
  }

  /** An offer that nobody took in time parts it for the decline time. */
  lemma ExpiryBlocks(st: State, r: RoomId, env: Env)
    requires Inv(st) && r in st.rooms && !st.rooms[r].active
    ensures PartedFor(st, ExpireRoom(st, r, env), r, st.cfg.declineBlockMs, env.now)
  {
    var room := st.rooms[r];
    var blocked := BlockPair(st, room.deviceA, room.deviceB, st.cfg.declineBlockMs, false, env.now);
    BlockPairBlocks(st, room.deviceA, room.deviceB, st.cfg.declineBlockMs, false, env.now);
    BlockedKeeps(st, r, st.cfg.declineBlockMs, false, env.now);
    assert RoomOk(blocked.sessions, r, blocked.rooms[r]);
    EndRoomFrame(blocked, r, ExpiredReason(room.acceptedA), ExpiredReason(room.acceptedB), env);
  }
}
