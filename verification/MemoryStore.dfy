/**
 * The in-process store: the waiting queue kept in place, rooms with an index
 * of the pending ones, device bindings and pair blocks that are pruned once
 * they are forgotten.
 */
module MemoryStore {
  import opened Wrappers
  import opened Compatibility
  import opened Protocol
  import opened WaitingQueue
  import opened MatchModel

  /** The deadline of every room that is still pending. */
  function PendingOf(rooms: map<RoomId, Room>): map<RoomId, nat> {
    map r | r in rooms && !rooms[r].active :: rooms[r].expiresAt
  }

  /** `blocks` holds every block of `all` that is still remembered at `clock`, and invents none. */
  ghost predicate Prunes(blocks: map<(DeviceId, DeviceId), Block>, all: map<(DeviceId, DeviceId), Block>, clock: nat) {
    && (forall k :: k in blocks ==> k in all && blocks[k] == all[k])
    && (forall k :: k in all && k !in blocks ==> all[k].retainUntil <= clock)
  }

  /** Pruning is unobservable: as long as the clock does not run back, lookups answer as if nothing had been dropped. */
  lemma PrunedLooksTheSame(blocks: map<(DeviceId, DeviceId), Block>, all: map<(DeviceId, DeviceId), Block>, clock: nat,
                           a: DeviceId, b: DeviceId, now: nat)
    requires Prunes(blocks, all, clock) && now >= clock
    ensures MatchModel.GetBlock(blocks, a, b, now) == MatchModel.GetBlock(all, a, b, now)
  {
  }

  /** Blocks are dropped once in so many writes. */
  const PRUNE_EVERY_WRITES: nat := 1_000

  /** Binary search for the first index whose key is greater than `since`. */
  method FirstAfter(queue: seq<Entry>, since: nat) returns (lo: nat)
    requires Ordered(queue)
    ensures lo == Position(queue, since)
  {
    var hi := |queue|;
    lo := 0;
    while lo < hi
      invariant 0 <= lo <= hi <= |queue|
      invariant forall i :: 0 <= i < lo ==> queue[i].since <= since
      invariant forall i :: hi <= i < |queue| ==> queue[i].since > since
    {
      var mid := (lo + hi) / 2;
      assert forall i :: 0 <= i < mid ==> Follows(queue[i], queue[mid]);
      assert forall i :: mid < i < |queue| ==> Follows(queue[mid], queue[i]);
      if queue[mid].since <= since {
        lo := mid + 1;
      } else {
        hi := mid;
      }
    }
    PositionIs(queue, since, lo);
  }

  /** Binary search to the first entry whose key is at least `since`, then a scan of the equal run. */
  method IndexOf(queue: seq<Entry>, s: SocketId, since: nat) returns (i: nat)
    requires Ordered(queue) && Entry(s, since) in queue
    ensures i < |queue| && queue[i] == Entry(s, since)
  {
    ghost var p :| 0 <= p < |queue| && queue[p] == Entry(s, since);
    var lo, hi := 0, |queue|;
    while lo < hi
      invariant 0 <= lo <= hi <= |queue|
      invariant forall i :: 0 <= i < lo ==> queue[i].since < since
      invariant forall i :: hi <= i < |queue| ==> queue[i].since >= since
    {
      var mid := (lo + hi) / 2;
      assert forall i :: 0 <= i < mid ==> Follows(queue[i], queue[mid]);
      assert forall i :: mid < i < |queue| ==> Follows(queue[mid], queue[i]);
      if queue[mid].since < since {
        lo := mid + 1;
      } else {
        hi := mid;
      }
    }
    i := lo;
    while i < |queue| && queue[i].since == since && queue[i].socket != s
      invariant lo <= i <= p
    {
      i := i + 1;
    }
    assert i < p ==> Follows(queue[i], queue[p]);
  }

  /** Puts a room behind every one that expires no later. */
  function InsertByDeadline(rooms: seq<(RoomId, nat)>, r: RoomId, expiresAt: nat): seq<(RoomId, nat)> {
    if rooms == [] || rooms[0].1 > expiresAt then [(r, expiresAt)] + rooms
    else [rooms[0]] + InsertByDeadline(rooms[1..], r, expiresAt)
  }

  predicate DueBefore(x: (RoomId, nat), y: (RoomId, nat)) {
    x.1 <= y.1 && x.0 != y.0
  }

  ghost predicate ByDeadline(rooms: seq<(RoomId, nat)>) {
    forall i, j :: 0 <= i < j < |rooms| ==> DueBefore(rooms[i], rooms[j])
  }

  lemma ConsByDeadline(e: (RoomId, nat), rooms: seq<(RoomId, nat)>)
    requires ByDeadline(rooms) && forall x :: x in rooms ==> DueBefore(e, x)
    ensures ByDeadline([e] + rooms)
  {
    var r := [e] + rooms;
    forall i, j | 0 <= i < j < |r| ensures DueBefore(r[i], r[j]) {
      assert r[j] == rooms[j - 1];
      if i > 0 {
        assert r[i] == rooms[i - 1];
      }
    }
  }

  lemma ByDeadlineHead(rooms: seq<(RoomId, nat)>)
    requires ByDeadline(rooms) && rooms != []
    ensures ByDeadline(rooms[1..]) && forall x :: x in rooms[1..] ==> DueBefore(rooms[0], x)
  {
    var rest := rooms[1..];
    assert forall i :: 0 <= i < |rest| ==> rest[i] == rooms[i + 1];
    forall x | x in rest ensures DueBefore(rooms[0], x) {
      var k :| 0 <= k < |rest| && rest[k] == x;
      assert DueBefore(rooms[0], rooms[k + 1]);
    }
  }

  lemma {:induction false} InsertByDeadlineKeeps(rooms: seq<(RoomId, nat)>, r: RoomId, expiresAt: nat)
    requires ByDeadline(rooms) && forall e :: e in rooms ==> e.0 != r
    ensures ByDeadline(InsertByDeadline(rooms, r, expiresAt))
    ensures forall e :: e in InsertByDeadline(rooms, r, expiresAt) <==> e in rooms || e == (r, expiresAt)
  {
    if rooms == [] {
    } else {
      ByDeadlineHead(rooms);
      assert rooms == [rooms[0]] + rooms[1..] && forall e :: e in rooms[1..] ==> e in rooms;
      if rooms[0].1 <= expiresAt {
        InsertByDeadlineKeeps(rooms[1..], r, expiresAt);
        ConsByDeadline(rooms[0], InsertByDeadline(rooms[1..], r, expiresAt));
      } else {
        ConsByDeadline((r, expiresAt), rooms);
      }
    }
  }

  class MemoryStore {
    var sessions: map<SocketId, Session>
    var devices: map<DeviceId, SocketId>
    var waiting: seq<Entry>
    var waitingSince: map<SocketId, nat>
    var rooms: map<RoomId, Room>
    var pendingRooms: map<RoomId, nat>
    var blocks: map<(DeviceId, DeviceId), Block>
    var blockWrites: nat
    /** Every block ever set, and the latest time the store was asked about blocks. */
    ghost var allBlocks: map<(DeviceId, DeviceId), Block>
    ghost var clock: nat

    ghost predicate Valid()
      reads this
    {
      && Represents(waiting, waitingSince)
      && pendingRooms == PendingOf(rooms)
      && Prunes(blocks, allBlocks, clock)
    }

    constructor ()
      ensures Valid()
      ensures sessions == map[] && devices == map[] && waiting == [] && rooms == map[] && allBlocks == map[] && clock == 0
    {
      sessions, devices, waiting, waitingSince := map[], map[], [], map[];
      rooms, pendingRooms, blocks, blockWrites := map[], map[], map[], 0;
      allBlocks, clock := map[], 0;
    }

    method PutSession(s: SocketId, session: Session)
      modifies this`sessions
      ensures sessions == old(sessions)[s := session]
    {
      sessions := sessions[s := session];
    }

    method DeleteSession(s: SocketId)
      modifies this`sessions
      ensures sessions == old(sessions) - {s}
    {
      sessions := sessions - {s};
    }

    method SetDeviceSocket(device: DeviceId, s: SocketId)
      modifies this`devices
      ensures devices == old(devices)[device := s]
    {
      devices := devices[device := s];
    }

    /** Only the socket the device is bound to may unbind it. */
    method ClearDeviceSocket(device: DeviceId, s: SocketId)
      modifies this`devices
      ensures devices == Unbound(old(devices), device, s)
    {
      if device in devices && devices[device] == s {
        devices := devices - {device};
      }
    }

    /** In front of the first entry with a greater key: equal keys keep arrival order. */
    method AddWaiting(s: SocketId, since: nat)
      requires Valid()
      modifies this`waiting, this`waitingSince
      ensures Valid()
      ensures waiting == Add(old(waiting), s, since)
      ensures waitingSince == old(waitingSince)[s := since]
    {
      AddRepresents(waiting, waitingSince, s, since);
      RemoveFromQueue(s);
      var at := FirstAfter(waiting, since);
      waiting := waiting[..at] + [Entry(s, since)] + waiting[at..];
      waitingSince := waitingSince[s := since];
    }

    method RemoveFromQueue(s: SocketId)
      requires Valid()
      modifies this`waiting, this`waitingSince
      ensures Valid()
      ensures waiting == Without(old(waiting), s)
      ensures waitingSince == old(waitingSince) - {s}
    {
      if s !in waitingSince {
        WithoutNothing(waiting, s);
        return;
      }
      WithoutRepresents(waiting, waitingSince, s);
      assert Entry(s, waitingSince[s]) in waiting;
      var i := IndexOf(waiting, s, waitingSince[s]);
      SpliceIsWithout(waiting, i);
      waitingSince := waitingSince - {s};
      waiting := waiting[..i] + waiting[i + 1..];
    }

    /** Rooms stay indexed only while they are pending, so the expiry scan skips active ones. */
    method PutRoom(r: RoomId, room: Room)
      requires Valid()
      modifies this`rooms, this`pendingRooms
      ensures Valid() && rooms == old(rooms)[r := room]
    {
      rooms := rooms[r := room];
      if !room.active {
        pendingRooms := pendingRooms[r := room.expiresAt];
      } else {
        pendingRooms := pendingRooms - {r};
      }
    }

    method DeleteRoom(r: RoomId)
      requires Valid()
      modifies this`rooms, this`pendingRooms
      ensures Valid() && rooms == old(rooms) - {r}
    {
      rooms := rooms - {r};
      pendingRooms := pendingRooms - {r};
    }

    /** Exactly the pending rooms whose deadline has passed, earliest deadline first. */
    method ListExpiredPendingRooms(cutoff: int) returns (expired: seq<RoomId>)
      requires Valid()
      ensures forall r :: r in expired <==> r in rooms && !rooms[r].active && rooms[r].expiresAt <= cutoff
      ensures forall i, j :: 0 <= i < j < |expired| ==> expired[i] != expired[j]
      ensures forall i, j :: 0 <= i < j < |expired| && expired[i] in rooms && expired[j] in rooms ==>
                rooms[expired[i]].expiresAt <= rooms[expired[j]].expiresAt
    {
      var found: seq<(RoomId, nat)> := [];
      var rest := pendingRooms.Keys;
      while rest != {}
        invariant rest <= pendingRooms.Keys
        invariant ByDeadline(found)
        invariant forall e :: e in found <==> e.0 in pendingRooms && e.0 !in rest && e.1 == pendingRooms[e.0] && e.1 <= cutoff
      {
        var r :| r in rest;
        if pendingRooms[r] <= cutoff {
          InsertByDeadlineKeeps(found, r, pendingRooms[r]);
          found := InsertByDeadline(found, r, pendingRooms[r]);
        }
        rest := rest - {r};
      }
      expired := seq(|found|, i requires 0 <= i < |found| => found[i].0);
      forall r ensures r in expired <==> r in rooms && !rooms[r].active && rooms[r].expiresAt <= cutoff {
        if r in expired {
          var i :| 0 <= i < |expired| && expired[i] == r;
          assert found[i] in found;
        }
        if r in pendingRooms && pendingRooms[r] <= cutoff {
          assert (r, pendingRooms[r]) in found;
          var i :| 0 <= i < |found| && found[i] == (r, pendingRooms[r]);
          assert expired[i] == r;
        }
      }
      forall i, j | 0 <= i < j < |expired| ensures rooms[expired[i]].expiresAt <= rooms[expired[j]].expiresAt {
        assert found[i] in found && found[j] in found;
      }
    }

    /** Reading a forgotten block drops it. */
    method GetBlock(a: DeviceId, b: DeviceId, now: nat) returns (block: Option<Block>)
      requires Valid() && now >= clock
      modifies this`blocks, this`clock
      ensures Valid() && clock == now
      ensures block == MatchModel.GetBlock(allBlocks, a, b, now)
    {
      PrunedLooksTheSame(blocks, allBlocks, clock, a, b, now);
      var key := PairKey(a, b);
      clock := now;
      if key !in blocks {
        return None;
      }
      if blocks[key].retainUntil <= now {
        blocks := blocks - {key};
        return None;
      }
      return Some(blocks[key]);
    }

    /** Writing a block drops all forgotten ones every so often. */
    method SetBlock(a: DeviceId, b: DeviceId, block: Block, now: nat)
      requires Valid() && now >= clock
      modifies this`blocks, this`blockWrites, this`allBlocks, this`clock
      ensures Valid() && clock == now
      ensures allBlocks == old(allBlocks)[PairKey(a, b) := block]
    {
      clock := now;
      allBlocks := allBlocks[PairKey(a, b) := block];
      blocks := blocks[PairKey(a, b) := block];
      blockWrites := blockWrites + 1;
      if blockWrites % PRUNE_EVERY_WRITES == 0 {
        blocks := map k | k in blocks && blocks[k].retainUntil > now :: blocks[k];
      }
    }
  }
}
