/**
 * Which side of a call each browser takes: in every run the older waiter's
 * client is the initiator and the younger one's is not.
 */
module MatchRoles {
  import opened Wrappers
  import opened Protocol
  import opened MatchModel
  import opened MatchInvariant
  import opened MatchSteps
  import opened MatchTrace
  import opened MatchClients
  import opened Signaling

  /** A client in a call holds the role that the call:start of its room gave it. */
  predicate HoldsRole(trace: seq<Item>, s: SocketId) {
    var c := Client(trace, s);
    c.status == InCall ==>
      c.roomId.Some? && c.initiator.Some? && PhaseOf(trace, c.roomId.value, s) == Started(c.initiator.value)
  }

  /** No event but a call:start brings a client into a call or changes its role there. */
  lemma StaysInCall(c: ClientState, e: ServerEvent, at: nat)
    requires Receive(c, e, at).status == InCall && !e.CallStart?
    ensures c.status == InCall && Receive(c, e, at).roomId == c.roomId && Receive(c, e, at).initiator == c.initiator
    ensures !(e.MatchEnded? && Some(e.room) == c.roomId)
  {
    if e.MatchFound? || e.MatchEnded? || e.QueueWaiting? {
      RoomNewsLeaveCall(c, e, at);
    }
  }

  lemma RoomNewsLeaveCall(c: ClientState, e: ServerEvent, at: nat)
    requires e.MatchFound? || e.MatchEnded? || e.QueueWaiting?
    requires Receive(c, e, at).status == InCall
    ensures e.MatchEnded? && Some(e.room) != c.roomId && Receive(c, e, at) == c
  {
  }

  lemma PhaseStays(c: ClientState, e: ServerEvent, at: nat, p: Phase, r: RoomId)
    requires Receive(c, e, at).status == InCall && !e.CallStart? && c.roomId == Some(r) && p.Started? && Next(p, e, r) != Broken
    ensures Next(p, e, r) == p
  {
  }

  lemma StartGivesRole(c: ClientState, room: RoomId, initiator: bool, at: nat, p: Phase, r: RoomId)
    requires var c' := Receive(c, CallStart(room, initiator), at); c'.status == InCall && c'.roomId == Some(r)
    requires c.status == InCall && c.roomId == Some(r) ==> c.initiator.Some? && p == Started(c.initiator.value)
    requires Next(p, CallStart(room, initiator), r) != Broken
    ensures var c' := Receive(c, CallStart(room, initiator), at);
      c'.initiator.Some? && Next(p, CallStart(room, initiator), r) == Started(c'.initiator.value)
  {
  }

  lemma EventKeepsRole(trace: seq<Item>, s: SocketId, e: ServerEvent, at: nat)
    requires HoldsRole(trace, s) && forall r: RoomId :: PhaseOf(trace + [Sent(s, e, at)], r, s) != Broken
    ensures HoldsRole(trace + [Sent(s, e, at)], s)
  {
    var item := Sent(s, e, at);
    var c, c' := Client(trace, s), Client(trace + [item], s);
    ClientHears(trace, s, e, at);
    if c'.status == InCall {
      if e.CallStart? {
        StartIsRoomed(c, e.room, e.initiator, at);
      } else {
        StaysInCall(c, e, at);
      }
      var r := c'.roomId.value;
      PhaseSnoc(trace, item, r, s);
      assert PhaseOf(trace + [item], r, s) != Broken;
      if e.CallStart? {
        StartGivesRole(c, e.room, e.initiator, at, PhaseOf(trace, r, s), r);
      } else {
        PhaseStays(c, e, at, PhaseOf(trace, r, s), r);
      }
    }
  }

  lemma StartIsRoomed(c: ClientState, room: RoomId, initiator: bool, at: nat)
    requires Receive(c, CallStart(room, initiator), at).status == InCall && (c.status == InCall ==> c.roomId.Some?)
    ensures Receive(c, CallStart(room, initiator), at).roomId.Some?
  {
  }

  lemma ActsKeepRole(c: ClientState, act: ClientAct)
    requires Do(c, act).status == InCall
    ensures c.status == InCall && Do(c, act).roomId == c.roomId && Do(c, act).initiator == c.initiator
  {
  }

  lemma ActKeepsRole(trace: seq<Item>, s: SocketId, act: ClientAct)
    requires HoldsRole(trace, s)
    ensures HoldsRole(trace + [Acted(s, act)], s)
  {
    ClientSnoc(trace, Acted(s, act), s);
    var c := Client(trace, s);
    if Do(c, act).status == InCall {
      ActsKeepRole(c, act);
      PhaseSnoc(trace, Acted(s, act), c.roomId.value, s);
    }
  }

  lemma OthersKeepRole(trace: seq<Item>, item: Item, s: SocketId)
    requires HoldsRole(trace, s) && item.to != s
    ensures HoldsRole(trace + [item], s)
  {
    ClientSnoc(trace, item, s);
    var c := Client(trace, s);
    if c.roomId.Some? {
      PhaseSnoc(trace, item, c.roomId.value, s);
    }
  }

  lemma BrokenStays(trace: seq<Item>, item: Item, r: RoomId, s: SocketId)
    requires PhaseOf(trace + [item], r, s) != Broken
    ensures PhaseOf(trace, r, s) != Broken
  {
    PhaseSnoc(trace, item, r, s);
  }

  lemma {:induction false} EveryTraceHoldsRole(trace: seq<Item>, s: SocketId)
    requires forall r: RoomId :: PhaseOf(trace, r, s) != Broken
    ensures HoldsRole(trace, s)
  {
    if trace != [] {
      var first, item := trace[..|trace| - 1], trace[|trace| - 1];
      assert trace == first + [item];
      forall r: RoomId ensures PhaseOf(first, r, s) != Broken {
        BrokenStays(first, item, r, s);
      }
      EveryTraceHoldsRole(first, s);
      if item.to != s {
        OthersKeepRole(first, item, s);
      } else if item.Sent? {
        EventKeepsRole(first, s, item.event, item.at);
      } else {
        ActKeepsRole(first, s, item.act);
      }
    }
  }

  /** In every run a client that is in the call of a stored room is its initiator exactly if it is the older waiter. */
  lemma InCallRole(cfg: Config, run: seq<(Event, Env)>, r: RoomId, s: SocketId)
    requires var st := Run(Init(cfg), run);
      && r in st.rooms && (s == st.rooms[r].a || s == st.rooms[r].b)
      && Client(st.out, s).status == InCall && Client(st.out, s).roomId == Some(r)
    ensures var st := Run(Init(cfg), run); Client(st.out, s).initiator == Some(s == st.rooms[r].a)
  {
    var st := Run(Init(cfg), run);
    EveryRunIsOrderly(cfg, run);
    EveryRunIsConsistent(cfg, run);
    assert RoomInPhase(st.out, r, st.rooms[r]) && RoomOk(st.sessions, r, st.rooms[r]);
    EveryTraceHoldsRole(st.out, s);
    RoleFitsRoom(st.out, r, st.rooms[r], s);
  }

  lemma RoleFitsRoom(trace: seq<Item>, r: RoomId, room: Room, s: SocketId)
    requires PhasesFit(room, PhaseOf(trace, r, room.a), PhaseOf(trace, r, room.b)) && HoldsRole(trace, s)
    requires room.a != room.b && (s == room.a || s == room.b)
    requires Client(trace, s).status == InCall && Client(trace, s).roomId == Some(r)
    ensures Client(trace, s).initiator == Some(s == room.a)
  {
  }

  /**
   * In every run of browsers that say hello only on connect or from idle: when
   * both members of a room are in a call, it is that room's, and the client of
   * the older waiter is the initiator and the other one is not.
   */
  lemma OneInitiatorInEveryCall(cfg: Config, run: seq<(Event, Env)>, r: RoomId)
    requires PoliteRun(cfg, run)
    requires var st := Run(Init(cfg), run);
      r in st.rooms && Client(st.out, st.rooms[r].a).status == InCall && Client(st.out, st.rooms[r].b).status == InCall
    ensures var st := Run(Init(cfg), run);
      var a, b := Client(st.out, st.rooms[r].a), Client(st.out, st.rooms[r].b);
      && a.roomId == b.roomId == Some(r) && st.rooms[r].active
      && a.initiator == Some(true) && b.initiator == Some(false)
  {
    var st := Run(Init(cfg), run);
    var room := st.rooms[r];
    EveryRunIsConsistent(cfg, run);
    ClientsAgreeInEveryRun(cfg, run);
    assert RoomOk(st.sessions, r, room);
    assert Seated(Client(st.out, room.a), st.sessions[room.a]) && Seated(Client(st.out, room.b), st.sessions[room.b]);
    assert SessionOk(st.rooms, room.a, st.sessions[room.a]);
    InCallRole(cfg, run, r, room.a);
    InCallRole(cfg, run, r, room.b);
  }
}
