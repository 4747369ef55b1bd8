/**
 * Who is put together, said field by field: a room joins two devices whose
 * filters let each other in, that the ladder lets meet, neither banned nor
 * blocked; and two waiters like that are matchable.
 */
module MatchRules {
  import opened Wrappers
  import opened Compatibility
  import opened Protocol
  import opened MatchModel
  import opened MatchInvariant
  import opened MatchSteps
  import opened MatchComplete
  import opened MatchEffects
  import opened MatchRooms

  /** How long a waiting session has been on the ladder. */
  function WaitOf(session: Session, ladder: Ladder, low: set<DeviceId>, now: nat): int
    requires session.waitingSince.Some?
  {
    OnLadder(now - session.waitingSince.value, ladder, session.who.deviceId in low)
  }

  /** Both wait, the rules let them meet at `now`, neither is banned and no block between them is in force. */
  ghost predicate MayBePaired(st: State, low: set<DeviceId>, banned: set<DeviceId>, s: SocketId, t: SocketId, now: nat) {
    && s in st.sessions && t in st.sessions
    && var a, b := st.sessions[s], st.sessions[t];
    && a.state == Waiting && b.state == Waiting && a.waitingSince.Some? && b.waitingSince.Some?
    && MayMeet(a.who, b.who, WaitOf(a, st.cfg.ladder, low, now), WaitOf(b, st.cfg.ladder, low, now), st.cfg.ladder)
    && a.who.deviceId !in banned && b.who.deviceId !in banned
    && var block := GetBlock(st.blocks, a.who.deviceId, b.who.deviceId, now);
       (block.Some? ==> block.value.until <= now)
  }

  /** The matcher's own test of two waiters is exactly these rules. */
  lemma MatchableIff(st: State, low: set<DeviceId>, banned: set<DeviceId>, s: SocketId, t: SocketId, now: nat)
    requires Inv(st)
    ensures Matchable(st, low, banned, s, t, now) <==> MayBePaired(st, low, banned, s, t, now)
  {
    if s in st.sessions && t in st.sessions && st.sessions[s].state == Waiting && st.sessions[t].state == Waiting {
      var a, b := st.sessions[s], st.sessions[t];
      assert SessionOk(st.rooms, s, a) && SessionOk(st.rooms, t, b);
      FitsIff(a.who, b.who, now - a.waitingSince.value, now - b.waitingSince.value,
              a.who.deviceId in low, b.who.deviceId in low, st.cfg.ladder);
    }
  }

  /** A pass puts together only such pairs: every room that is new after it joins one. */
  lemma PassFollowsRules(st: State, mode: PassMode, env: Env, r: RoomId)
    requires Inv(st) && r in MatchPass(st, mode, env).rooms && r !in st.rooms
    ensures var room := MatchPass(st, mode, env).rooms[r];
      && MayBePaired(st, env.low, env.banned, room.a, room.b, env.now)
      && room.deviceA == st.sessions[room.a].who.deviceId && room.deviceB == st.sessions[room.b].who.deviceId
  {
    var room := MatchPass(st, mode, env).rooms[r];
    PassCreatesOnlyMatched(st, mode, env);
    assert MatchedByPass(st, room, env);
    MatchableIff(st, env.low, env.banned, room.a, room.b, env.now);
  }

  /* ---------------------------------------------------------------- */
  /* Every event                                                       */
  /* ---------------------------------------------------------------- */

  /**
   * In every run, whatever the event: each room it brings joins two sessions
   * that, when its pass began, the rules let be paired at the pass's clock.
   */
  lemma EveryRoomFollowsRules(cfg: Config, run: seq<(Event, Env)>, ev: Event, env: Env, r: RoomId)
    requires var st := Run(Init(cfg), run); r in Step(st, ev, env).rooms && r !in st.rooms
    ensures var st := Run(Init(cfg), run);
      && PassStart(st, ev, env).Some?
      && var start, room := PassStart(st, ev, env).value, Step(st, ev, env).rooms[r];
      && MayBePaired(start.st, env.low, env.banned, room.a, room.b, start.env.now)
      && room.deviceA == start.st.sessions[room.a].who.deviceId && room.deviceB == start.st.sessions[room.b].who.deviceId
  {
    var st := Run(Init(cfg), run);
    EveryRunIsConsistent(cfg, run);
    if PassStart(st, ev, env) == None {
      PasslessBringsNone(st, ev, env);
      assert false;
    }
    var start := PassStart(st, ev, env).value;
    StartOnlyEnds(st, ev, env);
    StepIsPass(st, ev, env);
    PassFollowsRules(start.st, start.mode, start.env, r);
  }

  lemma AcceptBringsNone(st: State, s: SocketId, r: RoomId, env: Env)
    requires Inv(st)
    ensures AcceptStep(st, s, r, env).rooms.Keys == st.rooms.Keys
  {
    if MemberOf(st, s, r) && !st.rooms[r].active {
      assert RoomOk(st.sessions, r, st.rooms[r]);
      AcceptLeaves(st, s, r, env);
    }
  }

  lemma PasslessBringsNone(st: State, ev: Event, env: Env)
    requires Inv(st) && PassStart(st, ev, env) == None
    ensures Step(st, ev, env).rooms.Keys == st.rooms.Keys
  {
    match ev
    case Accept(s, r) => AcceptBringsNone(st, s, r, env);
    case Connected(s, r) => ConnectedEffect(st, s, r, env);
    case _ => PasslessRooms(st, ev, env);
  }
}
