/**
 * Rewards over whole runs of the matcher: what the sweeps of a socket's
 * instance see is a schedule that rewards telescope over.
 */
module MatchRewards {
  import opened Wrappers
  import opened Protocol
  import opened MatchModel
  import opened MatchInvariant
  import opened MatchSteps
  import opened MatchComplete
  import opened MatchRooms
  import Rewards

  /** What the reward tick reads of socket `s`. */
  function ViewOf(st: State, s: SocketId): Rewards.View {
    if s !in st.sessions then Rewards.NoSession
    else
      var session := st.sessions[s];
      if session.state != Active || session.roomId == None then Rewards.NotInCall
      else
        var r := session.roomId.value;
        Rewards.InCall(r, if r in st.rooms then st.rooms[r].connectedSince else None)
  }

  /** A tick: after how many events of the run it came, and the clock it read. */
  datatype Glimpse = Glimpse(moment: nat, now: nat)

  function Moment(cfg: Config, run: seq<(Event, Env)>, moment: nat): State
    requires moment <= |run|
  {
    Run(Init(cfg), run[..moment])
  }

  /** Ticks come in order, and no clock runs back. */
  ghost predicate InOrder(run: seq<(Event, Env)>, glimpses: seq<Glimpse>) {
    && (forall i :: 0 <= i < |glimpses| ==> glimpses[i].moment <= |run|)
    && (forall i, j :: 0 <= i < j < |glimpses| ==> glimpses[i].moment <= glimpses[j].moment && glimpses[i].now <= glimpses[j].now)
    && (forall i, k :: 0 <= i < |glimpses| && 0 <= k < glimpses[i].moment ==> EndTime(run[k].0, run[k].1) <= glimpses[i].now)
  }

  function SightAt(cfg: Config, run: seq<(Event, Env)>, s: SocketId, g: Glimpse): Rewards.Sight
    requires g.moment <= |run|
  {
    Rewards.Sight(g.now, ViewOf(Moment(cfg, run, g.moment), s))
  }

  function Sights(cfg: Config, run: seq<(Event, Env)>, s: SocketId, glimpses: seq<Glimpse>): seq<Rewards.Sight>
    requires forall i :: 0 <= i < |glimpses| ==> glimpses[i].moment <= |run|
  {
    seq(|glimpses|, i requires 0 <= i < |glimpses| => SightAt(cfg, run, s, glimpses[i]))
  }

  /** A session in a call is a member of its active room. */
  lemma SeenIsMember(st: State, s: SocketId, r: RoomId)
    requires Inv(st) && ViewOf(st, s).InCall? && ViewOf(st, s).room == r
    ensures r in st.rooms && st.rooms[r].active && (st.rooms[r].a == s || st.rooms[r].b == s) && r < st.nextRoom
    ensures ViewOf(st, s).connectedSince == st.rooms[r].connectedSince
  {
    assert SessionOk(st.rooms, s, st.sessions[s]);
  }

  /** And every member of an active room is in that call. */
  lemma MemberIsSeen(st: State, s: SocketId, r: RoomId)
    requires Inv(st) && r in st.rooms && st.rooms[r].active && (st.rooms[r].a == s || st.rooms[r].b == s)
    ensures ViewOf(st, s) == Rewards.InCall(r, st.rooms[r].connectedSince)
  {
    assert RoomOk(st.sessions, r, st.rooms[r]);
    assert SessionOk(st.rooms, s, st.sessions[s]);
  }

  /** Seen in a room at two moments, a session was in it in between: a room that ended never returns. */
  lemma SeenInBetween(st: State, mid: State, st': State, s: SocketId, r: RoomId, until: Option<nat>, until': Option<nat>)
    requires Inv(st) && Inv(mid) && Inv(st') && Onward(st, mid, until) && Onward(mid, st', until')
    requires ViewOf(st, s).InCall? && ViewOf(st, s).room == r && ViewOf(st', s).InCall? && ViewOf(st', s).room == r
    ensures ViewOf(mid, s).InCall? && ViewOf(mid, s).room == r
  {
    SeenIsMember(st, s, r);
    SeenIsMember(st', s, r);
    assert Later(mid, st', r, until');
    assert Later(st, mid, r, until);
    MemberIsSeen(mid, s, r);
  }

  lemma ConnectionStays(st: State, st': State, s: SocketId, r: RoomId, until: Option<nat>)
    requires Inv(st) && Inv(st') && Onward(st, st', until)
    requires ViewOf(st, s).InCall? && ViewOf(st, s).room == r && ViewOf(st, s).connectedSince.Some?
    requires ViewOf(st', s).InCall? && ViewOf(st', s).room == r
    ensures ViewOf(st', s).connectedSince == ViewOf(st, s).connectedSince
  {
    SeenIsMember(st, s, r);
    SeenIsMember(st', s, r);
    assert Later(st, st', r, until);
  }

  /** Two ticks of a run: the second's state is the first's further on. */
  lemma GlimpsesAreOnward(cfg: Config, run: seq<(Event, Env)>, glimpses: seq<Glimpse>, i: nat, j: nat)
    requires InOrder(run, glimpses) && i <= j < |glimpses|
    ensures Inv(Moment(cfg, run, glimpses[i].moment)) && Inv(Moment(cfg, run, glimpses[j].moment))
    ensures Onward(Moment(cfg, run, glimpses[i].moment), Moment(cfg, run, glimpses[j].moment), Some(glimpses[j].now))
  {
    var g, h := glimpses[i], glimpses[j];
    assert run[..h.moment][..g.moment] == run[..g.moment];
    forall k | 0 <= k < h.moment ensures EndTime(run[..h.moment][k].0, run[..h.moment][k].1) <= h.now {
      assert run[..h.moment][k] == run[k];
    }
    RoomsOverARun(cfg, run[..h.moment], g.moment, h.now);
    EveryRunIsConsistent(cfg, run[..g.moment]);
    EveryRunIsConsistent(cfg, run[..h.moment]);
  }

  /** A connection a tick sees was made before it. */
  lemma ConnectedInThePast(cfg: Config, run: seq<(Event, Env)>, s: SocketId, glimpses: seq<Glimpse>, i: nat)
    requires InOrder(run, glimpses) && i < |glimpses|
    ensures var view := ViewOf(Moment(cfg, run, glimpses[i].moment), s);
      view.InCall? && view.connectedSince.Some? ==> view.connectedSince.value <= glimpses[i].now
  {
    var g := glimpses[i];
    var st := Moment(cfg, run, g.moment);
    forall k | 0 <= k < g.moment ensures EndTime(run[..g.moment][k].0, run[..g.moment][k].1) <= g.now {
      assert run[..g.moment][k] == run[k];
    }
    RoomsOverARun(cfg, run[..g.moment], 0, g.now);
    EveryRunIsConsistent(cfg, run[..g.moment]);
    assert run[..g.moment][..0] == [];
    if ViewOf(st, s).InCall? {
      SeenIsMember(st, s, ViewOf(st, s).room);
      assert Later(Init(cfg), st, ViewOf(st, s).room, Some(g.now));
    }
  }

  /** Whatever a run shows its reward ticks is a schedule rewards telescope over. */
  lemma SightsArePossible(cfg: Config, run: seq<(Event, Env)>, s: SocketId, glimpses: seq<Glimpse>)
    requires InOrder(run, glimpses)
    ensures Rewards.Possible(Sights(cfg, run, s, glimpses))
  {
    var sights := Sights(cfg, run, s, glimpses);
    forall i | 0 <= i < |sights| && sights[i].view.InCall? && sights[i].view.connectedSince.Some?
      ensures sights[i].view.connectedSince.value <= sights[i].now
    {
      ConnectedInThePast(cfg, run, s, glimpses, i);
    }
    forall i, j | 0 <= i < j < |sights| && sights[i].view.InCall? && sights[i].view.connectedSince.Some?
                  && Rewards.Sees(sights[j], sights[i].view.room)
      ensures sights[j].view.connectedSince == sights[i].view.connectedSince
    {
      GlimpsesAreOnward(cfg, run, glimpses, i, j);
      ConnectionStays(Moment(cfg, run, glimpses[i].moment), Moment(cfg, run, glimpses[j].moment), s, sights[i].view.room, Some(glimpses[j].now));
    }
    forall i, j, k, r | 0 <= i < j < k < |sights| && Rewards.Sees(sights[i], r) && Rewards.Sees(sights[k], r)
      ensures Rewards.Sees(sights[j], r)
    {
      GlimpsesAreOnward(cfg, run, glimpses, i, j);
      GlimpsesAreOnward(cfg, run, glimpses, j, k);
      SeenInBetween(Moment(cfg, run, glimpses[i].moment), Moment(cfg, run, glimpses[j].moment), Moment(cfg, run, glimpses[k].moment),
                    s, r, Some(glimpses[j].now), Some(glimpses[k].now));
    }
  }

  /** What the last tick sees of a socket in a call. */
  lemma LastSight(cfg: Config, run: seq<(Event, Env)>, s: SocketId, glimpses: seq<Glimpse>) returns (r: RoomId)
    requires InOrder(run, glimpses) && glimpses != []
    requires var st := Moment(cfg, run, glimpses[|glimpses| - 1].moment); s in st.sessions && st.sessions[s].state == Active
    ensures var last := glimpses[|glimpses| - 1];
      var st := Moment(cfg, run, last.moment);
      && st.sessions[s].roomId == Some(r) && r in st.rooms
      && Sights(cfg, run, s, glimpses)[|glimpses| - 1] == Rewards.Sight(last.now, Rewards.InCall(r, st.rooms[r].connectedSince))
  {
    var last := glimpses[|glimpses| - 1];
    var st := Moment(cfg, run, last.moment);
    EveryRunIsConsistent(cfg, run[..last.moment]);
    assert SessionOk(st.rooms, s, st.sessions[s]);
    r := st.sessions[s].roomId.value;
  }

  /**
   * So in every run of the matcher, however its sweeps fall, a call that the
   * last tick sees has paid its socket for exactly the whole intervals since
   * the event by which the second of the room's members reported connected.
   */
  lemma CallsPayWholeIntervals(cfg: Config, run: seq<(Event, Env)>, s: SocketId, glimpses: seq<Glimpse>, pay: Rewards.Config)
    requires InOrder(run, glimpses) && glimpses != [] && pay.Valid()
    requires !Rewards.EntryAfter(pay, Sights(cfg, run, s, glimpses)).dropped
    requires var last := glimpses[|glimpses| - 1];
      var st := Moment(cfg, run, last.moment);
      s in st.sessions && st.sessions[s].state == Active
    ensures var last := glimpses[|glimpses| - 1];
      var st := Moment(cfg, run, last.moment);
      && st.sessions[s].roomId.Some? && st.sessions[s].roomId.value in st.rooms
      && var r := st.sessions[s].roomId.value;
      Rewards.Earned(pay, Sights(cfg, run, s, glimpses), r) ==
        match ConnectionTime(cfg, run[..last.moment], r, st.rooms[r].a, st.rooms[r].b)
        case None => 0
        case Some(since) => (last.now - since) / pay.coinIntervalMs * pay.coinsPerInterval
  {
    var last := glimpses[|glimpses| - 1];
    var r := LastSight(cfg, run, s, glimpses);
    SightsArePossible(cfg, run, s, glimpses);
    Rewards.RewardsTelescope(pay, Sights(cfg, run, s, glimpses), r);
    ConnectedAtReport(cfg, run, last.moment, r);
  }

  lemma ConnectedAtReport(cfg: Config, run: seq<(Event, Env)>, moment: nat, r: RoomId)
    requires moment <= |run| && r in Moment(cfg, run, moment).rooms
    ensures var room := Moment(cfg, run, moment).rooms[r];
      room.connectedSince == ConnectionTime(cfg, run[..moment], r, room.a, room.b)
  {
    ConnectedFromSecondReport(cfg, run[..moment], r);
  }
}
