/**
 * Coins and friends for one local socket, driven by what each sweep finds in
 * the store. However sweeps are spaced, what a call has paid depends only on
 * how long both sides have been connected.
 */
module Rewards {
  import opened Wrappers

  type RoomId = nat

  datatype Config = Config(coinIntervalMs: nat, coinsPerInterval: nat, friendAfterMs: nat)
  {
    predicate Valid() {
      coinIntervalMs > 0
    }
  }

  /** What a sweep finds for the socket: no session, one that is not in a call, or one in a call. */
  datatype View = NoSession | NotInCall | InCall(room: RoomId, connectedSince: Option<nat>)

  datatype Progress = Progress(room: RoomId, connectedSince: nat, intervalsAwarded: nat, friended: bool)

  datatype Entry = Entry(orphaned: bool, dropped: bool, progress: Option<Progress>)

  const FRESH := Entry(false, false, None)

  datatype Paid = Paid(entry: Entry, coins: nat, friends: bool)

  /** Progress in the room the session is in, or none until both sides reported connected. */
  function Started(entry: Entry, view: View): Option<Progress>
    requires view.InCall?
  {
    if entry.progress.Some? && entry.progress.value.room == view.room then entry.progress
    else if view.connectedSince.Some? then Some(Progress(view.room, view.connectedSince.value, 0, false))
    else None
  }

  /** One sweep's reward tick. */
  function Tick(cfg: Config, entry: Entry, view: View, now: nat): Paid
    requires cfg.Valid()
  {
    if entry.dropped then Paid(entry, 0, false)
    else
      match view
      case NoSession => Paid(if entry.orphaned then entry.(dropped := true) else entry.(orphaned := true), 0, false)
      case NotInCall => Paid(Entry(false, false, None), 0, false)
      case InCall(room, _) =>
        var started := Started(entry, view);
        if started == None then Paid(entry.(orphaned := false), 0, false)
        else
          var r := started.value;
          var elapsed := now - r.connectedSince;
          var due := if elapsed < 0 then 0 else elapsed / cfg.coinIntervalMs;
          var friends := !r.friended && elapsed >= cfg.friendAfterMs;
          Paid(Entry(false, false, Some(r.(intervalsAwarded := Max(due, r.intervalsAwarded), friended := r.friended || friends))),
               if due > r.intervalsAwarded then (due - r.intervalsAwarded) * cfg.coinsPerInterval else 0, friends)
  }

  /** The local entry of a socket, updated in place by every sweep. */
  class RewardTicker {
    const cfg: Config
    var orphaned: bool
    var dropped: bool
    var progress: Option<Progress>

    function Current(): Entry
      reads this
    {
      Entry(orphaned, dropped, progress)
    }

    constructor (cfg: Config)
      ensures this.cfg == cfg && Current() == FRESH
    {
      this.cfg := cfg;
      orphaned, dropped, progress := false, false, None;
    }

    method Award(view: View, now: nat) returns (coins: nat, friends: bool)
      requires cfg.Valid()
      modifies this
      ensures Paid(Current(), coins, friends) == Tick(cfg, old(Current()), view, now)
    {
      coins, friends := 0, false;
      if dropped {
        return;
      }
      if view.NoSession? {
        // Wait one sweep for the disconnect that usually follows; then give the socket up.
        if !orphaned {
          orphaned := true;
          return;
        }
        dropped := true;
        return;
      }
      orphaned := false;
      if view.NotInCall? {
        progress := None;
        return;
      }
      if progress == None || progress.value.room != view.room {
        // Nothing is earned until both peer connections are up.
        if view.connectedSince == None {
          return;
        }
        progress := Some(Progress(view.room, view.connectedSince.value, 0, false));
      }
      var r := progress.value;
      var elapsed := now - r.connectedSince;
      var due := if elapsed < 0 then 0 else elapsed / cfg.coinIntervalMs;
      if due > r.intervalsAwarded {
        coins := (due - r.intervalsAwarded) * cfg.coinsPerInterval;
        r := r.(intervalsAwarded := due);
      }
      if !r.friended && elapsed >= cfg.friendAfterMs {
        friends := true;
        r := r.(friended := true);
      }
      progress := Some(r);
    }
  }

  /* ---------------------------------------------------------------- */
  /* Whole schedules                                                   */
  /* ---------------------------------------------------------------- */

  datatype Sight = Sight(now: nat, view: View)

  predicate Sees(sight: Sight, r: RoomId) {
    sight.view.InCall? && sight.view.room == r
  }

  /**
   * What a store can show: the clock does not run back, a room's connection
   * time is set once and never changes, and a session stays in its room until
   * it leaves for good.
   */
  ghost predicate Possible(sights: seq<Sight>) {
    && (forall i, j :: 0 <= i < j < |sights| ==> sights[i].now <= sights[j].now)
    && (forall i :: 0 <= i < |sights| && sights[i].view.InCall? && sights[i].view.connectedSince.Some? ==>
          sights[i].view.connectedSince.value <= sights[i].now)
    && (forall i, j :: 0 <= i < j < |sights| && sights[i].view.InCall? && sights[i].view.connectedSince.Some? && Sees(sights[j], sights[i].view.room) ==>
          sights[j].view.connectedSince == sights[i].view.connectedSince)
    && (forall i, j, k, r :: 0 <= i < j < k < |sights| && Sees(sights[i], r) && Sees(sights[k], r) ==> Sees(sights[j], r))
  }

  function EntryAfter(cfg: Config, sights: seq<Sight>): Entry
    requires cfg.Valid()
  {
    if sights == [] then FRESH
    else
      var n := |sights| - 1;
      Tick(cfg, EntryAfter(cfg, sights[..n]), sights[n].view, sights[n].now).entry
  }

  /** The coins paid in room `r` so far. */
  function Earned(cfg: Config, sights: seq<Sight>, r: RoomId): nat
    requires cfg.Valid()
  {
    if sights == [] then 0
    else
      var n := |sights| - 1;
      Earned(cfg, sights[..n], r)
      + if Sees(sights[n], r) then Tick(cfg, EntryAfter(cfg, sights[..n]), sights[n].view, sights[n].now).coins else 0
  }

  function Intervals(cfg: Config, since: nat, now: nat): nat
    requires cfg.Valid()
  {
    if now < since then 0 else (now - since) / cfg.coinIntervalMs
  }

  predicate SeenIn(sights: seq<Sight>, r: RoomId) {
    exists i :: 0 <= i < |sights| && Sees(sights[i], r)
  }

  lemma {:induction false} UnseenPaysNothing(cfg: Config, sights: seq<Sight>, r: RoomId)
    requires cfg.Valid() && !SeenIn(sights, r)
    ensures Earned(cfg, sights, r) == 0
  {
    if sights != [] {
      var n := |sights| - 1;
      assert !Sees(sights[n], r);
      forall i | 0 <= i < n ensures !Sees(sights[..n][i], r) {
        assert sights[..n][i] == sights[i];
      }
      UnseenPaysNothing(cfg, sights[..n], r);
    }
  }

  lemma PossiblePrefix(sights: seq<Sight>)
    requires Possible(sights) && sights != []
    ensures Possible(sights[..|sights| - 1])
  {
  }

  /** Intervals only grow with the clock. */
  lemma IntervalsGrow(cfg: Config, since: nat, now: nat, later: nat)
    requires cfg.Valid() && now <= later
    ensures Intervals(cfg, since, now) <= Intervals(cfg, since, later)
  {
    if since <= now {
      var d := cfg.coinIntervalMs;
      var x, y := now - since, later - since;
      assert x == (x / d) * d + x % d && y == (y / d) * d + y % d;
      Multiples(y / d - x / d, d);
      assert (y / d - x / d) * d == (y / d) * d - (x / d) * d;
    }
  }

  lemma Multiples(k: int, d: nat)
    ensures k <= -1 ==> k * d + d <= 0
  {
  }

  /** The state of the books after the last sight. */
  ghost predicate InStep(cfg: Config, sights: seq<Sight>)
    requires cfg.Valid()
  {
    var progress := EntryAfter(cfg, sights).progress;
    && (progress.Some? ==> SeenIn(sights, progress.value.room))
    && (sights != [] && sights[|sights| - 1].view.InCall? ==>
          var last := sights[|sights| - 1];
          var r := last.view.room;
          if last.view.connectedSince == None then
            Earned(cfg, sights, r) == 0 && (progress.Some? ==> progress.value.room != r)
          else
            var k := Intervals(cfg, last.view.connectedSince.value, last.now);
            && Earned(cfg, sights, r) == k * cfg.coinsPerInterval
            && progress.Some? && progress.value.room == r && progress.value.connectedSince == last.view.connectedSince.value
            && progress.value.intervalsAwarded == k)
  }

  /** What was paid for a room before this sight of it, and the progress to go on from. */
  lemma BeforeSight(cfg: Config, sights: seq<Sight>)
    requires cfg.Valid() && Possible(sights) && sights != [] && sights[|sights| - 1].view.InCall?
    requires InStep(cfg, sights[..|sights| - 1])
    ensures var n := |sights| - 1;
      var r, before := sights[n].view.room, EntryAfter(cfg, sights[..n]).progress;
      if before.Some? && before.value.room == r then
        && n > 0 && sights[n - 1].view == InCall(r, Some(before.value.connectedSince))
        && sights[n].view.connectedSince == Some(before.value.connectedSince)
        && before.value.intervalsAwarded == Intervals(cfg, before.value.connectedSince, sights[n - 1].now)
        && Earned(cfg, sights[..n], r) == before.value.intervalsAwarded * cfg.coinsPerInterval
      else Earned(cfg, sights[..n], r) == 0
  {
    var n := |sights| - 1;
    var r := sights[n].view.room;
    var before := sights[..n];
    if SeenIn(before, r) {
      var i :| 0 <= i < n && Sees(before[i], r);
      assert Sees(sights[i], r) && Sees(sights[n], r);
      assert Sees(sights[n - 1], r);
      assert before[|before| - 1] == sights[n - 1];
    } else {
      UnseenPaysNothing(cfg, before, r);
    }
  }

  lemma {:induction false} StaysInStep(cfg: Config, sights: seq<Sight>)
    requires cfg.Valid() && Possible(sights) && !EntryAfter(cfg, sights).dropped
    ensures InStep(cfg, sights)
  {
    if sights != [] {
      var n := |sights| - 1;
      PossiblePrefix(sights);
      StaysInStep(cfg, sights[..n]);
      if sights[n].view.InCall? {
        BeforeSight(cfg, sights);
        SightInStep(cfg, sights);
      } else {
        OtherInStep(cfg, sights);
      }
    }
  }

  lemma OtherInStep(cfg: Config, sights: seq<Sight>)
    requires cfg.Valid() && sights != [] && InStep(cfg, sights[..|sights| - 1]) && !sights[|sights| - 1].view.InCall?
    ensures InStep(cfg, sights)
  {
    var n := |sights| - 1;
    var before := EntryAfter(cfg, sights[..n]).progress;
    if before.Some? {
      var i :| 0 <= i < n && Sees(sights[..n][i], before.value.room);
      assert Sees(sights[i], before.value.room);
    }
  }

  lemma SightInStep(cfg: Config, sights: seq<Sight>)
    requires cfg.Valid() && Possible(sights) && sights != [] && sights[|sights| - 1].view.InCall?
    requires InStep(cfg, sights[..|sights| - 1]) && !EntryAfter(cfg, sights[..|sights| - 1]).dropped
    ensures InStep(cfg, sights)
  {
    if sights[|sights| - 1].view.connectedSince.Some? {
      ConnectedInStep(cfg, sights);
    } else {
      UnconnectedInStep(cfg, sights);
    }
  }

  lemma ConnectedInStep(cfg: Config, sights: seq<Sight>)
    requires cfg.Valid() && Possible(sights) && sights != [] && sights[|sights| - 1].view.InCall?
    requires InStep(cfg, sights[..|sights| - 1]) && !EntryAfter(cfg, sights[..|sights| - 1]).dropped
    requires sights[|sights| - 1].view.connectedSince.Some?
    ensures InStep(cfg, sights)
  {
    var n := |sights| - 1;
    var last, entry := sights[n], EntryAfter(cfg, sights[..n]);
    BeforeSight(cfg, sights);
    assert Sees(sights[n], last.view.room);
    var r := Started(entry, last.view).value;
    if n > 0 {
      IntervalsGrow(cfg, r.connectedSince, sights[n - 1].now, last.now);
    }
    Sum(r.intervalsAwarded, Intervals(cfg, r.connectedSince, last.now), cfg.coinsPerInterval);
  }

  lemma UnconnectedInStep(cfg: Config, sights: seq<Sight>)
    requires cfg.Valid() && Possible(sights) && sights != [] && sights[|sights| - 1].view.InCall?
    requires InStep(cfg, sights[..|sights| - 1]) && !EntryAfter(cfg, sights[..|sights| - 1]).dropped
    requires sights[|sights| - 1].view.connectedSince == None
    ensures InStep(cfg, sights)
  {
    var n := |sights| - 1;
    var entry := EntryAfter(cfg, sights[..n]);
    BeforeSight(cfg, sights);
    if entry.progress.Some? {
      var i :| 0 <= i < n && Sees(sights[..n][i], entry.progress.value.room);
      assert Sees(sights[i], entry.progress.value.room);
    }
  }

  lemma Sum(done: nat, due: nat, per: nat)
    requires done <= due
    ensures done * per + (due - done) * per == due * per
  {
  }

  /**
   * Rewards telescope: after any sweep that sees the call, whatever the
   * schedule before it, the room has paid for exactly the whole intervals
   * since both sides connected, and nothing before that.
   */
  lemma RewardsTelescope(cfg: Config, sights: seq<Sight>, r: RoomId)
    requires cfg.Valid() && Possible(sights) && sights != [] && !EntryAfter(cfg, sights).dropped
    requires Sees(sights[|sights| - 1], r)
    ensures var last := sights[|sights| - 1];
      Earned(cfg, sights, r) ==
        match last.view.connectedSince
        case None => 0
        case Some(since) => (last.now - since) / cfg.coinIntervalMs * cfg.coinsPerInterval
  {
    StaysInStep(cfg, sights);
  }

  /* ---------------------------------------------------------------- */
  /* Friends                                                           */
  /* ---------------------------------------------------------------- */

  /** How often the ticks of room `r` made its members friends. */
  function Befriended(cfg: Config, sights: seq<Sight>, r: RoomId): nat
    requires cfg.Valid()
  {
    if sights == [] then 0
    else
      var n := |sights| - 1;
      Befriended(cfg, sights[..n], r)
      + if Sees(sights[n], r) && Tick(cfg, EntryAfter(cfg, sights[..n]), sights[n].view, sights[n].now).friends then 1 else 0
  }

  predicate LongEnough(cfg: Config, sight: Sight) {
    sight.view.InCall? && sight.view.connectedSince.Some? && sight.now - sight.view.connectedSince.value >= cfg.friendAfterMs
  }

  /** The room's members are friends since they were connected long enough, and were made so once. */
  ghost predicate FriendsInStep(cfg: Config, sights: seq<Sight>)
    requires cfg.Valid()
  {
    sights != [] && sights[|sights| - 1].view.InCall? ==>
      var last, progress := sights[|sights| - 1], EntryAfter(cfg, sights).progress;
      && Befriended(cfg, sights, last.view.room) == (if LongEnough(cfg, last) then 1 else 0)
      && (progress.Some? && progress.value.room == last.view.room ==> progress.value.friended == LongEnough(cfg, last))
  }

  lemma {:induction false} UnseenMakesNoFriends(cfg: Config, sights: seq<Sight>, r: RoomId)
    requires cfg.Valid() && !SeenIn(sights, r)
    ensures Befriended(cfg, sights, r) == 0
  {
    if sights != [] {
      var n := |sights| - 1;
      assert !Sees(sights[n], r);
      forall i | 0 <= i < n ensures !Sees(sights[..n][i], r) {
        assert sights[..n][i] == sights[i];
      }
      UnseenMakesNoFriends(cfg, sights[..n], r);
    }
  }

  /** What was done for a room before this sight of it. */
  lemma FriendsBefore(cfg: Config, sights: seq<Sight>)
    requires cfg.Valid() && Possible(sights) && sights != [] && sights[|sights| - 1].view.InCall?
    requires InStep(cfg, sights[..|sights| - 1]) && FriendsInStep(cfg, sights[..|sights| - 1])
    ensures var n := |sights| - 1;
      var r, before := sights[n].view.room, EntryAfter(cfg, sights[..n]).progress;
      if before.Some? && before.value.room == r then
        && n > 0 && sights[n - 1].view == InCall(r, Some(before.value.connectedSince))
        && sights[n].view.connectedSince == Some(before.value.connectedSince)
        && before.value.friended == LongEnough(cfg, sights[n - 1])
        && Befriended(cfg, sights[..n], r) == (if LongEnough(cfg, sights[n - 1]) then 1 else 0)
      else Befriended(cfg, sights[..n], r) == 0
  {
    var n := |sights| - 1;
    var r, before := sights[n].view.room, sights[..n];
    BeforeSight(cfg, sights);
    if SeenIn(before, r) {
      var i :| 0 <= i < n && Sees(before[i], r);
      assert Sees(sights[i], r) && Sees(sights[n], r);
      assert Sees(sights[n - 1], r);
      assert before[|before| - 1] == sights[n - 1];
    } else {
      UnseenMakesNoFriends(cfg, before, r);
    }
  }

  lemma {:induction false} FriendsStayInStep(cfg: Config, sights: seq<Sight>)
    requires cfg.Valid() && Possible(sights) && !EntryAfter(cfg, sights).dropped
    ensures FriendsInStep(cfg, sights)
  {
    if sights != [] {
      var n := |sights| - 1;
      PossiblePrefix(sights);
      FriendsStayInStep(cfg, sights[..n]);
      StaysInStep(cfg, sights[..n]);
      if sights[n].view.InCall? {
        FriendsBefore(cfg, sights);
        assert Sees(sights[n], sights[n].view.room);
      }
    }
  }

  /**
   * The members of a room are made friends once, by the first sweep that finds
   * them connected for long enough, whatever the schedule.
   */
  lemma FriendsOnce(cfg: Config, sights: seq<Sight>, r: RoomId)
    requires cfg.Valid() && Possible(sights) && sights != [] && !EntryAfter(cfg, sights).dropped
    requires Sees(sights[|sights| - 1], r)
    ensures Befriended(cfg, sights, r) == if LongEnough(cfg, sights[|sights| - 1]) then 1 else 0
  {
    FriendsStayInStep(cfg, sights);
  }

  /* ---------------------------------------------------------------- */
  /* Sockets without a session                                         */
  /* ---------------------------------------------------------------- */

  /** A socket is given up exactly when two sweeps in a row, or the last two before it was, found no session for it. */
  lemma {:induction false} DroppedAfterTwoMisses(cfg: Config, sights: seq<Sight>)
    requires cfg.Valid()
    ensures var entry := EntryAfter(cfg, sights);
      && (entry.dropped <==> exists i :: 0 < i < |sights| && sights[i - 1].view.NoSession? && sights[i].view.NoSession?)
      && (!entry.dropped ==> (entry.orphaned <==> sights != [] && sights[|sights| - 1].view.NoSession?))
  {
    if sights != [] {
      var n := |sights| - 1;
      DroppedAfterTwoMisses(cfg, sights[..n]);
      var before := EntryAfter(cfg, sights[..n]);
      if i :| 0 < i < |sights| && sights[i - 1].view.NoSession? && sights[i].view.NoSession? {
        assert i < n ==> sights[..n][i - 1].view.NoSession? && sights[..n][i].view.NoSession?;
      }
      if before.dropped {
        var i :| 0 < i < n && sights[..n][i - 1].view.NoSession? && sights[..n][i].view.NoSession?;
        assert sights[i - 1].view.NoSession? && sights[i].view.NoSession?;
      }
    }
  }
}
