/**
 * What a client's own requests do, field by field: whom a hello admits and
 * what it stores, when preferences change, and what the client is told.
 */
module MatchHellos {
  import opened Wrappers
  import opened Compatibility
  import opened Protocol
  import opened WaitingQueue
  import opened MatchModel
  import opened MatchInvariant
  import opened MatchSteps
  import opened MatchFocus

  /** The gender filter a device may use: the one it asks for, if that needs no unlock or it has one. */
  function FilterFor(device: DeviceId, preferences: Preferences, env: Env): GenderFilter {
    if preferences.genderFilter == AllGenders || device in env.premium then preferences.genderFilter else AllGenders
  }

  /** Whom the matcher takes the client for. */
  function WhoIs(p: HelloPayload, env: Env): Candidate {
    Candidate(p.device, p.profile, Preferences(FilterFor(p.device, p.preferences, env), p.preferences.languageFilter))
  }

  /** The session is new or idle, so the hello asks to join the queue. */
  predicate Joins(st: State, s: SocketId) {
    s !in st.sessions || st.sessions[s].state == Idle
  }

  /** Who may say hello: nobody banned, on a live socket of its own device, and whoever joins passes the gate. */
  predicate Admitted(st: State, s: SocketId, p: HelloPayload, answers: HelloAnswers, env: Env) {
    && !st.stopped && !answers.restricted && p.device !in env.banned
    && (s !in st.local ==> answers.precheck == None) && answers.connected
    && (s in st.sessions ==> st.sessions[s].who.deviceId == p.device)
    && (Joins(st, s) ==> !answers.coolingDown && answers.refused == None)
  }

  /** The answer to one who may not, in the order the reasons count. */
  function Refusal(st: State, s: SocketId, p: HelloPayload, answers: HelloAnswers, env: Env): ErrorCode
    requires !Admitted(st, s, p, answers, env)
  {
    if st.stopped then Internal
    else if answers.restricted || p.device in env.banned then Banned
    else if s !in st.local && answers.precheck.Some? then answers.precheck.value
    else if !answers.connected || (s in st.sessions && st.sessions[s].who.deviceId != p.device) then BadState
    else if answers.coolingDown then RateLimited
    else answers.refused.value
  }

  lemma RefusalIff(st: State, s: SocketId, p: HelloPayload, answers: HelloAnswers, env: Env)
    ensures HelloRefusal(st, s, p, answers, env) ==
            if Admitted(st, s, p, answers, env) then None else Some(Refusal(st, s, p, answers, env))
  {
  }

  /** A hello is refused exactly when its sender may not say it, and then only the refusal goes out. */
  lemma RefusedHelloOnlyTells(st: State, s: SocketId, p: HelloPayload, answers: HelloAnswers, env: Env)
    requires !Admitted(st, s, p, answers, env)
    ensures Step(st, Hello(s, p, answers), env) ==
            st.(out := st.out + [Sent(s, HelloRefused(Refusal(st, s, p, answers, env)), env.now)])
  {
    RefusalIff(st, s, p, answers, env);
  }

  /** In particular a banned device gets no session and no place in the queue, and is told why. */
  lemma BannedDeviceIsTurnedAway(st: State, s: SocketId, p: HelloPayload, answers: HelloAnswers, env: Env)
    requires (answers.restricted || p.device in env.banned) && !st.stopped
    ensures var st' := Step(st, Hello(s, p, answers), env);
      st'.sessions == st.sessions && st'.queue == st.queue && st'.rooms == st.rooms && st'.out == st.out + [Sent(s, HelloRefused(Banned), env.now)]
  {
    RefusedHelloOnlyTells(st, s, p, answers, env);
  }

  function HelloNews(s: SocketId, p: HelloPayload, env: Env): seq<Item> {
    [Sent(s, HelloAccepted(FilterFor(p.device, p.preferences, env)), env.now), Sent(s, WalletUpdate, env.now)]
  }

  /** An admitted hello of a member of a room only refreshes who it is and how it plays. */
  lemma RoomedHelloRefreshes(st: State, s: SocketId, p: HelloPayload, answers: HelloAnswers, env: Env)
    requires Admitted(st, s, p, answers, env) && s in st.sessions && (st.sessions[s].state == Pending || st.sessions[s].state == Active)
    ensures Step(st, Hello(s, p, answers), env) ==
            st.(sessions := st.sessions[s := st.sessions[s].(who := WhoIs(p, env), mode := p.mode)],
                local := st.local + {s}, out := st.out + HelloNews(s, p, env))
  {
    RefusalIff(st, s, p, answers, env);
    assert HelloWho(p, env) == WhoIs(p, env);
  }

  /** Since when the session waits once admitted: a waiter keeps its place. */
  function SinceWhen(st: State, s: SocketId, now: nat): nat {
    if s in st.sessions && st.sessions[s].state == Waiting then st.sessions[s].waitingSince.GetOr(now) else now
  }

  predicate EndsWith(out: seq<Item>, news: seq<Item>) {
    |news| <= |out| && out[|out| - |news|..] == news
  }

  /** The queued session of an admitted hello, as its pass finds it. */
  predicate Queued(st: State, start: State, s: SocketId, p: HelloPayload, env: Env) {
    && s in start.sessions
    && start.sessions[s] == Session(WhoIs(p, env), p.mode, Waiting, None, Some(SinceWhen(st, s, env.now)))
    && s in start.dirty && s in start.local
    && s in start.relaxing && start.relaxing[s].since == SinceWhen(st, s, env.now)
    && Entry(s, SinceWhen(st, s, env.now)) in start.queue
    && EndsWith(start.out, HelloNews(s, p, env) + [Sent(s, QueueWaiting(0), env.now)])
  }

  /**
   * An admitted hello of anybody else queues the session with what the client
   * sent, marks it, answers, and runs the pass; the device's former socket, if
   * it is another one, is told that it was replaced.
   */
  lemma AdmittedHelloQueues(st: State, s: SocketId, p: HelloPayload, answers: HelloAnswers, env: Env)
    requires Inv(st) && Admitted(st, s, p, answers, env)
    requires s !in st.sessions || st.sessions[s].state == Idle || st.sessions[s].state == Waiting
    ensures var start := BeforePass(st, Hello(s, p, answers), env);
      && start.Some? && Queued(st, start.value, s, p, env)
      && Step(st, Hello(s, p, answers), env) == MatchPass(start.value, DirtyPass, env)
      && p.device in start.value.devices && start.value.devices[p.device] == s
      && (s !in st.sessions && p.device in st.devices && st.devices[p.device] != s ==>
            Sent(st.devices[p.device], SessionReplaced, env.now) in start.value.out)
  {
    RefusalIff(st, s, p, answers, env);
    var stored := HelloStored(st, s, p, env);
    StoredSession(st, s, p, env);
    HelloStoredKeeps(st, s, p, env);
    assert SessionOk(stored.rooms, s, stored.sessions[s]);
    StoredQueues(st, stored, s, p, env);
    HelloStarts(st, s, p, answers, env);
  }

  function StartOf(stored: State, s: SocketId, p: HelloPayload, env: Env): State
    requires s in stored.sessions
  {
    var acked := HelloAcked(stored, s, HelloWho(p, env).preferences.genderFilter, env.now);
    Enqueue(acked, s, if stored.sessions[s].state == Waiting then stored.sessions[s].waitingSince else None, env)
  }

  lemma HelloStarts(st: State, s: SocketId, p: HelloPayload, answers: HelloAnswers, env: Env)
    requires HelloRefusal(st, s, p, answers, env) == None
    requires var stored := HelloStored(st, s, p, env);
      s in stored.sessions && (stored.sessions[s].state == Idle || stored.sessions[s].state == Waiting)
    ensures BeforePass(st, Hello(s, p, answers), env) == Some(StartOf(HelloStored(st, s, p, env), s, p, env))
    ensures Step(st, Hello(s, p, answers), env) == MatchPass(StartOf(HelloStored(st, s, p, env), s, p, env), DirtyPass, env)
  {
  }

  lemma StoredQueues(st: State, stored: State, s: SocketId, p: HelloPayload, env: Env)
    requires Inv(st) && Inv(stored) && s in stored.sessions && stored.sessions[s].who == WhoIs(p, env) && stored.sessions[s].mode == p.mode
    requires stored.sessions[s] == if s in st.sessions then st.sessions[s].(who := WhoIs(p, env), mode := p.mode)
                                   else Session(WhoIs(p, env), p.mode, Idle, None, None)
    requires stored.sessions[s].state == Idle || stored.sessions[s].state == Waiting
    ensures Queued(st, StartOf(stored, s, p, env), s, p, env)
    ensures StartOf(stored, s, p, env).devices == stored.devices && stored.out <= StartOf(stored, s, p, env).out
  {
    var acked := HelloAcked(stored, s, HelloWho(p, env).preferences.genderFilter, env.now);
    var since := if stored.sessions[s].state == Waiting then stored.sessions[s].waitingSince else None;
    AckedQueues(stored, s, p, since, env);
    QueueHolds(acked, s, since, env);
    var news := HelloNews(s, p, env) + [Sent(s, QueueWaiting(0), env.now)];
    assert StartOf(stored, s, p, env).out == stored.out + news;
  }

  lemma StoredSession(st: State, s: SocketId, p: HelloPayload, env: Env)
    requires Inv(st) && (s in st.sessions ==> st.sessions[s].who.deviceId == p.device)
    ensures var stored := HelloStored(st, s, p, env);
      && s in stored.sessions && stored.sessions[s].who == WhoIs(p, env) && stored.sessions[s].mode == p.mode
      && (if s in st.sessions then stored.sessions[s] == st.sessions[s].(who := WhoIs(p, env), mode := p.mode)
          else stored.sessions[s] == Session(WhoIs(p, env), p.mode, Idle, None, None))
      && p.device in stored.devices && stored.devices[p.device] == s
      && (s !in st.sessions && p.device in st.devices && st.devices[p.device] != s ==>
            Sent(st.devices[p.device], SessionReplaced, env.now) in stored.out)
  {
    assert HelloWho(p, env) == WhoIs(p, env);
    if s in st.sessions {
      assert BoundTo(st.devices, s, st.sessions[s]);
    } else if p.device in st.devices && st.devices[p.device] != s {
      ReplacedIsTold(st, st.devices[p.device], env);
    }
  }

  lemma ReplacedIsTold(st: State, previous: SocketId, env: Env)
    requires Inv(st)
    ensures Sent(previous, SessionReplaced, env.now) in Replace(st, previous, env).out
  {
    var told := Emit(st, previous, SessionReplaced, env.now);
    assert SameStory(st, told) && Inv(told);
    assert told.out[|st.out|] == Sent(previous, SessionReplaced, env.now);
    if previous in told.sessions {
      RemoveKeepsOut(told, previous, PartnerUnavailable, env);
    }
  }

  lemma RemoveKeepsOut(st: State, s: SocketId, reason: EndReason, env: Env)
    requires s in st.sessions
    ensures st.out <= RemoveSession(st, s, reason, env).out
  {
    if st.sessions[s].roomId.Some? && MemberOf(st, s, st.sessions[s].roomId.value) {
      EndKeepsOut(st, st.sessions[s].roomId.value, s, None, Some(reason), env);
    }
  }

  lemma FreeKeepsOut(st: State, r: RoomId, s: SocketId, reason: Option<EndReason>, env: Env)
    ensures st.out <= FreeMember(st, r, s, reason, env).out
  {
    if reason.Some? {
      var told := Emit(st, s, MatchEnded(r, reason.value), env.now);
      if s in st.sessions {
        QueueingKeepsOut(told, s, env);
      }
    }
  }

  lemma QueueingKeepsOut(told: State, s: SocketId, env: Env)
    requires s in told.sessions
    ensures told.out <= Enqueue(told, s, None, env).out && told.out <= LeaveIdle(told, s, true, env.now).out
    ensures LeaveIdle(told, s, false, env.now).out == told.out
  {
    assert told.out + [] == told.out;
  }

  lemma EndKeepsOut(st: State, r: RoomId, s: SocketId, mine: Option<EndReason>, theirs: Option<EndReason>, env: Env)
    requires r in st.rooms
    ensures st.out <= EndRoomOf(st, r, s, mine, theirs, env).out
  {
    var room, deleted := st.rooms[r], st.(rooms := st.rooms - {r});
    var (reasonA, reasonB) := ReasonsFor(room, s, mine, theirs);
    FreeKeepsOut(deleted, r, room.a, reasonA, env);
    FreeKeepsOut(FreeMember(deleted, r, room.a, reasonA, env), r, room.b, reasonB, env);
  }

  lemma AckedQueues(stored: State, s: SocketId, p: HelloPayload, since: Option<nat>, env: Env)
    requires s in stored.sessions && stored.sessions[s].who == WhoIs(p, env)
    ensures var acked := HelloAcked(stored, s, HelloWho(p, env).preferences.genderFilter, env.now);
      var start, at := Enqueue(acked, s, since, env), since.GetOr(env.now);
      && start.sessions[s] == stored.sessions[s].(state := Waiting, roomId := None, waitingSince := Some(at))
      && s in start.dirty && s in start.local && s in start.relaxing && start.relaxing[s].since == at
      && start.out == stored.out + HelloNews(s, p, env) + [Sent(s, QueueWaiting(0), env.now)]
  {
    assert HelloWho(p, env) == WhoIs(p, env) && !NeedsPremium(WhoIs(p, env), env);
    assert [] + [Sent(s, QueueWaiting(0), env.now)] == [Sent(s, QueueWaiting(0), env.now)];
  }

  lemma QueueHolds(acked: State, s: SocketId, since: Option<nat>, env: Env)
    requires s in acked.sessions && Represents(acked.queue, WaitKeys(acked.sessions))
    ensures Entry(s, since.GetOr(env.now)) in Enqueue(acked, s, since, env).queue
  {
    AddRepresents(acked.queue, WaitKeys(acked.sessions), s, since.GetOr(env.now));
  }

  /* ---------------------------------------------------------------- */
  /* Preferences                                                       */
  /* ---------------------------------------------------------------- */

  /** The device may not filter by gender. */
  predicate Locked(device: DeviceId, preferences: Preferences, env: Env) {
    preferences.genderFilter != AllGenders && device !in env.premium
  }

  /**
   * Preferences change exactly when the session exists, they are not locked and
   * they differ; then the session has them, its client hears so, and a waiter
   * is marked before the pass.
   */
  lemma PreferencesEffect(st: State, s: SocketId, preferences: Preferences, env: Env)
    ensures var st' := Step(st, UpdatePreferences(s, preferences), env);
      if s !in st.sessions || Locked(st.sessions[s].who.deviceId, preferences, env) || st.sessions[s].who.preferences == preferences
      then st' == st
      else
        var session := st.sessions[s];
        var stored := st.(sessions := st.sessions[s := session.(who := Candidate(session.who.deviceId, session.who.profile, preferences))],
                          out := st.out + [Sent(s, PreferencesSaved(preferences.genderFilter), env.now)]);
        st' == if session.state == Waiting then MatchPass(stored.(dirty := stored.dirty + {s}), DirtyPass, env) else stored
  {
  }
}
