/**
 * Runs in which something a reader of the comments might count on fails: a
 * pair the pass after an event misses, a client told to leave a room the
 * server still holds, searches shown in vain.
 */
module MatchRuns {
  import opened Wrappers
  import opened Compatibility
  import opened Protocol
  import opened Greedy
  import opened MatchModel
  import opened PassTheory
  import opened MatchInvariant
  import opened MatchSteps
  import opened MatchTrace
  import opened MatchClients
  import opened MatchComplete
  import opened MatchFocus
  import opened MatchSearch
  import opened Signaling

  /* ---------------------------------------------------------------- */
  /* Hellos                                                            */
  /* ---------------------------------------------------------------- */

  const ADMITTED: HelloAnswers := HelloAnswers(false, None, true, false, None)

  /** Nobody is banned, capped or held back, and matching is open. */
  function Plain(now: nat): Env {
    Env(now, {}, {}, {}, {}, false, true)
  }

  /** A hello for preview matching without filters; socket and device share a number. */
  function Greeting(s: SocketId, language: string, topics: seq<string>): Event {
    Hello(s, HelloPayload(s, Profile(Other, language, topics), Preferences(AllGenders, ANY_LANGUAGE), Preview), ADMITTED)
  }

  function Newcomer(s: SocketId, language: string, topics: seq<string>, now: nat): Session {
    Session(Candidate(s, Profile(Other, language, topics), Preferences(AllGenders, ANY_LANGUAGE)), Preview, Waiting, None, Some(now))
  }

  function Welcome(s: SocketId, now: nat): seq<Item> {
    [Sent(s, HelloAccepted(AllGenders), now), Sent(s, WalletUpdate, now), Sent(s, QueueWaiting(0), now)]
  }

  /** Before its pass an admitted newcomer waits, and nobody else has changed. */
  lemma GreetingJoins(st: State, s: SocketId, language: string, topics: seq<string>, now: nat)
    requires s !in st.sessions && s !in st.devices && !st.stopped
    ensures var before := BeforePass(st, Greeting(s, language, topics), Plain(now));
      && before.Some?
      && var st' := before.value;
      && st'.sessions == st.sessions[s := Newcomer(s, language, topics, now)] && st'.devices == st.devices[s := s]
      && st'.dirty == st.dirty + {s} && st'.rooms == st.rooms && st'.blocks == st.blocks && st'.wakeAt == st.wakeAt
      && st'.cfg == st.cfg && st'.stopped == st.stopped && st'.nextRoom == st.nextRoom
      && st'.out == st.out + Welcome(s, now)
  {
    assert Welcome(s, now) == [Sent(s, HelloAccepted(AllGenders), now), Sent(s, WalletUpdate, now)] + [Sent(s, QueueWaiting(0), now)];
  }

  /** No waiter fits a dirty one at the steps of this moment. */
  ghost predicate NobodyFits(st: State, env: Env) {
    forall s, t :: Waits(st, s) && Waits(st, t) && s != t && (s in st.dirty || t in st.dirty) ==>
      !Fits(st.sessions[s].who, st.sessions[t].who, StepOf(Waiter(s, st.sessions[s]), st.cfg.ladder, env.now, env.low),
            StepOf(Waiter(t, st.sessions[t]), st.cfg.ladder, env.now, env.low))
  }

  lemma NobodyIsPaired(st: State, waiting: seq<Waiter>, env: Env, wake: map<SocketId, nat>)
    requires Loaded(st, waiting) && NobodyFits(st, env)
    ensures Scan(MakeBoard(st, waiting, Some(st.dirty), env), 0, {}, wake).pairs == []
  {
    var bd := MakeBoard(st, waiting, Some(st.dirty), env);
    ScanIsPass(bd, 0, {}, wake);
    PassFacts(MayTryRelation(bd), |waiting|, 0, {});
    var pairs := Scan(bd, 0, {}, wake).pairs;
    assert pairs != [] ==> pairs[0] in pairs;
    forall i: nat, j: nat | i < j < |waiting| ensures !bd.MayTry(i, j) {
      assert Waits(st, waiting[i].socket) && Waits(st, waiting[j].socket);
    }
    assert forall p :: p in pairs ==> Candidates(MayTryRelation(bd), |waiting|, p);
  }

  /** Then the pass after an event changes nothing but the marks. */
  lemma PassFindsNobody(st: State, env: Env)
    requires Inv(st) && env.open && NobodyFits(st, env)
    ensures var st' := MatchPass(st, DirtyPass, env); SameOutcome(st, st') && st'.dirty == {}
  {
    if st.dirty != {} && |st.queue| >= 2 {
      QueueIsLoaded(st);
      var waiting := LoadWaiting(st.queue, st.sessions);
      var pruned := Pruned(st, DirtyPass, waiting);
      assert MakeBoard(pruned, waiting, Some(st.dirty), env) == MakeBoard(st, waiting, Some(st.dirty), env);
      NobodyIsPaired(st, waiting, env, st.wakeAt);
    }
  }

  /** Nothing but these sessions: no room, block or mark. */
  predicate Gathered(st: State, cfg: Config, sessions: map<SocketId, Session>) {
    && st.cfg == cfg && st.sessions == sessions && st.devices.Keys == sessions.Keys && st.dirty == {} && st.rooms == map[]
    && st.blocks == map[] && !st.stopped && st.nextRoom == 0
  }

  lemma InitIsGathered(cfg: Config)
    ensures Gathered(Run(Init(cfg), []), cfg, map[]) && LegalRun(cfg, [], {})
  {
  }

  lemma RunSnoc(st: State, run: seq<(Event, Env)>, ev: Event, env: Env)
    ensures Run(st, run + [(ev, env)]) == Step(Run(st, run), ev, env)
  {
    assert (run + [(ev, env)])[..|run|] == run;
  }

  lemma LegalSnoc(cfg: Config, run: seq<(Event, Env)>, ev: Event, now: nat)
    requires LegalRun(cfg, run, {}) && BannedAfter(run) == {} && TimeAfter(run) <= now && !ev.Sweep?
    ensures var run' := run + [(ev, Plain(now))]; LegalRun(cfg, run', {}) && BannedAfter(run') == {} && TimeAfter(run') == now
  {
    assert (run + [(ev, Plain(now))])[..|run|] == run;
  }

  /** At this moment the newcomer fits none of those who wait. */
  ghost predicate FitsNone(cfg: Config, sessions: map<SocketId, Session>, s: SocketId, who: Candidate, now: nat) {
    forall t :: t in sessions ==>
      !Fits(who, sessions[t].who, RelaxStep(0, cfg.ladder, false), StepOf(Waiter(t, sessions[t]), cfg.ladder, now, {}))
  }

  lemma NewcomerFitsNobody(st: State, before: State, s: SocketId, session: Session, now: nat)
    requires FitsNone(st.cfg, st.sessions, s, session.who, now) && st.dirty == {} && session.waitingSince == Some(now)
    requires before.sessions == st.sessions[s := session] && before.dirty == st.dirty + {s} && before.cfg == st.cfg && s !in st.sessions
    ensures NobodyFits(before, Plain(now))
  {
    forall x, y | Waits(before, x) && Waits(before, y) && x != y && (x in before.dirty || y in before.dirty)
      ensures !Fits(before.sessions[x].who, before.sessions[y].who,
                    StepOf(Waiter(x, before.sessions[x]), st.cfg.ladder, now, {}), StepOf(Waiter(y, before.sessions[y]), st.cfg.ladder, now, {}))
    {
      FitsIsSymmetric(before.sessions[x].who, before.sessions[y].who,
                      StepOf(Waiter(x, before.sessions[x]), st.cfg.ladder, now, {}), StepOf(Waiter(y, before.sessions[y]), st.cfg.ladder, now, {}));
    }
  }

  /** So the hello's pass finds nobody, and one more waits. */
  lemma NewcomerStays(st: State, cfg: Config, sessions: map<SocketId, Session>, s: SocketId, language: string, topics: seq<string>, now: nat)
    requires Gathered(st, cfg, sessions) && s !in sessions && Inv(st)
    requires BeforePass(st, Greeting(s, language, topics), Plain(now)).Some? ==>
      Inv(BeforePass(st, Greeting(s, language, topics), Plain(now)).value)
    requires FitsNone(cfg, sessions, s, Newcomer(s, language, topics, now).who, now)
    ensures Gathered(Step(st, Greeting(s, language, topics), Plain(now)), cfg, sessions[s := Newcomer(s, language, topics, now)])
    ensures Step(st, Greeting(s, language, topics), Plain(now)).out == st.out + Welcome(s, now)
  {
    var ev, env := Greeting(s, language, topics), Plain(now);
    GreetingJoins(st, s, language, topics, now);
    var before := BeforePass(st, ev, env).value;
    EventIsPass(st, ev, env);
    NewcomerFitsNobody(st, before, s, Newcomer(s, language, topics, now), now);
    PassFindsNobody(before, env);
  }

  /** What the pass of a newcomer's hello starts from. */
  lemma ReadyAtHello(cfg: Config, run: seq<(Event, Env)>, sessions: map<SocketId, Session>,
                     s: SocketId, language: string, topics: seq<string>, now: nat)
    requires LegalRun(cfg, run, {}) && BannedAfter(run) == {} && TimeAfter(run) <= now
    requires Gathered(Run(Init(cfg), run), cfg, sessions) && s !in sessions
    ensures var before := BeforePass(Run(Init(cfg), run), Greeting(s, language, topics), Plain(now));
      && before.Some? && Inv(before.value) && before.value.nextRoom == 0 && s in before.value.dirty
      && Gathered(before.value.(dirty := {}), cfg, sessions[s := Newcomer(s, language, topics, now)])
  {
    var st := Run(Init(cfg), run);
    EveryRunIsDiligent(cfg, run, {});
    EveryRunIsConsistent(cfg, run);
    GreetingJoins(st, s, language, topics, now);
    EventIsReady(st, Greeting(s, language, topics), Plain(now), BannedAfter(run), TimeAfter(run));
  }

  /** One more waiter who fits nobody at this moment. */
  lemma OneMoreWaits(cfg: Config, run: seq<(Event, Env)>, sessions: map<SocketId, Session>,
                     s: SocketId, language: string, topics: seq<string>, now: nat) returns (run': seq<(Event, Env)>)
    requires LegalRun(cfg, run, {}) && BannedAfter(run) == {} && TimeAfter(run) <= now
    requires Gathered(Run(Init(cfg), run), cfg, sessions) && s !in sessions
    requires FitsNone(cfg, sessions, s, Newcomer(s, language, topics, now).who, now)
    ensures run' == run + [(Greeting(s, language, topics), Plain(now))]
    ensures LegalRun(cfg, run', {}) && BannedAfter(run') == {} && TimeAfter(run') == now
    ensures Gathered(Run(Init(cfg), run'), cfg, sessions[s := Newcomer(s, language, topics, now)])
    ensures Run(Init(cfg), run').out == Run(Init(cfg), run).out + Welcome(s, now)
  {
    var st := Run(Init(cfg), run);
    var ev, env := Greeting(s, language, topics), Plain(now);
    run' := run + [(ev, env)];
    RunSnoc(Init(cfg), run, ev, env);
    LegalSnoc(cfg, run, ev, now);
    EveryRunIsConsistent(cfg, run);
    ReadyAtHello(cfg, run, sessions, s, language, topics, now);
    NewcomerStays(st, cfg, sessions, s, language, topics, now);
  }

  /* ---------------------------------------------------------------- */
  /* A pair the pass after an event misses                             */
  /* ---------------------------------------------------------------- */

  lemma StrangersDoNotFit(a: Candidate, b: Candidate, stepA: int, stepB: int)
    requires a.preferences.languageFilter == b.preferences.languageFilter == ANY_LANGUAGE
    requires (stepA < MAX_STEP && stepB < MAX_STEP && PrimaryLanguage(a.profile.language) != PrimaryLanguage(b.profile.language))
             || (stepA == stepB == 0 && !SharesTopic(a.profile, b.profile))
    ensures !Fits(a, b, stepA, stepB)
  {
  }

  function One(language: string, topic: string): map<SocketId, Session> {
    map[][1 := Newcomer(1, language, [topic], 0)]
  }

  function Two(language: string, topic: string, another: string): map<SocketId, Session> {
    One(language, topic)[2 := Newcomer(2, language, [another], 0)]
  }

  lemma SecondFitsNone(cfg: Config, language: string, topic: string, another: string)
    requires 0 < cfg.ladder.relaxTopicsAfterMs && topic != another
    ensures FitsNone(cfg, One(language, topic), 2, Newcomer(2, language, [another], 0).who, 0)
  {
    var a, b := Newcomer(2, language, [another], 0).who, Newcomer(1, language, [topic], 0).who;
    assert !SharesTopic(a.profile, b.profile);
    StrangersDoNotFit(a, b, 0, 0);
  }

  lemma ThirdFitsNone(cfg: Config, language: string, other: string, topic: string, another: string, now: nat)
    requires 0 < cfg.ladder.relaxTopicsAfterMs == now < cfg.ladder.relaxLanguageAfterMs
    requires PrimaryLanguage(language) != PrimaryLanguage(other)
    ensures FitsNone(cfg, Two(language, topic, another), 3, Newcomer(3, other, [topic], now).who, now)
  {
    var who := Newcomer(3, other, [topic], now).who;
    StrangersDoNotFit(who, Newcomer(1, language, [topic], 0).who, 0, 1);
    StrangersDoNotFit(who, Newcomer(2, language, [another], 0).who, 0, 1);
  }

  /** By then the first two need no common topic. */
  lemma FirstTwoFit(st: State, cfg: Config, language: string, other: string, topic: string, another: string, now: nat)
    requires 0 < cfg.ladder.relaxTopicsAfterMs == now < cfg.ladder.relaxLanguageAfterMs
    requires Gathered(st, cfg, Two(language, topic, another)[3 := Newcomer(3, other, [topic], now)])
    ensures Matchable(st, {}, {}, 1, 2, now)
  {
    assert st.sessions[1] == Newcomer(1, language, [topic], 0) && st.sessions[2] == Newcomer(2, language, [another], 0);
  }

  /** So a pass over everybody would have matched somebody at that hello. */
  lemma WholePassMatches(st: State, ev: Event, env: Env)
    requires BeforePass(st, ev, env).Some? && Inv(BeforePass(st, ev, env).value) && env.open && env.banned == env.low == {}
    requires exists s, t :: Matchable(BeforePass(st, ev, env).value, {}, {}, s, t, env.now)
    requires Step(st, ev, env).nextRoom == BeforePass(st, ev, env).value.nextRoom
    ensures !SameOutcome(Step(st, ev, env), AfterPass(MatchPass(BeforePass(st, ev, env).value, WholePass, env), ev))
  {
    var before := BeforePass(st, ev, env).value;
    var s, t :| Matchable(before, {}, {}, s, t, env.now);
    assert Tried(before, WholePass, s, t, env);
    PassMatchesIff(before, WholePass, env);
  }

  lemma UnmarkedMatchable(st: State, s: SocketId, t: SocketId, now: nat)
    requires Matchable(st.(dirty := {}), {}, {}, s, t, now)
    ensures Matchable(st, {}, {}, s, t, now)
  {
  }

  lemma MissedAtHello(cfg: Config, run: seq<(Event, Env)>, language: string, other: string, topic: string, another: string, now: nat)
    requires 0 < cfg.ladder.relaxTopicsAfterMs == now < cfg.ladder.relaxLanguageAfterMs
    requires LegalRun(cfg, run, {}) && BannedAfter(run) == {} && TimeAfter(run) <= now
    requires Gathered(Run(Init(cfg), run), cfg, Two(language, topic, another))
    requires Step(Run(Init(cfg), run), Greeting(3, other, [topic]), Plain(now)).nextRoom == 0
    ensures var st, ev, env := Run(Init(cfg), run), Greeting(3, other, [topic]), Plain(now);
      && BeforePass(st, ev, env).Some?
      && !SameOutcome(Step(st, ev, env), AfterPass(MatchPass(BeforePass(st, ev, env).value, WholePass, env), ev))
  {
    var st, ev, env := Run(Init(cfg), run), Greeting(3, other, [topic]), Plain(now);
    ReadyAtHello(cfg, run, Two(language, topic, another), 3, other, [topic], now);
    var before := BeforePass(st, ev, env).value;
    FirstTwoFit(before.(dirty := {}), cfg, language, other, topic, another, now);
    UnmarkedMatchable(before, 1, 2, now);
    WholePassMatches(st, ev, env);
  }

  /**
   * Two waiters with nothing to talk about, and one of another language who
   * comes once the two need no common topic: the pass after that hello tries
   * the newcomer alone. The two stay, unmarked and matchable, where a pass over
   * everybody would have created a room.
   */
  lemma QuietPairIsMissed(cfg: Config, language: string, other: string, topic: string, another: string)
    returns (run: seq<(Event, Env)>, ev: Event, env: Env)
    requires 0 < cfg.ladder.relaxTopicsAfterMs < cfg.ladder.relaxLanguageAfterMs
    requires PrimaryLanguage(language) != PrimaryLanguage(other) && topic != another
    ensures |run| == 2 && ev.Hello? && LegalRun(cfg, run + [(ev, env)], {})
    ensures var st, now := Run(Init(cfg), run + [(ev, env)]), cfg.ladder.relaxTopicsAfterMs;
      st.dirty == {} && Matchable(st, {}, {}, 1, 2, now) && TimeAfter(run + [(ev, env)]) == now
    ensures var st := Run(Init(cfg), run);
      && BeforePass(st, ev, env).Some?
      && !SameOutcome(Step(st, ev, env), AfterPass(MatchPass(BeforePass(st, ev, env).value, WholePass, env), ev))
  {
    var now := cfg.ladder.relaxTopicsAfterMs;
    InitIsGathered(cfg);
    run := OneMoreWaits(cfg, [], map[], 1, language, [topic], 0);
    SecondFitsNone(cfg, language, topic, another);
    run := OneMoreWaits(cfg, run, One(language, topic), 2, language, [another], 0);
    ThirdFitsNone(cfg, language, other, topic, another, now);
    var all := OneMoreWaits(cfg, run, Two(language, topic, another), 3, other, [topic], now);
    ev, env := Greeting(3, other, [topic]), Plain(now);
    FirstTwoFit(Run(Init(cfg), all), cfg, language, other, topic, another, now);
    MissedAtHello(cfg, run, language, other, topic, another, now);
  }

  /* ---------------------------------------------------------------- */
  /* Clients who search in vain, or leave a queue they are still in     */
  /* ---------------------------------------------------------------- */

  lemma FirstClientSearches(s: SocketId)
    ensures Client(Welcome(s, 0), s).status == Searching
  {
    var one: seq<Item> := [Sent(s, HelloAccepted(AllGenders), 0)];
    assert Welcome(s, 0) == (one + [Sent(s, WalletUpdate, 0)]) + [Sent(s, QueueWaiting(0), 0)] && [] + one == one;
    ClientHears([], s, HelloAccepted(AllGenders), 0);
    ClientHears(one, s, WalletUpdate, 0);
    ClientHears(one + [Sent(s, WalletUpdate, 0)], s, QueueWaiting(0), 0);
  }

  /** The first one in is alone, queued, and shows a search. */
  lemma FirstOneIn(cfg: Config, language: string, topics: seq<string>) returns (run: seq<(Event, Env)>)
    ensures run == [(Greeting(1, language, topics), Plain(0))] && PoliteRun(cfg, run)
    ensures LegalRun(cfg, run, {}) && BannedAfter(run) == {} && TimeAfter(run) == 0
    ensures Gathered(Run(Init(cfg), run), cfg, map[][1 := Newcomer(1, language, topics, 0)])
    ensures Run(Init(cfg), run).out == Welcome(1, 0)
  {
    InitIsGathered(cfg);
    run := OneMoreWaits(cfg, [], map[], 1, language, topics, 0);
    assert run[..0] == [];
    assert [] + Welcome(1, 0) == Welcome(1, 0);
  }

  lemma PoliteSnoc(cfg: Config, run: seq<(Event, Env)>, ev: Event, env: Env)
    requires PoliteRun(cfg, run) && Polite(Run(Init(cfg), run), ev)
    ensures PoliteRun(cfg, run + [(ev, env)])
  {
    var run' := run + [(ev, env)];
    forall k | 0 <= k < |run'| ensures Polite(Run(Init(cfg), run'[..k]), run'[k].0) {
      assert run'[..k] == run[..k];
      if k == |run| {
        assert run[..k] == run;
      }
    }
  }

  lemma StrandsLast(cfg: Config, run: seq<(Event, Env)>, ev: Event, env: Env)
    ensures StrandsAt(cfg, run + [(ev, env)], |run|) <==> Strands(Run(Init(cfg), run), ev, env) != {}
  {
    assert (run + [(ev, env)])[..|run|] == run;
  }

  lemma NeverThenNot(cfg: Config, run: seq<(Event, Env)>)
    requires run != [] && PoliteRun(cfg, run) && PoliteRun(cfg, run[..|run| - 1])
    requires NeverStrands(cfg, run[..|run| - 1]) && !NeverStrands(cfg, run)
    ensures AlwaysSearchOk(cfg, run[..|run| - 1]) && !SearchOkAt(cfg, run, |run|)
  {
    SearchAgreesInEveryRun(cfg, run[..|run| - 1]);
    SearchAgreesInEveryRun(cfg, run);
    AlwaysBefore(cfg, run);
  }

  /** The first event of a polite run that strands somebody is the first after which a search is shown in vain. */
  lemma LastStrands(cfg: Config, run: seq<(Event, Env)>, ev: Event, env: Env)
    requires PoliteRun(cfg, run) && PoliteRun(cfg, run + [(ev, env)]) && NeverStrands(cfg, run)
    requires StrandsAt(cfg, run + [(ev, env)], |run|)
    ensures AlwaysSearchOk(cfg, run) && !SearchOkAt(cfg, run + [(ev, env)], |run| + 1)
  {
    var run' := run + [(ev, env)];
    assert run'[..|run|] == run;
    NeverThenNot(cfg, run');
  }

  /** A device banned while it waits: its session goes idle, its client goes on searching. */
  lemma RestrictedClientSearchesOn(cfg: Config) returns (run: seq<(Event, Env)>)
    ensures PoliteRun(cfg, run) && |run| == 2 && run[1].0 == Restrict(1, true)
    ensures StrandsAt(cfg, run, 1) && AlwaysSearchOk(cfg, run[..1]) && !SearchOkAt(cfg, run, 2)
  {
    var first := FirstOneIn(cfg, "en", []);
    var st := Run(Init(cfg), first);
    run := first + [(Restrict(1, true), Plain(0))];
    FirstClientSearches(1);
    PoliteSnoc(cfg, first, Restrict(1, true), Plain(0));
    StrandsLast(cfg, first, Restrict(1, true), Plain(0));
    LastStrands(cfg, first, Restrict(1, true), Plain(0));
  }

  /** A hello refused because the device is banned, on a socket whose session waits: the client leaves, the session stays queued. */
  lemma RefusedHelloStaysQueued(cfg: Config) returns (run: seq<(Event, Env)>, ev: Event)
    ensures PoliteRun(cfg, run) && |run| == 1 && ev.Hello?
    ensures var st := Run(Init(cfg), run);
      && Agree(st, {}) && Disrupts(st, ev, Plain(0)) && !Agree(Step(st, ev, Plain(0)), {})
      && ev.s in Step(st, ev, Plain(0)).sessions && Step(st, ev, Plain(0)).sessions[ev.s].state == Waiting
  {
    run := FirstOneIn(cfg, "en", []);
    var st := Run(Init(cfg), run);
    ev := Hello(1, HelloPayload(1, Profile(Other, "en", []), Preferences(AllGenders, ANY_LANGUAGE), Preview), ADMITTED.(restricted := true));
    ClientsAgreeInEveryRun(cfg, run);
    EveryRunIsConsistent(cfg, run);
    EveryRunIsOrderly(cfg, run);
    FirstClientSearches(1);
    StepAgreesUnlessDisrupted(st, ev, Plain(0));
  }

  lemma PassMakesRoom(st: State, env: Env, s: SocketId, t: SocketId)
    requires Inv(st) && env.open && Matchable(st, env.low, env.banned, s, t, env.now) && t in st.dirty
    ensures st.nextRoom in MatchPass(st, DirtyPass, env).rooms
  {
    assert Tried(st, DirtyPass, s, t, env);
    PassMatchesIff(st, DirtyPass, env);
  }

  lemma NeighboursFit(st: State, cfg: Config, topic: string)
    requires 0 < cfg.ladder.relaxTopicsAfterMs
    requires Gathered(st, cfg, map[][1 := Newcomer(1, "en", [topic], 0)][2 := Newcomer(2, "en", [topic], 0)])
    ensures Matchable(st, {}, {}, 1, 2, 0)
  {
    var a, b := Newcomer(1, "en", [topic], 0), Newcomer(2, "en", [topic], 0);
    assert st.sessions[1] == a && st.sessions[2] == b;
    assert topic in a.who.profile.topics && topic in b.who.profile.topics;
  }

  /** The pass of the second of two newcomers with a topic in common makes the first room. */
  lemma NeighboursGetRoom(before: State, cfg: Config, topic: string)
    requires 0 < cfg.ladder.relaxTopicsAfterMs && Inv(before) && 2 in before.dirty && before.nextRoom == 0
    requires Gathered(before.(dirty := {}), cfg, map[][1 := Newcomer(1, "en", [topic], 0)][2 := Newcomer(2, "en", [topic], 0)])
    ensures 0 in MatchPass(before, DirtyPass, Plain(0)).rooms
  {
    NeighboursFit(before.(dirty := {}), cfg, topic);
    UnmarkedMatchable(before, 1, 2, 0);
    PassMakesRoom(before, Plain(0), 1, 2);
  }

  lemma FirstRoom(cfg: Config, run: seq<(Event, Env)>, topic: string)
    requires run == [(Greeting(1, "en", [topic]), Plain(0))] && LegalRun(cfg, run, {}) && BannedAfter(run) == {} && TimeAfter(run) == 0
    requires 0 < cfg.ladder.relaxTopicsAfterMs
    requires Gathered(Run(Init(cfg), run), cfg, map[][1 := Newcomer(1, "en", [topic], 0)])
    ensures 0 in Step(Run(Init(cfg), run), Greeting(2, "en", [topic]), Plain(0)).rooms
  {
    var st, ev, env := Run(Init(cfg), run), Greeting(2, "en", [topic]), Plain(0);
    ReadyAtHello(cfg, run, map[][1 := Newcomer(1, "en", [topic], 0)], 2, "en", [topic], 0);
    NeighboursGetRoom(BeforePass(st, ev, env).value, cfg, topic);
    EventIsPass(st, ev, env);
  }

  lemma SecondOneIn(cfg: Config) returns (run: seq<(Event, Env)>)
    requires 0 < cfg.ladder.relaxTopicsAfterMs
    ensures PoliteRun(cfg, run) && |run| == 2 && NeverStrands(cfg, run) && 0 in Run(Init(cfg), run).rooms
  {
    var first := FirstOneIn(cfg, "en", ["films"]);
    var ev := Greeting(2, "en", ["films"]);
    FirstRoom(cfg, first, "films");
    run := first + [(ev, Plain(0))];
    SecondClientIsNew();
    PoliteSnoc(cfg, first, ev, Plain(0));
    RunSnoc(Init(cfg), first, ev, Plain(0));
  }

  lemma SecondClientIsNew()
    ensures Client(Welcome(1, 0), 2) == INITIAL
  {
    ClientOfOthers([], Welcome(1, 0), 2);
    assert [] + Welcome(1, 0) == Welcome(1, 0);
  }

  lemma CappedMemberIsStranded(st: State, r: RoomId)
    requires Inv(st) && r in st.rooms
    ensures var s := st.rooms[r].a;
      s in st.sessions && s in Strands(st, Skip(s, None), Plain(0).(capped := {st.sessions[s].who.deviceId}))
  {
    assert RoomOk(st.sessions, r, st.rooms[r]);
  }

  /** A member who skips after reaching the cap: its session is left idle, its client searches on. */
  lemma CappedClientSearchesOn(cfg: Config) returns (run: seq<(Event, Env)>)
    requires 0 < cfg.ladder.relaxTopicsAfterMs
    ensures PoliteRun(cfg, run) && |run| == 3 && run[2].0.Skip?
    ensures StrandsAt(cfg, run, 2) && AlwaysSearchOk(cfg, run[..2]) && !SearchOkAt(cfg, run, 3)
  {
    var second := SecondOneIn(cfg);
    var st := Run(Init(cfg), second);
    EveryRunIsConsistent(cfg, second);
    CappedMemberIsStranded(st, 0);
    var s := st.rooms[0].a;
    var ev, env := Skip(s, None), Plain(0).(capped := {st.sessions[s].who.deviceId});
    run := second + [(ev, env)];
    PoliteSnoc(cfg, second, ev, env);
    StrandsLast(cfg, second, ev, env);
    LastStrands(cfg, second, ev, env);
    assert run[..2] == second;
  }
}
