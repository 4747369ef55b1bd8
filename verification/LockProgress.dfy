/**
 * That the lock moves on: in every run a holder that leaves frees the key, the
 * next caller's command gets it, a caller whose granted SET NX was answered no
 * finds its own token, a timer that fires renews, and each process serves its
 * callers one after the other.
 */
module LockProgress {
  import opened Wrappers
  import opened LeaseLock

  /** What a caller waits for is on its way. */
  predicate Awaited(lock: Lock, c: Caller) {
    && (c.phase == Polling && c.awaiting.Some? ==> c.awaiting.value in lock.sent)
    && (c.renewing.Some? ==> c.renewing.value in lock.sent)
  }

  ghost predicate AllAwaited(lock: Lock) {
    forall t :: t in lock.callers ==> Awaited(lock, lock.callers[t])
  }

  /** What a caller awaits carries its own token. */
  lemma AwaitsItsOwn(lock: Lock, t: Token)
    requires Safe(lock) && t in lock.callers
    ensures var c := lock.callers[t];
      && (c.phase == Polling && c.awaiting.Some? ==> c.awaiting.value.token == t && !c.awaiting.value.Renew?)
      && (c.renewing.Some? ==> c.renewing.value.Renew? && c.renewing.value.token == t)
      && (c.phase == Polling || c.phase == Queued ==> c.renewing == None)
  {
    assert CallerOk(lock, t, lock.callers[t]);
  }

  lemma StepKeepsAwaited(lock: Lock, step: Step)
    requires Safe(lock) && AllAwaited(lock)
    ensures AllAwaited(Take(lock, step))
  {
    var after := Take(lock, step);
    if Enabled(lock, step) && !step.Tick? && !step.Call? && !step.Run? {
      CallerStepShape(lock, step);
      AwaitsItsOwn(lock, step.t);
      forall u | u in after.callers ensures Awaited(after, after.callers[u]) {
        AwaitsItsOwn(lock, u);
        assert Awaited(lock, lock.callers[u]);
      }
    } else if step.Run? {
      CommandsAreFenced(lock, step.command);
      forall u | u in after.callers ensures Awaited(after, after.callers[u]) {
        assert Awaited(lock, lock.callers[u]);
      }
    } else {
      forall u | u in after.callers ensures Awaited(after, after.callers[u]) {
        assert u in lock.callers ==> Awaited(lock, lock.callers[u]);
      }
    }
  }

  lemma {:induction false} EveryRunIsAwaited(cfg: Config, steps: seq<Step>)
    ensures AllAwaited(TakeAll(Start(cfg), steps))
  {
    if steps != [] {
      var n := |steps| - 1;
      EveryRunIsAwaited(cfg, steps[..n]);
      EveryInterleavingIsSafe(cfg, steps[..n]);
      StepKeepsAwaited(TakeAll(Start(cfg), steps[..n]), steps[n]);
    }
  }

  /* ---------------------------------------------------------------- */
  /* Release                                                           */
  /* ---------------------------------------------------------------- */

  /** In the section, holding the key, and not told otherwise. */
  predicate HoldsKey(lock: Lock, t: Token) {
    t in lock.callers && lock.callers[t].phase == Inside && !lock.callers[t].lost && Holder(lock) == Some(t)
  }

  /** Waiting for the answer to a SET NX that may still execute. */
  predicate AsksFor(lock: Lock, u: Token, at: nat) {
    && u in lock.callers && lock.callers[u].phase == Polling && lock.callers[u].awaiting == Some(SetNx(u, at))
    && lock.now <= at + lock.cfg.delayMs
  }

  /** After `t` has left and its release executed. */
  function Released(lock: Lock, t: Token): Lock {
    Take(Take(lock, Leave(t)), Run(Del(t, lock.now)))
  }

  /** After the SET NX of `u` was executed and the answer that it got the key arrived. */
  function EnteredBy(lock: Lock, u: Token, at: nat): Lock {
    Take(Take(lock, Run(SetNx(u, at))), Answer(u, true))
  }

  /** In any state a holder that leaves, and whose release executes, leaves the key to nobody; everybody else is where it was. */
  lemma LeavingFreesTheKey(lock: Lock, t: Token)
    requires HoldsKey(lock, t)
    ensures Take(lock, Leave(t)).callers[t].phase == Leaving && Enabled(Take(lock, Leave(t)), Run(Del(t, lock.now)))
    ensures var freed := Released(lock, t);
      && freed.key == None && freed.now == lock.now && freed.cfg == lock.cfg
      && freed.callers.Keys == lock.callers.Keys && (forall u :: u in lock.callers && u != t ==> freed.callers[u] == lock.callers[u])
      && lock.sent <= freed.sent
  {
    var left := Take(lock, Leave(t));
    CallerStepShape(lock, Leave(t));
    assert Del(t, lock.now) in left.sent;
    CommandsAreFenced(left, Del(t, lock.now));
  }

  /** A free key goes to the next SET NX that executes, and its answer puts the caller in the section. */
  lemma FreeKeyIsTaken(lock: Lock, u: Token, at: nat)
    requires Safe(lock) && Holder(lock) == None && AsksFor(lock, u, at) && SetNx(u, at) in lock.sent && lock.cfg.ttlMs > 0
    ensures Holder(Take(lock, Run(SetNx(u, at)))) == Some(u)
    ensures HoldsKey(EnteredBy(lock, u, at), u) && EnteredBy(lock, u, at).key == Some(Key(u, lock.now + lock.cfg.ttlMs))
  {
    var granted := Take(lock, Run(SetNx(u, at)));
    assert Reply(SetNx(u, at), true) in granted.replies && CallerOk(lock, u, lock.callers[u]);
    CommandsAreFenced(lock, SetNx(u, at));
  }

  lemma TakeTwoMore(cfg: Config, steps: seq<Step>, a: Step, b: Step)
    ensures TakeAll(Start(cfg), steps + [a, b]) == Take(Take(TakeAll(Start(cfg), steps), a), b)
  {
    TakeMore(Start(cfg), steps, [a, b]);
    TakeTwo(TakeAll(Start(cfg), steps), a, b);
  }

  /** The two steps by which a holder gives the key back, and those by which a waiting caller gets it. */
  function Release(t: Token, now: nat): seq<Step> {
    [Leave(t), Run(Del(t, now))]
  }

  function Grant(u: Token, at: nat): seq<Step> {
    [Run(SetNx(u, at)), Answer(u, true)]
  }

  /**
   * In every run: a caller in the section whose lease is alive, and that was
   * not told it lost it, frees the key by leaving, as soon as its release
   * executes; nobody then holds the lock, and whoever waits still does.
   */
  lemma LeavingFreesTheLock(cfg: Config, steps: seq<Step>, t: Token)
    requires HoldsKey(TakeAll(Start(cfg), steps), t)
    ensures var lock := TakeAll(Start(cfg), steps);
      var freed := TakeAll(Start(cfg), steps + Release(t, lock.now));
      && freed.key == None && Holder(freed) == None && freed.now == lock.now
      && forall u: Token, at: nat :: AsksFor(lock, u, at) ==> AsksFor(freed, u, at)
  {
    var lock := TakeAll(Start(cfg), steps);
    TakeTwoMore(cfg, steps, Leave(t), Run(Del(t, lock.now)));
    LeavingFreesTheKey(lock, t);
  }

  /** In every run: while nobody holds the lock, the next SET NX that executes is granted and brings its caller into the section. */
  lemma NextCallerGetsTheLock(cfg: Config, steps: seq<Step>, u: Token, at: nat)
    requires var lock := TakeAll(Start(cfg), steps); Holder(lock) == None && AsksFor(lock, u, at) && cfg.ttlMs > 0
    ensures var lock, entered := TakeAll(Start(cfg), steps), TakeAll(Start(cfg), steps + Grant(u, at));
      HoldsKey(entered, u) && entered.key == Some(Key(u, lock.now + cfg.ttlMs))
  {
    var lock := TakeAll(Start(cfg), steps);
    EveryInterleavingIsSafe(cfg, steps);
    EveryRunIsAwaited(cfg, steps);
    assert Awaited(lock, lock.callers[u]);
    TakeTwoMore(cfg, steps, Run(SetNx(u, at)), Answer(u, true));
    FreeKeyIsTaken(lock, u, at);
  }

  /** So a holder that leaves lets any waiting caller in. */
  lemma LeavingLetsTheNextIn(cfg: Config, steps: seq<Step>, t: Token, u: Token, at: nat)
    requires var lock := TakeAll(Start(cfg), steps); HoldsKey(lock, t) && AsksFor(lock, u, at) && cfg.ttlMs > 0
    ensures var lock := TakeAll(Start(cfg), steps);
      HoldsKey(TakeAll(Start(cfg), steps + Release(t, lock.now) + Grant(u, at)), u)
  {
    var lock := TakeAll(Start(cfg), steps);
    LeavingFreesTheLock(cfg, steps, t);
    NextCallerGetsTheLock(cfg, steps + Release(t, lock.now), u, at);
  }

  /* ---------------------------------------------------------------- */
  /* Polling and renewal                                               */
  /* ---------------------------------------------------------------- */

  /**
   * In every run: a caller whose SET NX took the key, but is executed again and
   * answered no, asks with a GET, finds its own token and enters.
   */
  lemma GrantedCallerFindsItsToken(cfg: Config, steps: seq<Step>, u: Token, at: nat)
    requires var lock := TakeAll(Start(cfg), steps); Holder(lock) == Some(u) && AsksFor(lock, u, at)
    ensures var lock := TakeAll(Start(cfg), steps);
      var asking := Take(Take(lock, Run(SetNx(u, at))), Answer(u, false));
      HoldsKey(Take(Take(asking, Run(Get(u, lock.now))), Answer(u, true)), u)
  {
    var lock := TakeAll(Start(cfg), steps);
    EveryInterleavingIsSafe(cfg, steps);
    EveryRunIsAwaited(cfg, steps);
    assert Awaited(lock, lock.callers[u]) && CallerOk(lock, u, lock.callers[u]);
    var refused := Take(lock, Run(SetNx(u, at)));
    assert Reply(SetNx(u, at), false) in refused.replies && refused.callers == lock.callers && refused.key == lock.key;
    var asking := Take(refused, Answer(u, false));
    CallerStepShape(refused, Answer(u, false));
    assert Get(u, lock.now) in asking.sent && asking.callers[u].awaiting == Some(Get(u, lock.now));
    var found := Take(asking, Run(Get(u, lock.now)));
    assert Reply(Get(u, lock.now), true) in found.replies && found.callers == asking.callers && found.key == lock.key;
    CallerStepShape(found, Answer(u, true));
  }

  /** In every run: a caller that finds the key taken asks again later, and gets it once nobody holds it. */
  lemma RefusedCallerAsksAgain(cfg: Config, steps: seq<Step>, u: Token)
    requires var lock := TakeAll(Start(cfg), steps);
      && u in lock.callers && lock.callers[u].phase == Polling && lock.callers[u].awaiting == None && lock.now > lock.callers[u].polled
    ensures var lock := TakeAll(Start(cfg), steps);
      var asking := Take(lock, PollAgain(u));
      && AsksFor(asking, u, lock.now)
      && (Holder(lock) == None && cfg.ttlMs > 0 ==> HoldsKey(EnteredBy(asking, u, lock.now), u))
  {
    var lock := TakeAll(Start(cfg), steps);
    EveryInterleavingIsSafe(cfg, steps);
    var asking := Take(lock, PollAgain(u));
    CallerStepShape(lock, PollAgain(u));
    assert SetNx(u, lock.now) in asking.sent;
    StepKeepsSafe(lock, PollAgain(u));
    if Holder(lock) == None && cfg.ttlMs > 0 {
      FreeKeyIsTaken(asking, u, lock.now);
    }
  }

  /**
   * In every run: when the timer of a holder fires within the hold limit and no
   * renewal is on its way, the renewal it sends gives it a full lease again.
   */
  lemma TimerRenewsTheLease(cfg: Config, steps: seq<Step>, t: Token)
    requires var lock := TakeAll(Start(cfg), steps);
      && HoldsKey(lock, t) && lock.callers[t].renewing == None && !lock.callers[t].stopped
      && lock.callers[t].lastTick + Period(cfg.ttlMs) <= lock.now < lock.callers[t].started + cfg.holdMaxMs
    ensures var lock := TakeAll(Start(cfg), steps);
      var renewed := Take(Take(lock, Renewal(t)), Run(Renew(t, lock.now)));
      var answered := Take(renewed, RenewalAnswered(t, true));
      && renewed.key == Some(Key(t, lock.now + cfg.ttlMs))
      && answered.callers[t].confirmed == lock.now && answered.callers[t].renewing == None && answered.callers[t].phase == Inside
  {
    var lock := TakeAll(Start(cfg), steps);
    EveryInterleavingIsSafe(cfg, steps);
    assert CallerOk(lock, t, lock.callers[t]);
    ConfirmedInThePast(cfg, steps, t);
    var sent := Take(lock, Renewal(t));
    CallerStepShape(lock, Renewal(t));
    assert Renew(t, lock.now) in sent.sent && sent.key == lock.key;
    assert Holder(sent) == Some(t);
    RenewalIsAnswered(sent, t, lock.now);
  }

  lemma RenewalIsAnswered(lock: Lock, t: Token, at: nat)
    requires HoldsKey(lock, t) && Enabled(lock, Run(Renew(t, at))) && lock.callers[t].renewing == Some(Renew(t, at)) && lock.callers[t].confirmed <= at
    ensures var renewed := Take(lock, Run(Renew(t, at)));
      var answered := Take(renewed, RenewalAnswered(t, true));
      && renewed.key == Some(Key(t, lock.now + lock.cfg.ttlMs))
      && answered.callers[t].confirmed == at && answered.callers[t].renewing == None && answered.callers[t].phase == Inside
  {
    var renewed := Take(lock, Run(Renew(t, at)));
    assert Reply(Renew(t, at), true) in renewed.replies && renewed.callers == lock.callers;
    CallerStepShape(renewed, RenewalAnswered(t, true));
  }

  lemma ConfirmedInThePast(cfg: Config, steps: seq<Step>, t: Token)
    requires var lock := TakeAll(Start(cfg), steps); t in lock.callers && lock.callers[t].phase == Inside
    ensures TakeAll(Start(cfg), steps).callers[t].confirmed <= TakeAll(Start(cfg), steps).now
  {
    var lock := TakeAll(Start(cfg), steps);
    EveryInterleavingIsSafe(cfg, steps);
    assert CallerOk(lock, t, lock.callers[t]);
  }

  /** The timer's period is a third of the lease, rounded, and never nothing. */
  lemma PeriodIsAThird(ttlMs: nat)
    ensures Period(ttlMs) >= 1 && (ttlMs >= 2 ==> 3 * Period(ttlMs) <= ttlMs + 1 && ttlMs <= 3 * Period(ttlMs) + 1)
  {
  }

  /** A holder whose renewal is answered no, before it was stopped, knows that it lost the lease and renews no more. */
  lemma RefusedRenewalIsReported(lock: Lock, t: Token)
    requires t in lock.callers && lock.callers[t].renewing.Some? && Reply(lock.callers[t].renewing.value, false) in lock.replies
    ensures var c, c' := lock.callers[t], Take(lock, RenewalAnswered(t, false)).callers[t];
      c' == c.(renewing := None, stopped := true, lost := c.lost || !c.stopped)
  {
  }

  /** A renewal that fails without an answer leaves the holder as it was; the next tick sends another. */
  lemma FailedRenewalIsTriedAgain(lock: Lock, t: Token)
    requires t in lock.callers && lock.callers[t].phase == Inside && lock.callers[t].renewing.Some? && !lock.callers[t].stopped
    requires lock.callers[t].lastTick + Period(lock.cfg.ttlMs) <= lock.now < lock.callers[t].started + lock.cfg.holdMaxMs
    ensures var failed := Take(lock, RenewalFailed(t));
      var sent := Take(failed, Renewal(t));
      && !failed.callers[t].stopped && failed.callers[t].lost == lock.callers[t].lost
      && sent.callers[t].renewing == Some(Renew(t, lock.now)) && Renew(t, lock.now) in sent.sent
  {
    var failed := Take(lock, RenewalFailed(t));
    assert failed.callers[t] == lock.callers[t].(renewing := None);
    CallerStepShape(failed, Renewal(t));
  }

  /** At the hold limit the timer stops instead. */
  lemma HoldLimitStopsRenewal(lock: Lock, t: Token)
    requires t in lock.callers && lock.callers[t].phase == Inside && lock.callers[t].renewing == None && !lock.callers[t].stopped
    requires lock.now >= lock.callers[t].lastTick + Period(lock.cfg.ttlMs) && lock.now >= lock.callers[t].started + lock.cfg.holdMaxMs
    ensures var sent := Take(lock, Renewal(t)); sent.callers[t].stopped && sent.callers[t].renewing == None && sent.sent == lock.sent
  {
    CallerStepShape(lock, Renewal(t));
  }

  /** In every run: once told that its lease was lost, a holder that leaves sends no release. */
  lemma LoserReleasesNothing(cfg: Config, steps: seq<Step>, t: Token)
    requires var lock := TakeAll(Start(cfg), steps); t in lock.callers && lock.callers[t].phase == Inside && lock.callers[t].lost
    ensures var lock := TakeAll(Start(cfg), steps);
      var left := Take(lock, Leave(t)); left.callers[t].phase == Left && left.sent == lock.sent
  {
    CallerStepShape(TakeAll(Start(cfg), steps), Leave(t));
  }

  /* ---------------------------------------------------------------- */
  /* The queue of a process                                            */
  /* ---------------------------------------------------------------- */

  /** `u` queued directly behind `t` in its process. */
  predicate Behind(lock: Lock, t: Token, u: Token) {
    && t in lock.callers && u in lock.callers
    && lock.callers[u].process == lock.callers[t].process && lock.callers[u].place == lock.callers[t].place + 1
  }

  /** A caller is done once it finished its release, gave up polling, or passed its slot on. */
  lemma TurnsEnd(lock: Lock, t: Token)
    requires t in lock.callers
    ensures lock.callers[t].phase == Leaving ==> Take(lock, Finish(t)).callers[t].phase == Left
    ensures lock.callers[t].phase == Polling ==> Take(lock, GiveUp(t)).callers[t].phase == Left
    ensures lock.callers[t].phase == Abandoned && FirstInLine(lock, lock.callers[t]) ==> Take(lock, PassOn(t)).callers[t].phase == Left
    ensures lock.callers[t].phase == Queued ==> Take(lock, TimeOut(t)).callers[t].phase == Abandoned
  {
  }

  /**
   * In every run: once a caller is done, the one behind it in its process is
   * served, and its SET NX is on its way; or, if it timed out, passes on.
   */
  lemma NextInLineIsServed(cfg: Config, steps: seq<Step>, t: Token, u: Token)
    requires var lock := TakeAll(Start(cfg), steps); Behind(lock, t, u) && lock.callers[t].phase == Left
    ensures var lock := TakeAll(Start(cfg), steps);
      && (lock.callers[u].phase == Queued ==>
            var served := Take(lock, Serve(u)); AsksFor(served, u, lock.now) && Enabled(served, Run(SetNx(u, lock.now))))
      && (lock.callers[u].phase == Abandoned ==> Take(lock, PassOn(u)).callers[u].phase == Left)
  {
    var lock := TakeAll(Start(cfg), steps);
    EveryQueueIsInLine(cfg, steps);
    var c := lock.callers[u];
    assert Queue(lock, c.process)[lock.callers[t].place] == t;
    assert FirstInLine(lock, c);
    if c.phase == Queued {
      CallerStepShape(lock, Serve(u));
      assert SetNx(u, lock.now) in Take(lock, Serve(u)).sent;
    }
  }

  /** In every run: the first caller of a process is served at once. */
  lemma FirstIsServed(cfg: Config, steps: seq<Step>, p: Process)
    requires Queue(TakeAll(Start(cfg), steps), p) == []
    ensures var lock := TakeAll(Start(cfg), steps);
      var served := Take(Take(lock, Call(p)), Serve(lock.next)); AsksFor(served, lock.next, lock.now)
  {
    var called := Take(TakeAll(Start(cfg), steps), Call(p));
    CallerStepShape(called, Serve(called.next - 1));
  }
}
