/**
 * The lock of RedisStore.withLock: one key with a token and an expiry, callers
 * that wait their turn in their own process, then poll the key with SET NX and
 * GET, renew it on a timer while their section runs and release it by
 * compare-and-delete. Until it is answered a command may execute late, more
 * than once (re-sent after a lost reply) or never, in any interleaving.
 */
module LeaseLock {
  import opened Wrappers

  /** Fresh for every withLock call. */
  type Token = nat
  type Process = nat

  datatype Command =
    | SetNx(token: Token, sentAt: nat)
    | Get(token: Token, sentAt: nat)
    | Renew(token: Token, sentAt: nat)
    | Del(token: Token, sentAt: nat)

  datatype Reply = Reply(command: Command, ok: bool)

  /** Behind another caller of its process, polling, in the section, releasing, timed out in the queue, or done. */
  datatype Phase = Queued | Polling | Inside | Leaving | Abandoned | Left

  /**
   * One withLock call. `asked` is when its last SET NX was sent, `polled` its
   * last command while polling, `confirmed` the command that last proved the
   * lease to it, and `lastTick` when the renewal timer last fired.
   */
  datatype Caller = Caller(
    process: Process,
    place: nat,
    phase: Phase,
    asked: nat,
    polled: nat,
    awaiting: Option<Command>,
    entered: bool,
    started: nat,
    confirmed: nat,
    lastTick: nat,
    renewing: Option<Command>,
    stopped: bool,
    lost: bool)

  datatype Key = Key(token: Token, until: nat)

  /** `delayMs` bounds how long after it was sent a command may still execute. */
  datatype Config = Config(ttlMs: nat, holdMaxMs: nat, delayMs: nat)

  /** The lease is renewed every third of its length. */
  function Period(ttlMs: nat): nat {
    Max(1, (ttlMs + 1) / 3)
  }

  /** `leases` remembers for each token when the lease it was last granted ends. */
  datatype Lock = Lock(
    cfg: Config,
    now: nat,
    key: Option<Key>,
    leases: map<Token, nat>,
    callers: map<Token, Caller>,
    queues: map<Process, seq<Token>>,
    next: Token,
    sent: set<Command>,
    replies: set<Reply>)

  function Start(cfg: Config): Lock {
    Lock(cfg, 0, None, map[], map[], map[], 0, {}, {})
  }

  /* ---------------------------------------------------------------- */
  /* Redis                                                             */
  /* ---------------------------------------------------------------- */

  /** The key's holder, while its expiry is ahead. */
  function Holder(lock: Lock): Option<Token> {
    if lock.key.Some? && lock.key.value.until > lock.now then Some(lock.key.value.token) else None
  }

  function LeaseOf(lock: Lock, t: Token): nat {
    if t in lock.leases then lock.leases[t] else 0
  }

  function Granted(lock: Lock, t: Token): Lock {
    var until := lock.now + lock.cfg.ttlMs;
    lock.(key := Some(Key(t, until)), leases := lock.leases[t := until])
  }

  function Answered(lock: Lock, command: Command, ok: bool): Lock {
    lock.(replies := lock.replies + {Reply(command, ok)})
  }

  /** Executing one command, atomically; the two scripts act only on a key that still holds their token. */
  function Execute(lock: Lock, command: Command): Lock {
    match command
    case SetNx(t, _) =>
      if Holder(lock) == None then Answered(Granted(lock, t), command, true) else Answered(lock, command, false)
    case Get(t, _) => Answered(lock, command, Holder(lock) == Some(t))
    case Renew(t, _) =>
      if Holder(lock) == Some(t) then Answered(Granted(lock, t), command, true) else Answered(lock, command, false)
    case Del(t, _) =>
      if Holder(lock) == Some(t) then Answered(lock.(key := None, leases := lock.leases[t := 0]), command, true)
      else Answered(lock, command, false)
  }

  /* ---------------------------------------------------------------- */
  /* Callers                                                           */
  /* ---------------------------------------------------------------- */

  datatype Step =
    | Tick(ms: nat)
    | Call(p: Process)
    | Run(command: Command)
    | TimeOut(t: Token)
    | PassOn(t: Token)
    | Serve(t: Token)
    | PollAgain(t: Token)
    | Answer(t: Token, ok: bool)
    | GiveUp(t: Token)
    | Renewal(t: Token)
    | RenewalAnswered(t: Token, ok: bool)
    | RenewalFailed(t: Token)
    | Leave(t: Token)
    | Finish(t: Token)

  function Queue(lock: Lock, p: Process): seq<Token> {
    if p in lock.queues then lock.queues[p] else []
  }

  /** Everyone a caller of its process queued behind has passed its slot on. */
  predicate FirstInLine(lock: Lock, c: Caller) {
    c.place == 0
    || (var queue := Queue(lock, c.process);
        c.place - 1 < |queue| && queue[c.place - 1] in lock.callers && lock.callers[queue[c.place - 1]].phase == Left)
  }

  function Put(lock: Lock, t: Token, c: Caller): Lock {
    lock.(callers := lock.callers[t := c])
  }

  /** Whether the client or Redis may take the step now. */
  predicate Enabled(lock: Lock, step: Step) {
    match step
    case Tick(_) => true
    case Call(_) => true
    case Run(command) => command in lock.sent && lock.now <= command.sentAt + lock.cfg.delayMs
    case _ =>
      && step.t in lock.callers
      && var c := lock.callers[step.t];
      match step
      case TimeOut(_) => c.phase == Queued
      case PassOn(_) => c.phase == Abandoned && FirstInLine(lock, c)
      case Serve(_) => c.phase == Queued && FirstInLine(lock, c)
      case PollAgain(_) => c.phase == Polling && c.awaiting == None && lock.now > c.polled
      case Answer(_, ok) => c.phase == Polling && c.awaiting.Some? && Reply(c.awaiting.value, ok) in lock.replies
      case GiveUp(_) => c.phase == Polling
      case Renewal(_) => c.phase == Inside && !c.stopped && lock.now >= c.lastTick + Period(lock.cfg.ttlMs)
      case RenewalAnswered(_, ok) => c.renewing.Some? && Reply(c.renewing.value, ok) in lock.replies
      case RenewalFailed(_) => c.renewing.Some?
      case Leave(_) => c.phase == Inside
      case Finish(_) => c.phase == Leaving
      case _ => false
  }

  function NewCaller(p: Process, place: nat): Caller {
    Caller(p, place, Queued, 0, 0, None, false, 0, 0, 0, None, false, false)
  }

  /** What a caller becomes by its own step. */
  function CallerAfter(lock: Lock, step: Step, c: Caller): Caller
    requires !step.Tick? && !step.Call? && !step.Run?
  {
    match step
    case TimeOut(_) => c.(phase := Abandoned)
    case PassOn(_) => c.(phase := Left)
    case Serve(t) => c.(phase := Polling, asked := lock.now, polled := lock.now, awaiting := Some(SetNx(t, lock.now)))
    case PollAgain(t) => c.(asked := lock.now, polled := lock.now, awaiting := Some(SetNx(t, lock.now)))
    case Answer(t, ok) =>
      if ok then c.(phase := Inside, awaiting := None, entered := true, started := lock.now, lastTick := lock.now, confirmed := c.asked)
      else if c.awaiting.Some? && c.awaiting.value.SetNx? then c.(polled := lock.now, awaiting := Some(Get(t, lock.now)))
      else c.(awaiting := None)
    case GiveUp(_) => c.(phase := Left)
    case Renewal(t) =>
      if c.renewing.Some? then c.(lastTick := lock.now)
      else if lock.now - c.started >= lock.cfg.holdMaxMs then c.(lastTick := lock.now, stopped := true)
      else c.(lastTick := lock.now, renewing := Some(Renew(t, lock.now)))
    case RenewalAnswered(_, ok) =>
      if ok then c.(renewing := None, confirmed := if c.renewing.Some? then Max(c.confirmed, c.renewing.value.sentAt) else c.confirmed)
      else c.(renewing := None, lost := c.lost || !c.stopped, stopped := true)
    case RenewalFailed(_) => c.(renewing := None)
    case Leave(_) => c.(phase := if c.lost then Left else Leaving, stopped := true)
    case Finish(_) => c.(phase := Left)
  }

  /** The command a caller's step sends, if any. */
  function Sends(lock: Lock, step: Step, c: Caller): set<Command>
    requires !step.Tick? && !step.Call? && !step.Run?
  {
    match step
    case Serve(t) => {SetNx(t, lock.now)}
    case PollAgain(t) => {SetNx(t, lock.now)}
    case Answer(t, ok) => if !ok && c.awaiting.Some? && c.awaiting.value.SetNx? then {Get(t, lock.now)} else {}
    case Renewal(t) => if c.renewing == None && lock.now - c.started < lock.cfg.holdMaxMs then {Renew(t, lock.now)} else {}
    case Leave(t) => if c.lost then {} else {Del(t, lock.now)}
    case _ => {}
  }

  /** An answered command executes no more. */
  function Settles(step: Step, c: Caller): set<Command> {
    if step.Answer? && c.awaiting.Some? then {c.awaiting.value}
    else if step.RenewalAnswered? && c.renewing.Some? then {c.renewing.value}
    else {}
  }

  /** A step that is not enabled changes nothing. */
  function Take(lock: Lock, step: Step): Lock {
    if !Enabled(lock, step) then lock
    else
      match step
      case Tick(ms) => lock.(now := lock.now + ms)
      case Call(p) =>
        lock.(callers := lock.callers[lock.next := NewCaller(p, |Queue(lock, p)|)],
              queues := lock.queues[p := Queue(lock, p) + [lock.next]],
              next := lock.next + 1)
      case Run(command) => Execute(lock, command)
      case _ =>
        var c := lock.callers[step.t];
        Put(lock, step.t, CallerAfter(lock, step, c)).(sent := lock.sent - Settles(step, c) + Sends(lock, step, c))
  }

  function TakeAll(lock: Lock, steps: seq<Step>): Lock {
    if steps == [] then lock else Take(TakeAll(lock, steps[..|steps| - 1]), steps[|steps| - 1])
  }

  /* ---------------------------------------------------------------- */
  /* What every interleaving keeps                                     */
  /* ---------------------------------------------------------------- */

  /** An unexpired lease is the stored one. */
  ghost predicate KeyOk(lock: Lock) {
    forall t :: LeaseOf(lock, t) > lock.now ==> lock.key == Some(Key(t, LeaseOf(lock, t)))
  }

  /** What the key says is what was granted. */
  predicate GrantOk(lock: Lock) {
    lock.key.Some? ==> LeaseOf(lock, lock.key.value.token) == lock.key.value.until
  }

  /** How long the lease of a caller that entered can last: renewals start a period in and stop at the hold limit. */
  function LastMoment(cfg: Config, started: nat): nat {
    if cfg.holdMaxMs > Period(cfg.ttlMs) && cfg.ttlMs > 1 then started + cfg.holdMaxMs - 1 + cfg.delayMs + cfg.ttlMs else started + cfg.ttlMs
  }

  /** The lease a polling caller may have is that of its last SET NX, or over. */
  predicate PollOk(lock: Lock, t: Token, c: Caller) {
    && !c.entered && c.asked <= c.polled <= lock.now
    && (LeaseOf(lock, t) <= lock.now || LeaseOf(lock, t) >= c.asked + lock.cfg.ttlMs)
    && (c.awaiting == None ==> LeaseOf(lock, t) <= lock.now)
    && (c.awaiting.Some? ==> c.awaiting.value == SetNx(t, c.asked) || c.awaiting.value == Get(t, c.polled))
  }

  predicate CallerOk(lock: Lock, t: Token, c: Caller) {
    && t < lock.next
    && LeaseOf(lock, t) <= lock.now + lock.cfg.ttlMs
    && (c.phase == Queued || c.phase == Abandoned ==> LeaseOf(lock, t) == 0 && !c.entered)
    && (c.phase == Polling ==> PollOk(lock, t, c))
    && (!c.entered ==> c.renewing == None && !c.stopped && !c.lost)
    && (c.phase == Inside || c.phase == Leaving ==> c.entered)
    && (c.entered ==> c.started <= c.lastTick <= lock.now && LeaseOf(lock, t) <= LastMoment(lock.cfg, c.started))
    && (c.phase == Inside ==> LeaseOf(lock, t) >= c.confirmed + lock.cfg.ttlMs)
    && (c.renewing.Some? ==> c.renewing.value.Renew? && c.renewing.value.token == t && c.renewing.value.sentAt <= c.lastTick)
  }

  predicate CommandOk(lock: Lock, command: Command) {
    && command.token in lock.callers && command.sentAt <= lock.now
    && var c := lock.callers[command.token];
    match command
    case SetNx(_, at) => (c.phase == Polling && c.awaiting == Some(command)) || (c.phase == Left && !c.entered)
    case Get(_, at) => (c.phase == Polling && c.awaiting == Some(command)) || (c.phase == Left && !c.entered)
    case Renew(_, at) =>
      c.entered && c.started + Period(lock.cfg.ttlMs) <= at < c.started + lock.cfg.holdMaxMs && at <= c.lastTick
    case Del(_, _) => c.phase == Leaving || c.phase == Left
  }

  /** What an answer proves to the caller waiting for it. */
  predicate ReplyOk(lock: Lock, reply: Reply) {
    && reply.command.token in lock.callers
    && var t, c := reply.command.token, lock.callers[reply.command.token];
    var awaited := c.phase == Polling && c.awaiting == Some(reply.command);
    && c.phase != Queued && c.phase != Abandoned
    && (c.phase == Polling && reply.command.SetNx? ==> reply.command.sentAt <= c.asked)
    && (c.phase == Polling && reply.command.Get? ==> reply.command.sentAt <= c.polled)
    && (c.phase == Polling && reply.command.Get? && c.awaiting == Some(SetNx(t, c.asked)) ==> reply.command.sentAt < c.asked)
    && (awaited && reply.ok ==> LeaseOf(lock, t) >= c.asked + lock.cfg.ttlMs)
    && (awaited && reply.command.Get? && !reply.ok ==> LeaseOf(lock, t) <= lock.now)
    && (reply.command.Renew? ==> c.entered && reply.command.sentAt <= c.lastTick)
    && (reply.command.Renew? && reply.ok && c.phase == Inside ==> LeaseOf(lock, t) >= reply.command.sentAt + lock.cfg.ttlMs)
  }

  ghost predicate CallersOk(lock: Lock) {
    && (forall t :: t in lock.callers ==> CallerOk(lock, t, lock.callers[t]))
    && (forall t :: t in lock.leases ==> t in lock.callers)
  }

  ghost predicate CommandsOk(lock: Lock) {
    forall command :: command in lock.sent ==> CommandOk(lock, command)
  }

  ghost predicate RepliesOk(lock: Lock) {
    forall reply :: reply in lock.replies ==> ReplyOk(lock, reply)
  }

  ghost predicate Safe(lock: Lock) {
    KeyOk(lock) && GrantOk(lock) && CallersOk(lock) && CommandsOk(lock) && RepliesOk(lock)
  }

  /** Only the token that sent a command can gain, extend or lose a lease by it. */
  lemma CommandsAreFenced(lock: Lock, command: Command)
    ensures var after := Execute(lock, command);
      && (forall t :: t != command.token ==> LeaseOf(after, t) == LeaseOf(lock, t))
      && (Holder(lock).Some? && Holder(lock) != Some(command.token) ==> after.key == lock.key)
      && after.callers == lock.callers && after.sent == lock.sent && after.now == lock.now && after.cfg == lock.cfg
      && after.next == lock.next && after.queues == lock.queues
      && after.leases.Keys <= lock.leases.Keys + {command.token}
  {
  }

  lemma ExecuteKeepsKey(lock: Lock, command: Command)
    requires KeyOk(lock) && GrantOk(lock)
    ensures KeyOk(Execute(lock, command)) && GrantOk(Execute(lock, command))
  {
    CommandsAreFenced(lock, command);
    var after := Execute(lock, command);
    forall t | LeaseOf(after, t) > after.now ensures after.key == Some(Key(t, LeaseOf(after, t))) {
      if t != command.token {
        assert LeaseOf(lock, t) > lock.now;
      }
    }
  }

  /** The sender's lease after its command, and what the answer says about it. */
  lemma LeaseAfter(lock: Lock, command: Command)
    requires KeyOk(lock) && GrantOk(lock)
    ensures var after, t := Execute(lock, command), command.token;
      exists ok: bool ::
        && after.replies == lock.replies + {Reply(command, ok)}
        && match command
           case SetNx(_, _) => LeaseOf(after, t) == if ok then lock.now + lock.cfg.ttlMs else LeaseOf(lock, t)
           case Get(_, _) => LeaseOf(after, t) == LeaseOf(lock, t) && (ok <==> LeaseOf(lock, t) > lock.now)
           case Renew(_, _) => (ok <==> LeaseOf(lock, t) > lock.now) && LeaseOf(after, t) == if ok then lock.now + lock.cfg.ttlMs else LeaseOf(lock, t)
           case Del(_, _) => LeaseOf(after, t) == if ok then 0 else LeaseOf(lock, t)
  {
    var t := command.token;
    assert Holder(lock) == Some(t) <==> LeaseOf(lock, t) > lock.now;
    var ok := if command.SetNx? then Holder(lock) == None else Holder(lock) == Some(t);
    assert Execute(lock, command).replies == lock.replies + {Reply(command, ok)};
  }

  lemma ExecuteKeepsCallers(lock: Lock, command: Command)
    requires Safe(lock) && CommandOk(lock, command) && lock.now <= command.sentAt + lock.cfg.delayMs
    ensures CallersOk(Execute(lock, command))
  {
    CommandsAreFenced(lock, command);
    LeaseAfter(lock, command);
    var after := Execute(lock, command);
    forall t | t in after.callers ensures CallerOk(after, t, after.callers[t]) {
      assert CallerOk(lock, t, lock.callers[t]);
    }
  }

  /** The answers given before still mean what they did. */
  lemma OlderReplyKept(lock: Lock, command: Command, reply: Reply)
    requires Safe(lock) && CommandOk(lock, command) && ReplyOk(lock, reply)
    ensures ReplyOk(Execute(lock, command), reply)
  {
    CommandsAreFenced(lock, command);
    LeaseAfter(lock, command);
    assert CallerOk(lock, command.token, lock.callers[command.token]);
  }

  lemma ExecuteKeepsReplies(lock: Lock, command: Command)
    requires Safe(lock) && CommandOk(lock, command)
    ensures RepliesOk(Execute(lock, command))
  {
    CommandsAreFenced(lock, command);
    LeaseAfter(lock, command);
    var after := Execute(lock, command);
    assert CallerOk(lock, command.token, lock.callers[command.token]);
    forall reply | reply in after.replies ensures ReplyOk(after, reply) {
      if reply in lock.replies {
        OlderReplyKept(lock, command, reply);
      }
    }
  }

  lemma ExecuteKeepsSafe(lock: Lock, command: Command)
    requires Safe(lock) && command in lock.sent && lock.now <= command.sentAt + lock.cfg.delayMs
    ensures Safe(Execute(lock, command))
  {
    assert CommandOk(lock, command);
    ExecuteKeepsKey(lock, command);
    ExecuteKeepsCallers(lock, command);
    ExecuteKeepsReplies(lock, command);
    CommandsAreFenced(lock, command);
    var after := Execute(lock, command);
    forall c | c in after.sent ensures CommandOk(after, c) {
      assert CommandOk(lock, c);
    }
  }

  /** A step that leaves keys, leases and replies alone, and moves only caller `t`. */
  ghost predicate OnlyCaller(lock: Lock, after: Lock, t: Token) {
    && t in lock.callers && t in after.callers && after.callers == lock.callers[t := after.callers[t]]
    && after.cfg == lock.cfg && after.now == lock.now && after.key == lock.key && after.leases == lock.leases
    && after.replies == lock.replies && after.next == lock.next && after.queues == lock.queues
  }

  /** It is enough to look at the caller that moved, its commands and its answers. */
  lemma CallerStepKeeps(lock: Lock, after: Lock, t: Token)
    requires Safe(lock) && OnlyCaller(lock, after, t) && CallerOk(after, t, after.callers[t])
    requires forall c :: c in after.sent && c.token != t ==> c in lock.sent
    requires forall c :: c in after.sent && c.token == t ==> CommandOk(after, c)
    requires forall r :: r in lock.replies && r.command.token == t ==> ReplyOk(after, r)
    ensures Safe(after)
  {
    forall u | u in after.callers ensures CallerOk(after, u, after.callers[u]) {
      if u != t {
        assert CallerOk(lock, u, lock.callers[u]);
      }
    }
    forall c | c in after.sent ensures CommandOk(after, c) {
      if c.token != t {
        assert CommandOk(lock, c);
      }
    }
    forall r | r in after.replies ensures ReplyOk(after, r) {
      if r.command.token != t {
        assert ReplyOk(lock, r);
      }
    }
    forall u | LeaseOf(after, u) > after.now ensures after.key == Some(Key(u, LeaseOf(after, u))) {
      assert LeaseOf(lock, u) > lock.now;
    }
  }

  lemma CallerStepShape(lock: Lock, step: Step)
    requires Enabled(lock, step) && !step.Tick? && !step.Call? && !step.Run?
    ensures var c, after := lock.callers[step.t], Take(lock, step);
      && OnlyCaller(lock, after, step.t) && after.callers[step.t] == CallerAfter(lock, step, c)
      && after.sent == lock.sent - Settles(step, c) + Sends(lock, step, c)
      && (forall x :: x in Sends(lock, step, c) ==> x.token == step.t)
  {
  }

  lemma QueueStepKeeps(lock: Lock, step: Step)
    requires Safe(lock) && Enabled(lock, step) && (step.TimeOut? || step.PassOn? || step.Serve? || step.GiveUp? || step.Finish?)
    ensures Safe(Take(lock, step))
  {
    var t, after := step.t, Take(lock, step);
    CallerStepShape(lock, step);
    assert CallerOk(lock, t, lock.callers[t]);
    forall c | c in after.sent && c.token == t ensures CommandOk(after, c) {
      if c in lock.sent {
        assert CommandOk(lock, c);
      }
    }
    forall r | r in lock.replies && r.command.token == t ensures ReplyOk(after, r) {
      assert ReplyOk(lock, r);
    }
    CallerStepKeeps(lock, after, t);
  }

  /** The commands and answers of a caller that moved are still in order. */
  ghost predicate OwnOk(lock: Lock, after: Lock, t: Token) {
    && (forall c :: c in after.sent && c.token == t ==> CommandOk(after, c))
    && (forall r :: r in lock.replies && r.command.token == t ==> ReplyOk(after, r))
  }

  lemma PollAgainKeeps(lock: Lock, t: Token)
    requires Safe(lock) && Enabled(lock, PollAgain(t))
    ensures Safe(Take(lock, PollAgain(t)))
  {
    var after := Take(lock, PollAgain(t));
    CallerStepShape(lock, PollAgain(t));
    assert CallerOk(lock, t, lock.callers[t]);
    forall c | c in after.sent && c.token == t ensures CommandOk(after, c) {
      if c in lock.sent {
        assert CommandOk(lock, c);
      }
    }
    forall r | r in lock.replies && r.command.token == t ensures ReplyOk(after, r) {
      assert ReplyOk(lock, r);
    }
    CallerStepKeeps(lock, after, t);
  }

  /** An answer settles the one command the caller had out. */
  lemma AnswerOwnOk(lock: Lock, t: Token, ok: bool)
    requires Safe(lock) && Enabled(lock, Answer(t, ok))
    ensures OwnOk(lock, Take(lock, Answer(t, ok)), t)
  {
    var after := Take(lock, Answer(t, ok));
    CallerStepShape(lock, Answer(t, ok));
    assert CallerOk(lock, t, lock.callers[t]);
    forall c | c in lock.sent && c.token == t ensures Some(c) == lock.callers[t].awaiting {
      assert CommandOk(lock, c);
    }
    forall r | r in lock.replies && r.command.token == t ensures ReplyOk(after, r) {
      assert ReplyOk(lock, r);
    }
  }

  lemma AnswerKeeps(lock: Lock, t: Token, ok: bool)
    requires Safe(lock) && Enabled(lock, Answer(t, ok))
    ensures Safe(Take(lock, Answer(t, ok)))
  {
    CallerStepShape(lock, Answer(t, ok));
    assert CallerOk(lock, t, lock.callers[t]);
    assert ReplyOk(lock, Reply(lock.callers[t].awaiting.value, ok));
    AnswerOwnOk(lock, t, ok);
    CallerStepKeeps(lock, Take(lock, Answer(t, ok)), t);
  }

  lemma HolderCommandsOk(lock: Lock, step: Step)
    requires Safe(lock) && Enabled(lock, step)
    requires step.Renewal? || step.RenewalAnswered? || step.RenewalFailed? || step.Leave?
    ensures forall c :: c in Take(lock, step).sent && c.token == step.t ==> CommandOk(Take(lock, step), c)
  {
    var t, after := step.t, Take(lock, step);
    CallerStepShape(lock, step);
    assert CallerOk(lock, t, lock.callers[t]);
    forall c | c in after.sent && c.token == t ensures CommandOk(after, c) {
      if c in lock.sent {
        assert CommandOk(lock, c);
      }
    }
  }

  lemma HolderRepliesOk(lock: Lock, step: Step)
    requires Safe(lock) && Enabled(lock, step)
    requires step.Renewal? || step.RenewalAnswered? || step.RenewalFailed? || step.Leave?
    ensures forall r :: r in lock.replies && r.command.token == step.t ==> ReplyOk(Take(lock, step), r)
  {
    var t, after := step.t, Take(lock, step);
    CallerStepShape(lock, step);
    assert CallerOk(lock, t, lock.callers[t]);
    forall r | r in lock.replies && r.command.token == t ensures ReplyOk(after, r) {
      assert ReplyOk(lock, r);
    }
  }

  lemma HolderStepKeeps(lock: Lock, step: Step)
    requires Safe(lock) && Enabled(lock, step)
    requires step.Renewal? || step.RenewalAnswered? || step.RenewalFailed? || step.Leave?
    ensures Safe(Take(lock, step))
  {
    CallerStepShape(lock, step);
    assert CallerOk(lock, step.t, lock.callers[step.t]);
    if step.RenewalAnswered? {
      assert ReplyOk(lock, Reply(lock.callers[step.t].renewing.value, step.ok));
    }
    HolderCommandsOk(lock, step);
    HolderRepliesOk(lock, step);
    CallerStepKeeps(lock, Take(lock, step), step.t);
  }

  lemma CallKeeps(lock: Lock, p: Process)
    requires Safe(lock)
    ensures Safe(Take(lock, Call(p)))
  {
    var t, after := lock.next, Take(lock, Call(p));
    forall u | u in lock.callers ensures u < t {
      assert CallerOk(lock, u, lock.callers[u]);
    }
    assert LeaseOf(lock, t) == 0;
    forall u | u in after.callers ensures CallerOk(after, u, after.callers[u]) {
      if u != t {
        assert CallerOk(lock, u, lock.callers[u]);
      }
    }
    forall c | c in after.sent ensures CommandOk(after, c) {
      assert CommandOk(lock, c);
    }
    forall r | r in after.replies ensures ReplyOk(after, r) {
      assert ReplyOk(lock, r);
    }
    forall u | LeaseOf(after, u) > after.now ensures after.key == Some(Key(u, LeaseOf(after, u))) {
      assert LeaseOf(lock, u) > lock.now;
    }
  }

  lemma TickKeeps(lock: Lock, ms: nat)
    requires Safe(lock)
    ensures Safe(lock.(now := lock.now + ms))
  {
    var after := lock.(now := lock.now + ms);
    forall u | u in after.callers ensures CallerOk(after, u, after.callers[u]) {
      assert CallerOk(lock, u, lock.callers[u]);
    }
    forall c | c in after.sent ensures CommandOk(after, c) {
      assert CommandOk(lock, c);
    }
    forall r | r in after.replies ensures ReplyOk(after, r) {
      assert ReplyOk(lock, r);
    }
    forall u | LeaseOf(after, u) > after.now ensures after.key == Some(Key(u, LeaseOf(after, u))) {
      assert LeaseOf(lock, u) > lock.now;
    }
  }

  lemma CallerStepsKeep(lock: Lock, step: Step)
    requires Safe(lock) && Enabled(lock, step) && !step.Tick? && !step.Call? && !step.Run?
    ensures Safe(Take(lock, step))
  {
    match step
    case PollAgain(t) => PollAgainKeeps(lock, t);
    case Answer(t, ok) => AnswerKeeps(lock, t, ok);
    case Renewal(_) => HolderStepKeeps(lock, step);
    case RenewalAnswered(_, _) => HolderStepKeeps(lock, step);
    case RenewalFailed(_) => HolderStepKeeps(lock, step);
    case Leave(_) => HolderStepKeeps(lock, step);
    case _ => QueueStepKeeps(lock, step);
  }

  lemma StepKeepsConfig(lock: Lock, step: Step)
    ensures Take(lock, step).cfg == lock.cfg
  {
    if Enabled(lock, step) && step.Run? {
      CommandsAreFenced(lock, step.command);
    }
  }

  lemma StepKeepsSafe(lock: Lock, step: Step)
    requires Safe(lock)
    ensures Safe(Take(lock, step)) && Take(lock, step).cfg == lock.cfg
  {
    StepKeepsConfig(lock, step);
    if Enabled(lock, step) {
      if step.Tick? {
        TickKeeps(lock, step.ms);
      } else if step.Call? {
        CallKeeps(lock, step.p);
      } else if step.Run? {
        ExecuteKeepsSafe(lock, step.command);
      } else {
        CallerStepsKeep(lock, step);
      }
    }
  }

  lemma {:induction false} EveryInterleavingIsSafe(cfg: Config, steps: seq<Step>)
    ensures Safe(TakeAll(Start(cfg), steps)) && TakeAll(Start(cfg), steps).cfg == cfg
  {
    if steps != [] {
      EveryInterleavingIsSafe(cfg, steps[..|steps| - 1]);
      StepKeepsSafe(TakeAll(Start(cfg), steps[..|steps| - 1]), steps[|steps| - 1]);
    }
  }

  /* ---------------------------------------------------------------- */
  /* Who may hold the lease                                            */
  /* ---------------------------------------------------------------- */

  /** Inside the section, and so recently confirmed that its lease cannot have run out. */
  predicate HoldsLease(lock: Lock, t: Token) {
    t in lock.callers && lock.callers[t].phase == Inside && lock.now < lock.callers[t].confirmed + lock.cfg.ttlMs
  }

  /**
   * Mutual exclusion: at most one caller inside has an unexpired lease, and it
   * owns the stored token, however it learned that it got the lock.
   */
  lemma AtMostOneHolder(cfg: Config, steps: seq<Step>, t: Token, u: Token)
    requires var lock := TakeAll(Start(cfg), steps); HoldsLease(lock, t) && HoldsLease(lock, u)
    ensures t == u && Holder(TakeAll(Start(cfg), steps)) == Some(t)
  {
    EveryInterleavingIsSafe(cfg, steps);
    var lock := TakeAll(Start(cfg), steps);
    assert CallerOk(lock, t, lock.callers[t]) && CallerOk(lock, u, lock.callers[u]);
    assert LeaseOf(lock, t) > lock.now && LeaseOf(lock, u) > lock.now;
  }

  /**
   * A live lease is only ever lost to the clock or to its own holder's release,
   * sent after the holder left: no other caller's command ends it.
   */
  lemma LeaseIsOnesOwn(cfg: Config, steps: seq<Step>, step: Step, t: Token)
    requires Holder(TakeAll(Start(cfg), steps)) == Some(t)
    ensures var lock := TakeAll(Start(cfg), steps);
      var after := Take(lock, step);
      || Holder(after) == Some(t)
      || (step.Tick? && after.now >= LeaseOf(lock, t))
      || (step.Run? && step.command.Del? && step.command.token == t && t in lock.callers
          && (lock.callers[t].phase == Leaving || lock.callers[t].phase == Left))
  {
    EveryInterleavingIsSafe(cfg, steps);
    var lock := TakeAll(Start(cfg), steps);
    if Enabled(lock, step) {
      if step.Run? {
        assert CommandOk(lock, step.command);
        CommandsAreFenced(lock, step.command);
      } else if !step.Tick? && !step.Call? {
        CallerStepShape(lock, step);
      }
    }
  }

  /**
   * A hung section cannot hold the cluster: its lease is gone once the last
   * renewal it may have sent has executed and one lease has passed.
   */
  lemma HungSectionLosesLease(cfg: Config, steps: seq<Step>, t: Token)
    requires var lock := TakeAll(Start(cfg), steps);
      t in lock.callers && lock.callers[t].entered && lock.now >= LastMoment(cfg, lock.callers[t].started)
    ensures Holder(TakeAll(Start(cfg), steps)) != Some(t)
  {
    EveryInterleavingIsSafe(cfg, steps);
    var lock := TakeAll(Start(cfg), steps);
    assert CallerOk(lock, t, lock.callers[t]);
  }

  /* ---------------------------------------------------------------- */
  /* The bound without the delay                                       */
  /* ---------------------------------------------------------------- */

  /** The lease of a section is gone holdMaxMs + ttlMs after it started. */
  ghost predicate GoneByHoldAndTtl(cfg: Config, steps: seq<Step>, t: Token) {
    var lock := TakeAll(Start(cfg), steps);
    t in lock.callers && lock.callers[t].entered && lock.now >= lock.callers[t].started + cfg.holdMaxMs + cfg.ttlMs ==>
      Holder(lock) != Some(t)
  }

  lemma TakeSnoc(lock: Lock, steps: seq<Step>, step: Step)
    ensures TakeAll(lock, steps + [step]) == Take(TakeAll(lock, steps), step)
  {
    assert (steps + [step])[..|steps|] == steps;
  }

  lemma TakeTwo(lock: Lock, a: Step, b: Step)
    ensures TakeAll(lock, [a, b]) == Take(Take(lock, a), b)
  {
    TakeSnoc(lock, [], a);
    TakeSnoc(lock, [a], b);
    assert [] + [a] == [a] && [a] + [b] == [a, b];
  }

  lemma TakeFour(lock: Lock, a: Step, b: Step, c: Step, d: Step)
    ensures TakeAll(lock, [a, b, c, d]) == Take(Take(Take(Take(lock, a), b), c), d)
  {
    TakeSnoc(lock, [], a);
    TakeSnoc(lock, [a], b);
    TakeSnoc(lock, [a, b], c);
    TakeSnoc(lock, [a, b, c], d);
    assert [] + [a] == [a] && [a] + [b] == [a, b] && [a, b] + [c] == [a, b, c] && [a, b, c] + [d] == [a, b, c, d];
  }

  lemma {:induction false} TakeMore(lock: Lock, first: seq<Step>, second: seq<Step>)
    ensures TakeAll(lock, first + second) == TakeAll(TakeAll(lock, first), second)
  {
    if second == [] {
      assert first + second == first;
    } else {
      var n := |second| - 1;
      assert (first + second)[..|first + second| - 1] == first + second[..n];
      TakeMore(lock, first, second[..n]);
    }
  }

  /** The first caller gets the lock at once. */
  function Entry(): seq<Step> {
    [Call(0), Serve(0), Run(SetNx(0, 0)), Answer(0, true)]
  }

  /** The timer fires `gap` later, at `at`, and the renewal is executed and answered promptly. */
  function Round(gap: nat, at: nat): seq<Step> {
    [Tick(gap), Renewal(0), Run(Renew(0, at)), RenewalAnswered(0, true)]
  }

  /**
   * A section started at 0 whose timer fires a period apart, the first time at
   * most two periods in, and last renewed at time `at`.
   */
  function RenewedUntil(ttlMs: nat, at: nat): seq<Step>
    decreases at
  {
    if at < Period(ttlMs) then Entry()
    else if at < 2 * Period(ttlMs) then Entry() + Round(at, at)
    else RenewedUntil(ttlMs, at - Period(ttlMs)) + Round(Period(ttlMs), at)
  }

  predicate RenewedAt(lock: Lock, cfg: Config, at: nat) {
    && lock.cfg == cfg && lock.now == at && lock.key == Some(Key(0, at + cfg.ttlMs))
    && 0 in lock.callers
    && lock.callers[0] == Caller(0, 0, Inside, 0, 0, None, true, 0, at, at, None, false, false)
  }

  lemma EntryHolds(cfg: Config)
    requires cfg.ttlMs > 0
    ensures RenewedAt(TakeAll(Start(cfg), Entry()), cfg, 0)
  {
    TakeFour(Start(cfg), Call(0), Serve(0), Run(SetNx(0, 0)), Answer(0, true));
    var called := Take(Start(cfg), Call(0));
    var served := Take(called, Serve(0));
    assert SetNx(0, 0) in served.sent && served.key == None;
    var ran := Take(served, Run(SetNx(0, 0)));
    assert Reply(SetNx(0, 0), true) in ran.replies && ran.key == Some(Key(0, cfg.ttlMs));
  }

  lemma RoundRenews(lock: Lock, cfg: Config, at: nat, gap: nat)
    requires RenewedAt(lock, cfg, at) && Period(cfg.ttlMs) <= gap < cfg.ttlMs && at + gap < cfg.holdMaxMs
    ensures RenewedAt(TakeAll(lock, Round(gap, at + gap)), cfg, at + gap)
  {
    var to := at + gap;
    TakeFour(lock, Tick(gap), Renewal(0), Run(Renew(0, to)), RenewalAnswered(0, true));
    var ticked := Take(lock, Tick(gap));
    var asked := Take(ticked, Renewal(0));
    assert Renew(0, to) in asked.sent && asked.key == lock.key && asked.now == to;
    assert asked.callers[0] == ticked.callers[0].(lastTick := to, renewing := Some(Renew(0, to)));
    var ran := Take(asked, Run(Renew(0, to)));
    assert Reply(Renew(0, to), true) in ran.replies && ran.key == Some(Key(0, to + cfg.ttlMs));
  }

  lemma {:induction false} RenewalsHold(cfg: Config, at: nat)
    requires cfg.ttlMs > 1 && Period(cfg.ttlMs) <= at < cfg.holdMaxMs
    ensures RenewedAt(TakeAll(Start(cfg), RenewedUntil(cfg.ttlMs, at)), cfg, at)
    decreases at
  {
    var period := Period(cfg.ttlMs);
    if at < 2 * period {
      EntryHolds(cfg);
      TakeMore(Start(cfg), Entry(), Round(at, at));
      RoundRenews(TakeAll(Start(cfg), Entry()), cfg, 0, at);
    } else {
      RenewalsHold(cfg, at - period);
      TakeMore(Start(cfg), RenewedUntil(cfg.ttlMs, at - period), Round(period, at));
      RoundRenews(TakeAll(Start(cfg), RenewedUntil(cfg.ttlMs, at - period)), cfg, at - period, period);
    }
  }

  /** Everything before the last tick, and when the tick before it was. */
  lemma BeforeLast(cfg: Config, last: nat) returns (before: seq<Step>, at: nat)
    requires cfg.ttlMs > 1 && Period(cfg.ttlMs) <= last < cfg.holdMaxMs
    ensures RenewedAt(TakeAll(Start(cfg), before), cfg, at) && at + Period(cfg.ttlMs) <= last < at + cfg.ttlMs
  {
    if last < 2 * Period(cfg.ttlMs) {
      EntryHolds(cfg);
      before, at := Entry(), 0;
    } else {
      at := last - Period(cfg.ttlMs);
      RenewalsHold(cfg, at);
      before := RenewedUntil(cfg.ttlMs, at);
    }
  }

  /** The renewal executes, perhaps again, a millisecond later. */
  function Again(last: nat): seq<Step> {
    [Tick(1), Run(Renew(0, last))]
  }

  /** The last renewal executes and its replies are lost; it is sent again twice and executes at last two milliseconds late. */
  function LateRenewal(gap: nat, last: nat): seq<Step> {
    [Tick(gap), Renewal(0)] + ([Tick(0), Run(Renew(0, last))] + (Again(last) + Again(last)))
  }

  /** The renewal sent at time `last` has executed, `late` after it was sent, and may execute again. */
  predicate RenewedLate(lock: Lock, cfg: Config, last: nat, late: nat) {
    && lock.cfg == cfg && lock.now == last + late && lock.key == Some(Key(0, last + late + cfg.ttlMs)) && Renew(0, last) in lock.sent
    && 0 in lock.callers && lock.callers[0].entered && lock.callers[0].started == 0
  }

  /** The renewal is out and the lease not over. */
  predicate RenewalSent(lock: Lock, cfg: Config, last: nat) {
    && lock.cfg == cfg && lock.now == last && Holder(lock) == Some(0) && Renew(0, last) in lock.sent
    && 0 in lock.callers && lock.callers[0].entered && lock.callers[0].started == 0
  }

  lemma RenewalIsSent(lock: Lock, cfg: Config, at: nat, gap: nat)
    requires RenewedAt(lock, cfg, at) && Period(cfg.ttlMs) <= gap < cfg.ttlMs && at + gap < cfg.holdMaxMs
    ensures RenewalSent(TakeAll(lock, [Tick(gap), Renewal(0)]), cfg, at + gap)
  {
    TakeTwo(lock, Tick(gap), Renewal(0));
  }

  lemma SentRenewalRuns(lock: Lock, cfg: Config, last: nat)
    requires RenewalSent(lock, cfg, last)
    ensures RenewedLate(TakeAll(lock, [Tick(0), Run(Renew(0, last))]), cfg, last, 0)
  {
    TakeTwo(lock, Tick(0), Run(Renew(0, last)));
  }

  /** A millisecond later the lease is still alive, and executing the renewal again extends it. */
  lemma RenewedAgain(lock: Lock, cfg: Config, last: nat, late: nat)
    requires RenewedLate(lock, cfg, last, late) && late < cfg.delayMs && cfg.ttlMs > 1
    ensures RenewedLate(TakeAll(lock, Again(last)), cfg, last, late + 1)
  {
    TakeTwo(lock, Tick(1), Run(Renew(0, last)));
    var later := Take(lock, Tick(1));
    assert Renew(0, last) in later.sent && Holder(later) == Some(0);
  }

  lemma LateRenewalRuns(lock: Lock, cfg: Config, at: nat, gap: nat)
    requires RenewedAt(lock, cfg, at) && Period(cfg.ttlMs) <= gap < cfg.ttlMs && at + gap < cfg.holdMaxMs
    requires cfg.ttlMs > 1 && cfg.delayMs >= 2
    ensures RenewedLate(TakeAll(lock, LateRenewal(gap, at + gap)), cfg, at + gap, 2)
  {
    var last := at + gap;
    TakeMore(lock, [Tick(gap), Renewal(0)], [Tick(0), Run(Renew(0, last))] + (Again(last) + Again(last)));
    RenewalIsSent(lock, cfg, at, gap);
    var sent := TakeAll(lock, [Tick(gap), Renewal(0)]);
    TakeMore(sent, [Tick(0), Run(Renew(0, last))], Again(last) + Again(last));
    SentRenewalRuns(sent, cfg, last);
    var ran := TakeAll(sent, [Tick(0), Run(Renew(0, last))]);
    TakeMore(ran, Again(last), Again(last));
    RenewedAgain(ran, cfg, last, 0);
    RenewedAgain(TakeAll(ran, Again(last)), cfg, last, 1);
  }

  lemma LateRenewalOutlivesHold(cfg: Config) returns (steps: seq<Step>)
    requires cfg.ttlMs > 1 && cfg.holdMaxMs > Period(cfg.ttlMs) && cfg.delayMs >= 2
    ensures !GoneByHoldAndTtl(cfg, steps, 0)
  {
    var last := cfg.holdMaxMs - 1;
    var before, at := BeforeLast(cfg, last);
    var late := before + LateRenewal(last - at, last);
    TakeMore(Start(cfg), before, LateRenewal(last - at, last));
    LateRenewalRuns(TakeAll(Start(cfg), before), cfg, at, last - at);
    steps := late + [Tick(cfg.ttlMs - 1)];
    TakeSnoc(Start(cfg), late, Tick(cfg.ttlMs - 1));
  }

  /**
   * That a hung section's lease is gone holdMaxMs + ttlMs after it started is
   * true in every interleaving exactly when no command executes two
   * milliseconds or more after it was sent, or sections are cut off before
   * their first renewal, or leases are over before it: a renewal already on
   * its way is not recalled.
   */
  lemma HoldAndTtlNeedPromptCommands(cfg: Config)
    ensures (forall steps: seq<Step>, t: Token :: GoneByHoldAndTtl(cfg, steps, t))
            <==> cfg.delayMs < 2 || cfg.holdMaxMs <= Period(cfg.ttlMs) || cfg.ttlMs <= 1
  {
    if cfg.delayMs < 2 || cfg.holdMaxMs <= Period(cfg.ttlMs) || cfg.ttlMs <= 1 {
      forall steps: seq<Step>, t: Token ensures GoneByHoldAndTtl(cfg, steps, t) {
        var lock := TakeAll(Start(cfg), steps);
        if t in lock.callers && lock.callers[t].entered && lock.now >= lock.callers[t].started + cfg.holdMaxMs + cfg.ttlMs {
          HungSectionLosesLease(cfg, steps, t);
        }
      }
    } else {
      var steps := LateRenewalOutlivesHold(cfg);
      assert !GoneByHoldAndTtl(cfg, steps, 0);
    }
  }

  /* ---------------------------------------------------------------- */
  /* What renewal is for                                               */
  /* ---------------------------------------------------------------- */

  /** How late things may be: a command's answer, and the renewal timer. */
  datatype Pace = Pace(answerMs: nat, timerMs: nat)

  /**
   * A late tick with the answer before it and its own still fits in a lease, or
   * a lease outlasts a section, or sections are over at once.
   */
  predicate KeepsUp(cfg: Config, pace: Pace) {
    || Period(cfg.ttlMs) + pace.timerMs + 2 * pace.answerMs < cfg.ttlMs
    || pace.answerMs + cfg.holdMaxMs <= cfg.ttlMs
    || cfg.holdMaxMs == 0
  }

  /** This section was entered in time, is renewed in time and not yet due to end. */
  predicate InTime(lock: Lock, c: Caller, pace: Pace) {
    && lock.now < c.started + lock.cfg.holdMaxMs
    && c.started <= c.asked + pace.answerMs
    && lock.now <= c.lastTick + Period(lock.cfg.ttlMs) + pace.timerMs
    && (c.renewing.Some? ==> lock.now <= c.renewing.value.sentAt + pace.answerMs)
  }

  ghost predicate OnTime(lock: Lock, pace: Pace) {
    forall t :: t in lock.callers && lock.callers[t].phase == Inside ==> InTime(lock, lock.callers[t], pace)
  }

  /** Every state of the run is on time, and no renewal fails without an answer. */
  ghost predicate PunctualRun(cfg: Config, steps: seq<Step>, pace: Pace) {
    && OnTime(TakeAll(Start(cfg), steps), pace)
    && (steps != [] ==> !steps[|steps| - 1].RenewalFailed? && PunctualRun(cfg, steps[..|steps| - 1], pace))
  }

  /** A holder's last confirmation is recent, and nothing has told it otherwise. */
  predicate Kept(lock: Lock, c: Caller, pace: Pace) {
    && !c.stopped && !c.lost && c.asked <= c.confirmed
    && (c.renewing == None ==> c.lastTick <= c.confirmed + pace.answerMs)
    && (c.renewing.Some? ==>
          && c.lastTick <= c.renewing.value.sentAt + pace.answerMs
          && c.renewing.value.sentAt <= c.confirmed + pace.answerMs + Period(lock.cfg.ttlMs) + pace.timerMs
          && Reply(c.renewing.value, false) !in lock.replies)
  }

  ghost predicate AllKept(lock: Lock, pace: Pace) {
    forall t :: t in lock.callers && lock.callers[t].phase == Inside ==> Kept(lock, lock.callers[t], pace)
  }

  /** Kept and on time means the lease is alive. */
  lemma KeptIsAlive(lock: Lock, t: Token, pace: Pace)
    requires Safe(lock) && OnTime(lock, pace) && AllKept(lock, pace) && KeepsUp(lock.cfg, pace)
    requires t in lock.callers && lock.callers[t].phase == Inside
    ensures HoldsLease(lock, t) && Holder(lock) == Some(t)
  {
    assert CallerOk(lock, t, lock.callers[t]) && Kept(lock, lock.callers[t], pace);
    assert LeaseOf(lock, t) > lock.now;
  }

  lemma RunKeepsKept(lock: Lock, command: Command, pace: Pace)
    requires Safe(lock) && OnTime(lock, pace) && AllKept(lock, pace) && KeepsUp(lock.cfg, pace)
    ensures AllKept(Execute(lock, command), pace)
  {
    CommandsAreFenced(lock, command);
    var after := Execute(lock, command);
    forall t | t in after.callers && after.callers[t].phase == Inside ensures Kept(after, after.callers[t], pace) {
      assert Kept(lock, lock.callers[t], pace) && CallerOk(lock, t, lock.callers[t]);
      if command.Renew? && command.token == t {
        KeptIsAlive(lock, t, pace);
      }
    }
  }

  lemma EntrantIsKept(lock: Lock, t: Token, ok: bool, pace: Pace)
    requires Safe(lock) && Enabled(lock, Answer(t, ok)) && OnTime(Take(lock, Answer(t, ok)), pace)
    ensures var after := Take(lock, Answer(t, ok)); after.callers[t].phase == Inside ==> Kept(after, after.callers[t], pace)
  {
    CallerStepShape(lock, Answer(t, ok));
    assert CallerOk(lock, t, lock.callers[t]);
  }

  /** No answer to a renewal exists before it is sent. */
  lemma FreshRenewal(lock: Lock, t: Token)
    requires Safe(lock) && Enabled(lock, Renewal(t))
    ensures Reply(Renew(t, lock.now), false) !in lock.replies
  {
    forall reply | reply in lock.replies && reply.command.Renew? && reply.command.token == t
      ensures reply.command.sentAt < lock.now
    {
      assert ReplyOk(lock, reply);
    }
  }

  lemma TickedIsKept(lock: Lock, t: Token, pace: Pace)
    requires Safe(lock) && OnTime(lock, pace) && AllKept(lock, pace) && KeepsUp(lock.cfg, pace)
    requires Enabled(lock, Renewal(t))
    ensures Kept(Take(lock, Renewal(t)), Take(lock, Renewal(t)).callers[t], pace)
  {
    CallerStepShape(lock, Renewal(t));
    assert Kept(lock, lock.callers[t], pace);
    FreshRenewal(lock, t);
  }

  lemma AnsweredIsKept(lock: Lock, t: Token, ok: bool, pace: Pace)
    requires Enabled(lock, RenewalAnswered(t, ok)) && AllKept(lock, pace)
    ensures var after := Take(lock, RenewalAnswered(t, ok)); after.callers[t].phase == Inside ==> Kept(after, after.callers[t], pace)
  {
    CallerStepShape(lock, RenewalAnswered(t, ok));
    if lock.callers[t].phase == Inside {
      assert Kept(lock, lock.callers[t], pace);
    }
  }

  lemma CallerStepKeepsKept(lock: Lock, step: Step, pace: Pace)
    requires Safe(lock) && OnTime(lock, pace) && AllKept(lock, pace) && KeepsUp(lock.cfg, pace)
    requires Enabled(lock, step) && !step.Tick? && !step.Call? && !step.Run? && !step.RenewalFailed?
    requires OnTime(Take(lock, step), pace)
    ensures AllKept(Take(lock, step), pace)
  {
    var after, t := Take(lock, step), step.t;
    CallerStepShape(lock, step);
    if step.Answer? {
      EntrantIsKept(lock, t, step.ok, pace);
    } else if step.Renewal? {
      TickedIsKept(lock, t, pace);
    } else if step.RenewalAnswered? {
      AnsweredIsKept(lock, t, step.ok, pace);
    } else {
      assert after.callers[t].phase != Inside;
    }
    forall u | u in after.callers && after.callers[u].phase == Inside ensures Kept(after, after.callers[u], pace) {
      if u != t {
        assert Kept(lock, lock.callers[u], pace);
      }
    }
  }

  lemma StepKeepsKept(lock: Lock, step: Step, pace: Pace)
    requires Safe(lock) && OnTime(lock, pace) && AllKept(lock, pace) && KeepsUp(lock.cfg, pace)
    requires !step.RenewalFailed? && OnTime(Take(lock, step), pace)
    ensures AllKept(Take(lock, step), pace)
  {
    if Enabled(lock, step) {
      if step.Run? {
        RunKeepsKept(lock, step.command, pace);
      } else if step.Tick? || step.Call? {
        var after := Take(lock, step);
        forall t | t in after.callers && after.callers[t].phase == Inside ensures Kept(after, after.callers[t], pace) {
          assert t in lock.callers && after.callers[t] == lock.callers[t];
          assert Kept(lock, lock.callers[t], pace);
        }
      } else {
        CallerStepKeepsKept(lock, step, pace);
      }
    }
  }

  lemma {:induction false} PunctualRunsKeep(cfg: Config, steps: seq<Step>, pace: Pace)
    requires PunctualRun(cfg, steps, pace) && KeepsUp(cfg, pace)
    ensures AllKept(TakeAll(Start(cfg), steps), pace)
  {
    if steps != [] {
      var n := |steps| - 1;
      PunctualRunsKeep(cfg, steps[..n], pace);
      EveryInterleavingIsSafe(cfg, steps[..n]);
      assert OnTime(TakeAll(Start(cfg), steps[..n]), pace);
      StepKeepsKept(TakeAll(Start(cfg), steps[..n]), steps[n], pace);
    }
  }

  /**
   * While timers and answers keep up, renewal does its job: at most one caller
   * is in the section at all, however long it takes up to the hold limit, it
   * holds the key, and it never loses its lease.
   */
  lemma AtMostOneInside(cfg: Config, steps: seq<Step>, pace: Pace, t: Token, u: Token)
    requires PunctualRun(cfg, steps, pace) && KeepsUp(cfg, pace)
    requires var lock := TakeAll(Start(cfg), steps);
      t in lock.callers && u in lock.callers && lock.callers[t].phase == Inside && lock.callers[u].phase == Inside
    ensures var lock := TakeAll(Start(cfg), steps); t == u && Holder(lock) == Some(t) && !lock.callers[t].lost
  {
    var lock := TakeAll(Start(cfg), steps);
    PunctualRunsKeep(cfg, steps, pace);
    EveryInterleavingIsSafe(cfg, steps);
    assert Kept(lock, lock.callers[t], pace);
    KeptIsAlive(lock, t, pace);
    KeptIsAlive(lock, u, pace);
  }

  /* ---------------------------------------------------------------- */
  /* Where renewal is too slow                                         */
  /* ---------------------------------------------------------------- */

  lemma PunctualSnoc(cfg: Config, steps: seq<Step>, step: Step, pace: Pace)
    requires PunctualRun(cfg, steps, pace) && !step.RenewalFailed?
    requires OnTime(Take(TakeAll(Start(cfg), steps), step), pace)
    ensures PunctualRun(cfg, steps + [step], pace)
    ensures TakeAll(Start(cfg), steps + [step]) == Take(TakeAll(Start(cfg), steps), step)
  {
    TakeSnoc(Start(cfg), steps, step);
    assert (steps + [step])[..|steps|] == steps;
  }

  /** The first caller is in the section, on time, and the only one; its key was set at 0 and never renewed. */
  predicate Alone(lock: Lock, cfg: Config, pace: Pace, at: nat) {
    && lock.cfg == cfg && lock.now == at && lock.key == Some(Key(0, cfg.ttlMs))
    && lock.next == 1 && lock.queues == map[0 := [0]]
    && lock.callers.Keys == {0} && lock.callers[0].phase == Inside && !lock.callers[0].lost
    && InTime(lock, lock.callers[0], pace)
  }

  /** The first caller has asked at 0, and its key is set. */
  predicate Asked(lock: Lock, cfg: Config) {
    && lock.cfg == cfg && lock.now == 0 && lock.key == Some(Key(0, cfg.ttlMs))
    && lock.next == 1 && lock.queues == map[0 := [0]]
    && lock.callers.Keys == {0} && lock.callers[0] == NewCaller(0, 0).(phase := Polling, awaiting := Some(SetNx(0, 0)))
    && Reply(SetNx(0, 0), true) in lock.replies
  }

  lemma FirstAsks(cfg: Config, pace: Pace) returns (steps: seq<Step>)
    ensures PunctualRun(cfg, steps, pace) && Asked(TakeAll(Start(cfg), steps), cfg)
  {
    assert Queue(Start(cfg), 0) + [0] == [0];
    PunctualSnoc(cfg, [], Call(0), pace);
    steps := [] + [Call(0)];
    assert TakeAll(Start(cfg), steps).callers.Keys == {0};
    PunctualSnoc(cfg, steps, Serve(0), pace);
    steps := steps + [Serve(0)];
    assert TakeAll(Start(cfg), steps).callers.Keys == {0};
    PunctualSnoc(cfg, steps, Run(SetNx(0, 0)), pace);
    steps := steps + [Run(SetNx(0, 0))];
  }

  /** It hears of it `wait` later. */
  lemma EntersLate(cfg: Config, pace: Pace, wait: nat) returns (steps: seq<Step>)
    requires wait <= pace.answerMs && cfg.holdMaxMs > 0
    ensures PunctualRun(cfg, steps, pace)
    ensures var lock := TakeAll(Start(cfg), steps);
      Alone(lock, cfg, pace, wait) && lock.callers[0] == Caller(0, 0, Inside, 0, 0, None, true, wait, 0, wait, None, false, false)
  {
    steps := FirstAsks(cfg, pace);
    var asked := TakeAll(Start(cfg), steps);
    PunctualSnoc(cfg, steps, Tick(wait), pace);
    steps := steps + [Tick(wait)];
    var waited := TakeAll(Start(cfg), steps);
    assert waited.callers == asked.callers && waited.replies == asked.replies;
    assert Enabled(waited, Answer(0, true)) && Take(waited, Answer(0, true)).callers.Keys == {0};
    PunctualSnoc(cfg, steps, Answer(0, true), pace);
    steps := steps + [Answer(0, true)];
  }

  lemma StaysIdle(cfg: Config, pace: Pace, steps: seq<Step>, at: nat, ms: nat) returns (steps': seq<Step>)
    requires PunctualRun(cfg, steps, pace) && Alone(TakeAll(Start(cfg), steps), cfg, pace, at)
    requires InTime(Take(TakeAll(Start(cfg), steps), Tick(ms)), TakeAll(Start(cfg), steps).callers[0], pace)
    ensures PunctualRun(cfg, steps', pace) && Alone(TakeAll(Start(cfg), steps'), cfg, pace, at + ms)
    ensures TakeAll(Start(cfg), steps').callers == TakeAll(Start(cfg), steps).callers
  {
    PunctualSnoc(cfg, steps, Tick(ms), pace);
    steps' := steps + [Tick(ms)];
  }

  /** Its timer fires, and the renewal is sent but not yet executed. */
  lemma AsksToRenew(cfg: Config, pace: Pace, steps: seq<Step>, at: nat) returns (steps': seq<Step>)
    requires PunctualRun(cfg, steps, pace) && Alone(TakeAll(Start(cfg), steps), cfg, pace, at)
    requires var c := TakeAll(Start(cfg), steps).callers[0]; c.renewing == None && !c.stopped && at >= c.lastTick + Period(cfg.ttlMs)
    ensures PunctualRun(cfg, steps', pace) && Alone(TakeAll(Start(cfg), steps'), cfg, pace, at)
    ensures var lock := TakeAll(Start(cfg), steps);
      TakeAll(Start(cfg), steps').callers[0] == lock.callers[0].(lastTick := at, renewing := Some(Renew(0, at)))
  {
    var lock := TakeAll(Start(cfg), steps);
    assert Enabled(lock, Renewal(0));
    var after := Take(lock, Renewal(0));
    assert after.callers.Keys == {0} && after.callers[0] == lock.callers[0].(lastTick := at, renewing := Some(Renew(0, at)));
    PunctualSnoc(cfg, steps, Renewal(0), pace);
    steps' := steps + [Renewal(0)];
  }

  /** At a pace too slow it stays in the section, on time, until its lease ends. */
  lemma StaysLate(cfg: Config, pace: Pace) returns (steps: seq<Step>)
    requires !KeepsUp(cfg, pace)
    ensures PunctualRun(cfg, steps, pace) && Alone(TakeAll(Start(cfg), steps), cfg, pace, cfg.ttlMs)
  {
    var wait := if pace.answerMs < cfg.ttlMs then pace.answerMs else cfg.ttlMs;
    var idle := Period(cfg.ttlMs) + pace.timerMs;
    steps := EntersLate(cfg, pace, wait);
    if cfg.ttlMs <= wait + idle {
      steps := StaysIdle(cfg, pace, steps, wait, cfg.ttlMs - wait);
    } else {
      steps := StaysIdle(cfg, pace, steps, wait, idle);
      steps := AsksToRenew(cfg, pace, steps, wait + idle);
      steps := StaysIdle(cfg, pace, steps, wait + idle, cfg.ttlMs - wait - idle);
    }
  }

  /** Another process asks when the lease has ended. */
  predicate JoinerAsks(lock: Lock, cfg: Config, pace: Pace) {
    && lock.cfg == cfg && lock.now == cfg.ttlMs && lock.key == Some(Key(0, cfg.ttlMs)) && lock.callers.Keys == {0, 1}
    && lock.callers[0].phase == Inside && !lock.callers[0].lost && InTime(lock, lock.callers[0], pace)
    && lock.callers[1] == NewCaller(1, 0).(phase := Polling, asked := lock.now, polled := lock.now, awaiting := Some(SetNx(1, lock.now)))
    && SetNx(1, lock.now) in lock.sent
  }

  lemma SecondAsks(cfg: Config, pace: Pace) returns (steps: seq<Step>)
    requires !KeepsUp(cfg, pace)
    ensures PunctualRun(cfg, steps, pace) && JoinerAsks(TakeAll(Start(cfg), steps), cfg, pace)
  {
    steps := StaysLate(cfg, pace);
    var alone := TakeAll(Start(cfg), steps);
    assert alone.callers[0].phase == Inside;
    var called := Take(alone, Call(1));
    assert called.callers.Keys == {0, 1} && called.callers[0] == alone.callers[0] && called.callers[1] == NewCaller(1, 0);
    PunctualSnoc(cfg, steps, Call(1), pace);
    steps := steps + [Call(1)];
    var served := Take(called, Serve(1));
    assert served.callers.Keys == {0, 1} && served.callers[0] == alone.callers[0];
    PunctualSnoc(cfg, steps, Serve(1), pace);
    steps := steps + [Serve(1)];
  }

  /** Two callers in the section, and neither has been told. */
  predicate TwoInside(lock: Lock) {
    && 0 in lock.callers && lock.callers[0].phase == Inside && !lock.callers[0].lost
    && 1 in lock.callers && lock.callers[1].phase == Inside && !lock.callers[1].lost
  }

  /** So at a pace too slow some punctual run has two callers in the section, and neither is told. */
  lemma SlowHolderIsJoined(cfg: Config, pace: Pace) returns (steps: seq<Step>)
    requires !KeepsUp(cfg, pace)
    ensures PunctualRun(cfg, steps, pace) && TwoInside(TakeAll(Start(cfg), steps))
  {
    var at := cfg.ttlMs;
    steps := SecondAsks(cfg, pace);
    var asked := TakeAll(Start(cfg), steps);
    assert Holder(asked) == None;
    var ran := Take(asked, Run(SetNx(1, at)));
    assert ran.callers == asked.callers && Reply(SetNx(1, at), true) in ran.replies;
    PunctualSnoc(cfg, steps, Run(SetNx(1, at)), pace);
    steps := steps + [Run(SetNx(1, at))];
    assert Enabled(ran, Answer(1, true));
    PunctualSnoc(cfg, steps, Answer(1, true), pace);
    steps := steps + [Answer(1, true)];
  }

  /** At most one caller is in the section, and it holds the key. */
  ghost predicate OneInside(lock: Lock) {
    forall t, u :: t in lock.callers && u in lock.callers && lock.callers[t].phase == Inside && lock.callers[u].phase == Inside ==>
      t == u && Holder(lock) == Some(t)
  }

  /**
   * In runs that keep a pace there is never more than one caller in the
   * section, exactly when a late tick with the answer before it and its own
   * fits in a lease, or a lease outlasts a section. At the first pace too slow
   * some run has two callers inside, and neither is told.
   */
  lemma OneInsideIffKeepsUp(cfg: Config, pace: Pace)
    ensures (forall steps: seq<Step> :: PunctualRun(cfg, steps, pace) ==> OneInside(TakeAll(Start(cfg), steps))) <==> KeepsUp(cfg, pace)
  {
    if KeepsUp(cfg, pace) {
      forall steps: seq<Step> | PunctualRun(cfg, steps, pace) ensures OneInside(TakeAll(Start(cfg), steps)) {
        var lock := TakeAll(Start(cfg), steps);
        forall t, u | t in lock.callers && u in lock.callers && lock.callers[t].phase == Inside && lock.callers[u].phase == Inside
          ensures t == u && Holder(lock) == Some(t)
        {
          AtMostOneInside(cfg, steps, pace, t, u);
        }
      }
    } else {
      var steps := SlowHolderIsJoined(cfg, pace);
      assert !OneInside(TakeAll(Start(cfg), steps));
    }
  }

  /* ---------------------------------------------------------------- */
  /* The queue of each process                                         */
  /* ---------------------------------------------------------------- */

  /** Polling, in the section or releasing. */
  predicate Serving(c: Caller) {
    c.phase == Polling || c.phase == Inside || c.phase == Leaving
  }

  /** Callers sit in their process's queue at their place. */
  ghost predicate Placed(lock: Lock) {
    && (forall t :: t in lock.callers ==>
          t < lock.next && lock.callers[t].place < |Queue(lock, lock.callers[t].process)|
          && Queue(lock, lock.callers[t].process)[lock.callers[t].place] == t)
    && (forall p, k :: 0 <= k < |Queue(lock, p)| ==>
          && Queue(lock, p)[k] in lock.callers
          && lock.callers[Queue(lock, p)[k]].process == p && lock.callers[Queue(lock, p)[k]].place == k)
  }

  predicate ServedOrLeft(lock: Lock, t: Token) {
    t in lock.callers && (Serving(lock.callers[t]) || lock.callers[t].phase == Left)
  }

  /** Whoever is served, or has passed its slot on, had everyone in front pass theirs on first. */
  ghost predicate InLine(lock: Lock) {
    forall p, j, k :: 0 <= j < k < |Queue(lock, p)| && ServedOrLeft(lock, Queue(lock, p)[k]) ==>
      Queue(lock, p)[j] in lock.callers && lock.callers[Queue(lock, p)[j]].phase == Left
  }

  lemma QueueAfterCall(lock: Lock, p: Process, q: Process)
    ensures Queue(Take(lock, Call(p)), q) == if q == p then Queue(lock, p) + [lock.next] else Queue(lock, q)
  {
  }

  lemma CallKeepsPlaces(lock: Lock, p: Process)
    requires Placed(lock)
    ensures Placed(Take(lock, Call(p)))
  {
    var after := Take(lock, Call(p));
    forall t | t in after.callers
      ensures t < after.next && after.callers[t].place < |Queue(after, after.callers[t].process)|
        && Queue(after, after.callers[t].process)[after.callers[t].place] == t
    {
      QueueAfterCall(lock, p, after.callers[t].process);
    }
    forall q, k | 0 <= k < |Queue(after, q)|
      ensures Queue(after, q)[k] in after.callers
        && after.callers[Queue(after, q)[k]].process == q && after.callers[Queue(after, q)[k]].place == k
    {
      QueueAfterCall(lock, p, q);
      if k < |Queue(lock, q)| {
        assert Queue(lock, q)[k] in lock.callers && Queue(lock, q)[k] < lock.next;
      }
    }
  }

  /** The newcomer is neither served nor done, and nobody else moved. */
  lemma InFrontAfterCall(lock: Lock, p: Process, q: Process, j: nat, k: nat)
    requires Placed(lock) && InLine(lock)
    requires var after := Take(lock, Call(p)); j < k < |Queue(after, q)| && ServedOrLeft(after, Queue(after, q)[k])
    ensures var after := Take(lock, Call(p));
      Queue(after, q)[j] in after.callers && after.callers[Queue(after, q)[j]].phase == Left
  {
    QueueAfterCall(lock, p, q);
    var queue := Queue(lock, q);
    assert k < |queue|;
    assert queue[k] in lock.callers && queue[k] != lock.next;
    assert ServedOrLeft(lock, queue[k]);
    assert queue[j] in lock.callers && queue[j] < lock.next;
  }

  lemma CallKeepsLine(lock: Lock, p: Process)
    requires Placed(lock) && InLine(lock)
    ensures InLine(Take(lock, Call(p)))
  {
    var after := Take(lock, Call(p));
    forall q, j, k | 0 <= j < k < |Queue(after, q)| && ServedOrLeft(after, Queue(after, q)[k])
      ensures Queue(after, q)[j] in after.callers && after.callers[Queue(after, q)[j]].phase == Left
    {
      InFrontAfterCall(lock, p, q, j, k);
    }
  }

  /** In a caller's step nobody changes place or process. */
  lemma PlacesStay(lock: Lock, step: Step)
    requires Enabled(lock, step) && !step.Tick? && !step.Call? && !step.Run?
    ensures var after := Take(lock, step);
      && (forall q :: Queue(after, q) == Queue(lock, q)) && after.next == lock.next
      && after.callers.Keys == lock.callers.Keys
      && (forall u :: u in lock.callers ==>
            after.callers[u].process == lock.callers[u].process && after.callers[u].place == lock.callers[u].place)
      && (forall u :: u in lock.callers && u != step.t ==> after.callers[u] == lock.callers[u])
  {
    CallerStepShape(lock, step);
  }

  lemma CallerStepKeepsPlaces(lock: Lock, step: Step)
    requires Placed(lock) && Enabled(lock, step) && !step.Tick? && !step.Call? && !step.Run?
    ensures Placed(Take(lock, step))
  {
    PlacesStay(lock, step);
  }

  lemma LeftStays(lock: Lock, step: Step, u: Token)
    requires Enabled(lock, step) && !step.Tick? && !step.Call? && !step.Run? && u in lock.callers && lock.callers[u].phase == Left
    ensures Take(lock, step).callers[u].phase == Left
  {
  }

  /** A caller that moves to, or stays, served or done has only done callers in front. */
  lemma MoverIsFirst(lock: Lock, step: Step, j: nat)
    requires Placed(lock) && InLine(lock) && Enabled(lock, step) && !step.Tick? && !step.Call? && !step.Run?
    requires ServedOrLeft(Take(lock, step), step.t)
    requires j < lock.callers[step.t].place
    ensures var queue := Queue(lock, lock.callers[step.t].process);
      j < |queue| && queue[j] in lock.callers && queue[j] != step.t && lock.callers[queue[j]].phase == Left
  {
    var c := lock.callers[step.t];
    var queue := Queue(lock, c.process);
    assert queue[j] in lock.callers && lock.callers[queue[j]].place == j;
    if c.phase == Queued || c.phase == Abandoned {
      assert FirstInLine(lock, c);
      assert ServedOrLeft(lock, queue[c.place - 1]);
    } else {
      assert ServedOrLeft(lock, queue[c.place]);
    }
  }

  lemma CallerStepKeepsLine(lock: Lock, step: Step)
    requires Placed(lock) && InLine(lock) && Enabled(lock, step) && !step.Tick? && !step.Call? && !step.Run?
    ensures InLine(Take(lock, step))
  {
    var after := Take(lock, step);
    PlacesStay(lock, step);
    forall p, j, k | 0 <= j < k < |Queue(after, p)| && ServedOrLeft(after, Queue(after, p)[k])
      ensures Queue(after, p)[j] in after.callers && after.callers[Queue(after, p)[j]].phase == Left
    {
      var queue := Queue(lock, p);
      if queue[k] == step.t {
        MoverIsFirst(lock, step, j);
      } else {
        assert ServedOrLeft(lock, queue[k]);
        LeftStays(lock, step, queue[j]);
      }
    }
  }

  lemma {:induction false} EveryQueueIsInLine(cfg: Config, steps: seq<Step>)
    ensures Placed(TakeAll(Start(cfg), steps)) && InLine(TakeAll(Start(cfg), steps))
  {
    if steps != [] {
      var n := |steps| - 1;
      var before := TakeAll(Start(cfg), steps[..n]);
      EveryQueueIsInLine(cfg, steps[..n]);
      if Enabled(before, steps[n]) {
        match steps[n]
        case Tick(ms) => SameLine(before, Take(before, steps[n]));
        case Run(command) => CommandsAreFenced(before, command); SameLine(before, Take(before, steps[n]));
        case Call(p) => CallKeepsPlaces(before, p); CallKeepsLine(before, p);
        case _ => CallerStepKeepsPlaces(before, steps[n]); CallerStepKeepsLine(before, steps[n]);
      }
    }
  }

  lemma SameLine(lock: Lock, after: Lock)
    requires Placed(lock) && InLine(lock) && after.callers == lock.callers && after.queues == lock.queues && after.next == lock.next
    ensures Placed(after) && InLine(after)
  {
    forall p ensures Queue(after, p) == Queue(lock, p) {
    }
  }

  /**
   * Of the callers of one process at most one polls or is in the section, and
   * they get there in the order they called, also past one that timed out.
   */
  lemma OneAtATimeInOrder(cfg: Config, steps: seq<Step>, t: Token, u: Token)
    requires var lock := TakeAll(Start(cfg), steps);
      && t in lock.callers && u in lock.callers && lock.callers[t].process == lock.callers[u].process
      && Serving(lock.callers[t]) && t != u
    ensures var lock := TakeAll(Start(cfg), steps);
      if lock.callers[u].place < lock.callers[t].place then lock.callers[u].phase == Left
      else lock.callers[u].phase == Queued || lock.callers[u].phase == Abandoned
  {
    var lock := TakeAll(Start(cfg), steps);
    EveryQueueIsInLine(cfg, steps);
    var queue := Queue(lock, lock.callers[t].process);
    assert queue[lock.callers[t].place] == t && queue[lock.callers[u].place] == u;
    assert ServedOrLeft(lock, queue[lock.callers[t].place]);
    assert lock.callers[t].place < lock.callers[u].place ==> !ServedOrLeft(lock, queue[lock.callers[u].place]);
  }
}
