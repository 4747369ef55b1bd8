/**
 * Coins in flight: checkout verifications, webhooks, unlocks, earnings and
 * admin adjustments as tasks whose store calls interleave freely. Each call
 * may succeed, fail without effect, fail after taking effect, or be executed
 * and, its reply lost, be sent and executed again.
 */
module Billing {
  import opened Wrappers
  import opened WalletTypes

  /**
   * What may go wrong. In a credit, a balance update may fail and have moved
   * nothing, or fail and have moved the coins; a claim may be taken by a call
   * that fails; a release may fail. In any task, a balance update (`addResent`)
   * or another call (`resends`) whose reply was lost may be executed again.
   */
  datatype Failures = Failures(
    addFails: bool,
    addReplyLost: bool,
    addResent: bool,
    claimReplyLost: bool,
    releaseFails: bool,
    resends: bool)

  /** `patienceMs` bounds the time from reading an order to claiming it. */
  datatype Config = Config(initialCoins: nat, claimTtlMs: nat, unpaidTtlMs: nat, patienceMs: nat, failures: Failures)

  /** Replayed and Credited answered ok, Thrown gave the caller an error. */
  datatype CreditStage =
    | Fetched | Claimed | Releasing(moved: bool) | Marking | Recording
    | Replayed | Credited(recorded: bool) | Thrown(moved: bool)

  /** A debit whose reply was lost is stuck: its coins are gone, whether or not the balance covered them. */
  datatype DebitStage = Asking | Undoing | Extending | Noting | Settled(granted: bool) | Unnoted | Stuck(covered: bool)

  datatype GainStage = Adding | Writing | Written(moved: bool) | Unwritten

  /** One request being served. A credit keeps the order as it read it. */
  datatype Task =
    | Credit(orderId: OrderId, order: Order, readAt: nat, credit: CreditStage)
    | Debit(payer: DeviceId, cost: nat, debit: DebitStage)
    | Gain(earner: DeviceId, delta: int, gain: GainStage)

  datatype Entry = Entry(device: DeviceId, delta: int)

  /**
   * `records` are the orders not evicted before they were paid; `credits` lists
   * every time an order's coins went onto a balance, `repeats` and `copies` the
   * movements and ledger entries that were executed and then sent again.
   */
  datatype Wallet = Wallet(
    cfg: Config,
    now: nat,
    balances: map<DeviceId, int>,
    issued: map<OrderId, Order>,
    records: set<OrderId>,
    paid: set<OrderId>,
    claims: map<OrderId, nat>,
    ledger: seq<Entry>,
    repeats: seq<Entry>,
    copies: seq<Entry>,
    tasks: seq<Task>,
    credits: seq<OrderId>)

  function Open(cfg: Config): Wallet {
    Wallet(cfg, 0, map[], map[], {}, {}, map[], [], [], [], [], [])
  }

  function Balance(w: Wallet, d: DeviceId): int {
    if d in w.balances then w.balances[d] else w.cfg.initialCoins
  }

  /** How a store call went; a call that was resent leaves its task where it is, about to be executed again. */
  datatype Outcome = Ok | Failed | FailedAfter | Resent

  datatype Step =
    | Tick(ms: nat)
    | CreateOrder(orderId: OrderId, device: DeviceId, coins: nat, amount: nat)
    | Evict(gone: set<OrderId>)
    | BeginCredit(orderId: OrderId, amount: nat)
    | BeginUnlock(device: DeviceId, cost: nat)
    | BeginGain(device: DeviceId, delta: int)
    | Do(k: nat, outcome: Outcome)

  /* ---------------------------------------------------------------- */
  /* One store call of one task                                        */
  /* ---------------------------------------------------------------- */

  /** What a call leaves: the task's new stage, coins moved on its device, and a ledger entry. */
  datatype Effect = Effect(
    task: Task,
    moved: int,
    entry: Option<int>,
    claims: map<OrderId, nat>,
    paid: set<OrderId>,
    credited: bool,
    again: bool := false)

  function DeviceOf(t: Task): DeviceId {
    match t
    case Credit(_, order, _, _) => order.device
    case Debit(payer, _, _) => payer
    case Gain(earner, _, _) => earner
  }

  predicate Live(w: Wallet, o: OrderId) {
    o in w.claims && w.claims[o] > w.now
  }

  function Still(w: Wallet, t: Task): Effect {
    Effect(t, 0, None, w.claims, w.paid, false)
  }

  /** The next call of the task is a balance update. */
  predicate CallsBalance(t: Task) {
    match t
    case Credit(_, _, _, stage) => stage.Claimed?
    case Debit(_, _, stage) => stage.Asking? || stage.Undoing?
    case Gain(_, _, stage) => stage.Adding?
  }

  /** Whether a call of this task may go this way now; a claim is only tried while the request's patience lasts. */
  predicate Allowed(w: Wallet, t: Task, outcome: Outcome) {
    var f := w.cfg.failures;
    && (outcome == Resent ==> if CallsBalance(t) then f.addResent else f.resends)
    && (t.Credit? ==>
          match t.credit
          case Fetched =>
            (outcome == FailedAfter ==> f.claimReplyLost) && (t.order.paid || outcome == Failed || w.now <= t.readAt + w.cfg.patienceMs)
          case Claimed => (outcome == Failed ==> f.addFails) && (outcome == FailedAfter ==> f.addReplyLost)
          case Releasing(_) => outcome == Failed ==> f.releaseFails
          case _ => true)
  }

  /**
   * credit(): an order already paid is done; the claim is taken once, and a
   * claim that finds one live (also its own, executed before) is a replay; the
   * coins move; a failure to move them gives the claim back; failed records
   * after that are only logged.
   */
  function CreditCall(w: Wallet, t: Task, outcome: Outcome): Effect
    requires t.Credit?
  {
    var o := t.orderId;
    match t.credit
    case Fetched =>
      if t.order.paid then Still(w, t.(credit := Replayed))
      else if outcome == Failed then Still(w, t.(credit := Thrown(false)))
      else if Live(w, o) then Still(w, t.(credit := if outcome == FailedAfter then Thrown(false) else Replayed))
      else
        Effect(t.(credit := if outcome == FailedAfter then Thrown(false) else Claimed), 0, None,
               w.claims[o := w.now + w.cfg.claimTtlMs], w.paid, false)
    case Claimed =>
      if outcome == Failed then Still(w, t.(credit := Releasing(false)))
      else Effect(t.(credit := if outcome == FailedAfter then Releasing(true) else Marking), t.order.coins, None, w.claims, w.paid, true)
    case Releasing(moved) =>
      Effect(t.(credit := Thrown(moved)), 0, None, if outcome == Failed then w.claims else w.claims - {o}, w.paid, false)
    case Marking =>
      Effect(t.(credit := if outcome == Ok then Recording else Credited(false)), 0, None, w.claims,
             if outcome == Failed then w.paid else w.paid + {o}, false)
    case Recording =>
      if outcome == Failed then Still(w, t.(credit := Credited(false)))
      else Effect(t.(credit := Credited(true)), 0, Some(t.order.coins as int), w.claims, w.paid, false)
    case Replayed => Still(w, t)
    case Credited(_) => Still(w, t)
    case Thrown(_) => Still(w, t)
  }

  /** unlock(): subtract, look at the result, and put it back if it went below zero. */
  function DebitCall(w: Wallet, t: Task, outcome: Outcome): Effect
    requires t.Debit?
  {
    var covered := Balance(w, t.payer) - t.cost >= 0;
    match t.debit
    case Asking =>
      if outcome == Failed then Still(w, t.(debit := Settled(false)))
      else
        Effect(t.(debit := if outcome == FailedAfter then Stuck(covered) else if covered then Extending else Undoing),
               -(t.cost as int), None, w.claims, w.paid, false)
    case Undoing =>
      if outcome == Failed then Still(w, t.(debit := Stuck(false)))
      else Effect(t.(debit := Settled(false)), t.cost, None, w.claims, w.paid, false)
    case Extending => Still(w, t.(debit := if outcome == Ok then Noting else Unnoted))
    case Noting =>
      if outcome == Failed then Still(w, t.(debit := Unnoted))
      else Effect(t.(debit := Settled(true)), 0, Some(-(t.cost as int)), w.claims, w.paid, false)
    case Settled(_) => Still(w, t)
    case Unnoted => Still(w, t)
    case Stuck(_) => Still(w, t)
  }

  /** earn() and adjust(): move, then record. */
  function GainCall(w: Wallet, t: Task, outcome: Outcome): Effect
    requires t.Gain?
  {
    match t.gain
    case Adding =>
      if outcome == Failed then Still(w, t.(gain := Written(false)))
      else Effect(t.(gain := if outcome == FailedAfter then Unwritten else Writing), t.delta, None, w.claims, w.paid, false)
    case Writing =>
      if outcome == Failed then Still(w, t.(gain := Unwritten))
      else Effect(t.(gain := Written(true)), 0, Some(t.delta), w.claims, w.paid, false)
    case Written(_) => Still(w, t)
    case Unwritten => Still(w, t)
  }

  function CallOnce(w: Wallet, t: Task, outcome: Outcome): Effect {
    match t
    case Credit(_, _, _, _) => CreditCall(w, t, outcome)
    case Debit(_, _, _) => DebitCall(w, t, outcome)
    case Gain(_, _, _) => GainCall(w, t, outcome)
  }

  /** A call that is sent again has done all it does but move its task on. */
  function CallOf(w: Wallet, t: Task, outcome: Outcome): Effect {
    if outcome == Resent then CallOnce(w, t, Ok).(task := t, again := true) else CallOnce(w, t, outcome)
  }

  function Noted(log: seq<Entry>, d: DeviceId, delta: Option<int>): seq<Entry> {
    if delta.Some? then log + [Entry(d, delta.value)] else log
  }

  function Applied(w: Wallet, k: nat, e: Effect): Wallet
    requires k < |w.tasks|
  {
    var d := DeviceOf(w.tasks[k]);
    w.(balances := if e.moved == 0 then w.balances else w.balances[d := Balance(w, d) + e.moved],
       claims := e.claims,
       paid := e.paid,
       ledger := Noted(w.ledger, d, e.entry),
       repeats := Noted(w.repeats, d, if e.again && e.moved != 0 then Some(e.moved) else None),
       copies := Noted(w.copies, d, if e.again then e.entry else None),
       tasks := w.tasks[k := e.task],
       credits := if e.credited && w.tasks[k].Credit? then w.credits + [w.tasks[k].orderId] else w.credits)
  }

  /** The order as a read returns it. */
  function Record(w: Wallet, o: OrderId): Order
    requires o in w.issued
  {
    w.issued[o].(paid := o in w.paid)
  }

  /** An unpaid record expires, and may be evicted before. */
  predicate ReadableAt(w: Wallet, o: OrderId, t: nat) {
    o in w.issued && (o in w.paid || (o in w.records && t < w.issued[o].createdAt + w.cfg.unpaidTtlMs))
  }

  predicate Readable(w: Wallet, o: OrderId) {
    ReadableAt(w, o, w.now)
  }

  predicate May(w: Wallet, step: Step) {
    match step
    case CreateOrder(o, _, _, _) => o !in w.issued
    case BeginCredit(o, amount) => Readable(w, o) && w.issued[o].amount == amount
    case Do(k, outcome) => k < |w.tasks| && Allowed(w, w.tasks[k], outcome)
    case _ => true
  }

  /** A step that may not be taken changes nothing. */
  function Take(w: Wallet, step: Step): Wallet {
    if !May(w, step) then w
    else
      match step
      case Tick(ms) => w.(now := w.now + ms)
      case CreateOrder(o, device, coins, amount) =>
        w.(issued := w.issued[o := Order(device, coins, amount, false, w.now)], records := w.records + {o})
      case Evict(gone) => w.(records := w.records - gone)
      case BeginCredit(o, _) => w.(tasks := w.tasks + [Credit(o, Record(w, o), w.now, Fetched)])
      case BeginUnlock(device, cost) => w.(tasks := w.tasks + [Debit(device, cost, Asking)])
      case BeginGain(device, delta) => w.(tasks := w.tasks + [Gain(device, delta, Adding)])
      case Do(k, outcome) => Applied(w, k, CallOf(w, w.tasks[k], outcome))
  }

  function TakeAll(w: Wallet, steps: seq<Step>): Wallet
    decreases |steps|
  {
    if steps == [] then w else TakeAll(Take(w, steps[0]), steps[1..])
  }

  lemma TakeTwo(w: Wallet, a: Step, b: Step)
    ensures TakeAll(w, [a, b]) == Take(Take(w, a), b)
  {
    assert [a, b][1..] == [b] && [b][1..] == [];
    assert TakeAll(Take(w, a), [b]) == TakeAll(Take(Take(w, a), b), []);
  }

  lemma TakeFour(w: Wallet, a: Step, b: Step, c: Step, d: Step)
    ensures TakeAll(w, [a, b, c, d]) == Take(Take(Take(Take(w, a), b), c), d)
  {
    assert [a, b, c, d][1..] == [b, c, d] && [b, c, d][1..] == [c, d];
    TakeTwo(Take(Take(w, a), b), c, d);
  }

  lemma {:induction false} TakeMore(w: Wallet, first: seq<Step>, second: seq<Step>)
    ensures TakeAll(w, first + second) == TakeAll(TakeAll(w, first), second)
    decreases |first|
  {
    if first == [] {
      assert first + second == second;
    } else {
      assert (first + second)[1..] == first[1..] + second;
      TakeMore(Take(w, first[0]), first[1..], second);
    }
  }

  /** What a step that begins a task adds. */
  function Begun(w: Wallet, step: Step): seq<Task> {
    if !May(w, step) then []
    else
      match step
      case BeginCredit(o, _) => [Credit(o, Record(w, o), w.now, Fetched)]
      case BeginUnlock(device, cost) => [Debit(device, cost, Asking)]
      case BeginGain(device, delta) => [Gain(device, delta, Adding)]
      case _ => []
  }

  /** A step that is no store call moves no coins and only adds a task. */
  lemma BeginShape(w: Wallet, step: Step)
    requires !step.Do?
    ensures var w' := Take(w, step);
      && w'.tasks == w.tasks + Begun(w, step) && |Begun(w, step)| <= 1
      && w'.cfg == w.cfg && w'.balances == w.balances && w'.claims == w.claims
      && w'.ledger == w.ledger && w'.repeats == w.repeats && w'.copies == w.copies
      && w'.paid == w.paid && w'.credits == w.credits && w.now <= w'.now
      && (forall o :: o in w.issued ==> o in w'.issued && w'.issued[o] == w.issued[o])
      && (forall o :: o in w'.issued && o !in w.issued ==> w'.issued[o].createdAt == w'.now)
  {
  }

  /* ---------------------------------------------------------------- */
  /* Conservation                                                      */
  /* ---------------------------------------------------------------- */

  predicate MovedCoins(stage: CreditStage) {
    stage.Marking? || stage.Recording? || stage.Credited? || stage == Releasing(true) || stage == Thrown(true)
  }

  /** Coins this task has brought in. */
  function In(t: Task): int {
    match t
    case Credit(_, order, _, stage) => if MovedCoins(stage) then order.coins else 0
    case Debit(_, _, _) => 0
    case Gain(_, delta, stage) => if stage.Writing? || stage == Written(true) || stage.Unwritten? then delta else 0
  }

  /** Coins this debit has taken from a balance that covered them. */
  function Out(t: Task): int {
    if t.Debit? && (t.debit.Extending? || t.debit.Noting? || t.debit == Settled(true) || t.debit.Unnoted? || t.debit == Stuck(true))
    then t.cost else 0
  }

  /** Coins this debit has taken from a balance that did not, and not put back. */
  function Held(t: Task): int {
    if t.Debit? && (t.debit.Undoing? || t.debit == Stuck(false)) then t.cost else 0
  }

  /** Coins this task has moved that no ledger entry or undo accounts for yet. */
  function Outstanding(t: Task): int {
    match t
    case Credit(_, _, _, stage) => if stage == Credited(true) then 0 else In(t)
    case Debit(_, _, stage) => if stage == Settled(true) then 0 else -Out(t) - Held(t)
    case Gain(_, _, stage) => if stage == Written(true) then 0 else In(t)
  }

  function SumOn(tasks: seq<Task>, d: DeviceId, f: Task -> int): int {
    if tasks == [] then 0
    else SumOn(tasks[..|tasks| - 1], d, f) + if DeviceOf(tasks[|tasks| - 1]) == d then f(tasks[|tasks| - 1]) else 0
  }

  function LedgerOf(ledger: seq<Entry>, d: DeviceId): int {
    if ledger == [] then 0
    else LedgerOf(ledger[..|ledger| - 1], d) + if ledger[|ledger| - 1].device == d then ledger[|ledger| - 1].delta else 0
  }

  /** The coins lost to movements that took coins. */
  function LostOf(log: seq<Entry>, d: DeviceId): nat {
    if log == [] then 0
    else LostOf(log[..|log| - 1], d) + if log[|log| - 1].device == d then Max(0, -log[|log| - 1].delta) else 0
  }

  lemma {:induction false} OneTaskChanges(tasks: seq<Task>, k: nat, t: Task, d: DeviceId, f: Task -> int)
    requires k < |tasks| && DeviceOf(t) == DeviceOf(tasks[k])
    ensures SumOn(tasks[k := t], d, f) == SumOn(tasks, d, f) + if DeviceOf(t) == d then f(t) - f(tasks[k]) else 0
  {
    var n := |tasks| - 1;
    if k < n {
      assert tasks[k := t][..n] == tasks[..n][k := t];
      OneTaskChanges(tasks[..n], k, t, d, f);
    } else {
      assert tasks[k := t][..n] == tasks[..n];
    }
  }

  lemma TaskJoins(tasks: seq<Task>, t: Task, d: DeviceId, f: Task -> int)
    ensures SumOn(tasks + [t], d, f) == SumOn(tasks, d, f) + if DeviceOf(t) == d then f(t) else 0
  {
    assert (tasks + [t])[..|tasks|] == tasks;
  }

  /** A task that has moved nothing yet joins unnoticed. */
  lemma OneTaskJoins(tasks: seq<Task>, more: seq<Task>, d: DeviceId, f: Task -> int)
    requires |more| <= 1 && forall t :: t in more ==> f(t) == 0
    ensures SumOn(tasks + more, d, f) == SumOn(tasks, d, f)
  {
    if more == [] {
      assert tasks + more == tasks;
    } else {
      TaskJoins(tasks, more[0], d, f);
      assert tasks + more == tasks + [more[0]];
    }
  }

  lemma EntryJoins(log: seq<Entry>, d: DeviceId, e: DeviceId, delta: Option<int>)
    ensures LedgerOf(Noted(log, e, delta), d) == LedgerOf(log, d) + if e == d then delta.GetOr(0) else 0
    ensures LostOf(Noted(log, e, delta), d) == LostOf(log, d) + if e == d then Max(0, -delta.GetOr(0)) else 0
  {
    if delta.Some? {
      assert (log + [Entry(e, delta.value)])[..|log|] == log;
    }
  }

  /** The balance by what moved, and by what is on record; what was executed again counts once more. */
  predicate BooksOf(w: Wallet, d: DeviceId) {
    && Balance(w, d) == w.cfg.initialCoins + SumOn(w.tasks, d, In) - SumOn(w.tasks, d, Out) - SumOn(w.tasks, d, Held) + LedgerOf(w.repeats, d)
    && Balance(w, d) == w.cfg.initialCoins + LedgerOf(w.ledger, d) - LedgerOf(w.copies, d) + SumOn(w.tasks, d, Outstanding) + LedgerOf(w.repeats, d)
  }

  /** What a call moved is in, out or held, and outstanding until the ledger or an undo accounts for it. */
  predicate AccountsFor(t: Task, e: Effect) {
    && DeviceOf(e.task) == DeviceOf(t)
    && (e.again ==> e.task == t)
    && (!e.again ==> e.moved == (In(e.task) - In(t)) - (Out(e.task) - Out(t)) - (Held(e.task) - Held(t)))
    && (!e.again ==> e.moved == e.entry.GetOr(0) + Outstanding(e.task) - Outstanding(t))
  }

  lemma CreditAccounts(w: Wallet, t: Task, outcome: Outcome)
    requires t.Credit?
    ensures AccountsFor(t, CreditCall(w, t, outcome))
  {
  }

  lemma CallsAccount(w: Wallet, t: Task, outcome: Outcome)
    ensures AccountsFor(t, CallOf(w, t, outcome))
  {
    if t.Credit? {
      CreditAccounts(w, t, outcome);
    }
  }

  lemma DoKeepsBooks(w: Wallet, k: nat, outcome: Outcome, d: DeviceId)
    requires BooksOf(w, d) && May(w, Do(k, outcome))
    ensures BooksOf(Take(w, Do(k, outcome)), d)
  {
    var e := CallOf(w, w.tasks[k], outcome);
    CallsAccount(w, w.tasks[k], outcome);
    AppliedKeepsBooks(w, k, e, d);
  }

  lemma AppliedKeepsBooks(w: Wallet, k: nat, e: Effect, d: DeviceId)
    requires BooksOf(w, d) && k < |w.tasks| && AccountsFor(w.tasks[k], e)
    ensures BooksOf(Applied(w, k, e), d)
  {
    OneTaskChanges(w.tasks, k, e.task, d, In);
    OneTaskChanges(w.tasks, k, e.task, d, Out);
    OneTaskChanges(w.tasks, k, e.task, d, Held);
    OneTaskChanges(w.tasks, k, e.task, d, Outstanding);
    EntryJoins(w.ledger, d, DeviceOf(w.tasks[k]), e.entry);
    EntryJoins(w.repeats, d, DeviceOf(w.tasks[k]), if e.again && e.moved != 0 then Some(e.moved) else None);
    EntryJoins(w.copies, d, DeviceOf(w.tasks[k]), if e.again then e.entry else None);
  }

  lemma BeginKeepsBooks(w: Wallet, step: Step, d: DeviceId)
    requires BooksOf(w, d) && !step.Do?
    ensures BooksOf(Take(w, step), d)
  {
    BeginShape(w, step);
    OneTaskJoins(w.tasks, Begun(w, step), d, In);
    OneTaskJoins(w.tasks, Begun(w, step), d, Out);
    OneTaskJoins(w.tasks, Begun(w, step), d, Held);
    OneTaskJoins(w.tasks, Begun(w, step), d, Outstanding);
  }

  lemma StepKeepsBooks(w: Wallet, step: Step, d: DeviceId)
    requires BooksOf(w, d)
    ensures BooksOf(Take(w, step), d)
  {
    if !step.Do? {
      BeginKeepsBooks(w, step, d);
    } else if May(w, step) {
      DoKeepsBooks(w, step.k, step.outcome, d);
    }
  }

  lemma {:induction false} RunKeepsBooks(w: Wallet, steps: seq<Step>, d: DeviceId)
    requires BooksOf(w, d)
    ensures BooksOf(TakeAll(w, steps), d)
    decreases |steps|
  {
    if steps != [] {
      StepKeepsBooks(w, steps[0], d);
      RunKeepsBooks(Take(w, steps[0]), steps[1..], d);
    }
  }

  /**
   * Conservation, in every interleaving, whatever fails and whatever is
   * executed again: a balance is what it started at, what came in, less what
   * granted debits took and what refused ones still hold; and it is what the
   * ledger says and what is not yet, or never was, recorded. Each movement and
   * each entry executed before its call was sent again counts once more.
   */
  lemma CoinsAreConserved(cfg: Config, steps: seq<Step>, d: DeviceId)
    ensures var w := TakeAll(Open(cfg), steps);
      var again := LedgerOf(w.repeats, d);
      && Balance(w, d) == cfg.initialCoins + SumOn(w.tasks, d, In) - SumOn(w.tasks, d, Out) - SumOn(w.tasks, d, Held) + again
      && Balance(w, d) == cfg.initialCoins + LedgerOf(w.ledger, d) - LedgerOf(w.copies, d) + SumOn(w.tasks, d, Outstanding) + again
    ensures var w := TakeAll(Open(cfg), steps);
      (!cfg.failures.addResent ==> w.repeats == []) && (!cfg.failures.resends ==> w.copies == [])
  {
    RunKeepsBooks(Open(cfg), steps, d);
    RunKeepsConfig(Open(cfg), steps);
    RunRepeatsAsAllowed(Open(cfg), steps);
  }

  predicate RepeatsAsAllowed(w: Wallet) {
    (!w.cfg.failures.addResent ==> w.repeats == []) && (!w.cfg.failures.resends ==> w.copies == [])
  }

  /** A call moves coins or writes the ledger, never both. */
  lemma BalanceCallsMove(w: Wallet, t: Task, outcome: Outcome)
    ensures var e := CallOf(w, t, outcome); (e.moved != 0 ==> CallsBalance(t)) && (e.entry.Some? ==> !CallsBalance(t))
  {
  }

  lemma StepRepeatsAsAllowed(w: Wallet, step: Step)
    requires RepeatsAsAllowed(w)
    ensures RepeatsAsAllowed(Take(w, step))
  {
    if step.Do? {
      if May(w, step) {
        BalanceCallsMove(w, w.tasks[step.k], step.outcome);
      }
    } else {
      BeginShape(w, step);
    }
  }

  lemma {:induction false} RunRepeatsAsAllowed(w: Wallet, steps: seq<Step>)
    requires RepeatsAsAllowed(w)
    ensures RepeatsAsAllowed(TakeAll(w, steps))
    decreases |steps|
  {
    if steps != [] {
      StepRepeatsAsAllowed(w, steps[0]);
      RunRepeatsAsAllowed(Take(w, steps[0]), steps[1..]);
    }
  }

  lemma {:induction false} RunKeepsConfig(w: Wallet, steps: seq<Step>)
    ensures TakeAll(w, steps).cfg == w.cfg
    decreases |steps|
  {
    if steps != [] {
      RunKeepsConfig(Take(w, steps[0]), steps[1..]);
    }
  }

  /** Every coin this task moved is on record. */
  predicate Accounted(t: Task) {
    Outstanding(t) == 0
  }

  lemma {:induction false} NothingSums(tasks: seq<Task>, d: DeviceId, f: Task -> int)
    requires forall t :: t in tasks && DeviceOf(t) == d ==> f(t) == 0
    ensures SumOn(tasks, d, f) == 0
  {
    if tasks != [] {
      assert forall t :: t in tasks[..|tasks| - 1] ==> t in tasks;
      NothingSums(tasks[..|tasks| - 1], d, f);
    }
  }

  /** With nothing of a device in flight and no write lost, the ledger explains its balance, up to what was executed again. */
  lemma LedgerExplainsBalance(cfg: Config, steps: seq<Step>, d: DeviceId)
    requires forall t :: t in TakeAll(Open(cfg), steps).tasks && DeviceOf(t) == d ==> Accounted(t)
    ensures var w := TakeAll(Open(cfg), steps);
      && Balance(w, d) == cfg.initialCoins + LedgerOf(w.ledger, d) - LedgerOf(w.copies, d) + LedgerOf(w.repeats, d)
      && (!cfg.failures.addResent && !cfg.failures.resends ==> Balance(w, d) == cfg.initialCoins + LedgerOf(w.ledger, d))
  {
    CoinsAreConserved(cfg, steps, d);
    NothingSums(TakeAll(Open(cfg), steps).tasks, d, Outstanding);
  }

  /** If every coin a device moved is on record, its ledger explains its balance. */
  ghost predicate Explained(w: Wallet, d: DeviceId) {
    (forall t :: t in w.tasks && DeviceOf(t) == d ==> Accounted(t)) ==>
      Balance(w, d) == w.cfg.initialCoins + LedgerOf(w.ledger, d)
  }

  lemma EarnedTwice(cfg: Config)
    requires cfg.failures.addResent
    ensures var w := Take(Take(Take(Take(Open(cfg), BeginGain(0, 1)), Do(0, Resent)), Do(0, Ok)), Do(0, Ok));
      w.cfg == cfg && w.tasks == [Gain(0, 1, Written(true))] && w.ledger == Noted([], 0, Some(1)) && Balance(w, 0) == cfg.initialCoins + 2
  {
    var begun := Take(Open(cfg), BeginGain(0, 1));
    assert begun.tasks == [Gain(0, 1, Adding)];
    var once := Take(begun, Do(0, Resent));
    assert once.tasks == [Gain(0, 1, Adding)] && once.ledger == [] && Balance(once, 0) == cfg.initialCoins + 1;
    var twice := Take(once, Do(0, Ok));
    assert twice.tasks == [Gain(0, 1, Writing)] && twice.ledger == [] && Balance(twice, 0) == cfg.initialCoins + 2;
    assert Take(twice, Do(0, Ok)).tasks == [Gain(0, 1, Written(true))];
  }

  /** A coin is earned, and the update is executed twice. */
  lemma EarnedTwiceIsUnexplained(cfg: Config)
    requires cfg.failures.addResent
    ensures !Explained(TakeAll(Open(cfg), [BeginGain(0, 1), Do(0, Resent), Do(0, Ok), Do(0, Ok)]), 0)
  {
    TakeFour(Open(cfg), BeginGain(0, 1), Do(0, Resent), Do(0, Ok), Do(0, Ok));
    EarnedTwice(cfg);
    EntryJoins([], 0, 0, Some(1));
  }

  lemma WrittenTwice(cfg: Config)
    requires cfg.failures.resends
    ensures var w := Take(Take(Take(Take(Open(cfg), BeginGain(0, 1)), Do(0, Ok)), Do(0, Resent)), Do(0, Ok));
      && w.tasks == [Gain(0, 1, Written(true))] && w.ledger == Noted(Noted([], 0, Some(1)), 0, Some(1))
      && Balance(w, 0) == cfg.initialCoins + 1 && w.cfg == cfg
  {
    var begun := Take(Open(cfg), BeginGain(0, 1));
    assert begun.tasks == [Gain(0, 1, Adding)];
    var moved := Take(begun, Do(0, Ok));
    assert moved.tasks == [Gain(0, 1, Writing)] && moved.ledger == [] && Balance(moved, 0) == cfg.initialCoins + 1;
    var once := Take(moved, Do(0, Resent));
    assert once.tasks == [Gain(0, 1, Writing)] && once.ledger == Noted([], 0, Some(1));
  }

  /** A coin is earned, and its entry is written twice. */
  lemma WrittenTwiceIsUnexplained(cfg: Config)
    requires cfg.failures.resends
    ensures !Explained(TakeAll(Open(cfg), [BeginGain(0, 1), Do(0, Ok), Do(0, Resent), Do(0, Ok)]), 0)
  {
    TakeFour(Open(cfg), BeginGain(0, 1), Do(0, Ok), Do(0, Resent), Do(0, Ok));
    WrittenTwice(cfg);
    EntryJoins([], 0, 0, Some(1));
    EntryJoins(Noted([], 0, Some(1)), 0, 0, Some(1));
  }

  /** The ledger explains settled balances in every run exactly when nothing is executed again. */
  lemma LedgerExplainsIffNothingRepeats(cfg: Config)
    ensures (forall steps: seq<Step>, d: DeviceId :: Explained(TakeAll(Open(cfg), steps), d))
            <==> !cfg.failures.addResent && !cfg.failures.resends
  {
    if cfg.failures.addResent {
      EarnedTwiceIsUnexplained(cfg);
    } else if cfg.failures.resends {
      WrittenTwiceIsUnexplained(cfg);
    } else {
      forall steps: seq<Step>, d: DeviceId ensures Explained(TakeAll(Open(cfg), steps), d) {
        RunKeepsConfig(Open(cfg), steps);
        if forall t :: t in TakeAll(Open(cfg), steps).tasks && DeviceOf(t) == d ==> Accounted(t) {
          LedgerExplainsBalance(cfg, steps, d);
        }
      }
    }
  }

  /* ---------------------------------------------------------------- */
  /* Spending                                                          */
  /* ---------------------------------------------------------------- */

  /** What the device is worth: what it started with and brought in, less what it bought, and what moved again. */
  function Worth(w: Wallet, d: DeviceId): int {
    w.cfg.initialCoins + SumOn(w.tasks, d, In) - SumOn(w.tasks, d, Out) + LedgerOf(w.repeats, d)
  }

  predicate Generous(step: Step) {
    step.BeginGain? ==> step.delta >= 0
  }

  lemma {:induction false} HeldIsNat(tasks: seq<Task>, d: DeviceId)
    ensures SumOn(tasks, d, Held) >= 0
  {
    if tasks != [] {
      HeldIsNat(tasks[..|tasks| - 1], d);
    }
  }

  /** No debit kept what the balance did not cover. */
  ghost predicate Covered(w: Wallet, d: DeviceId) {
    && Balance(w, d) + SumOn(w.tasks, d, Held) + LostOf(w.repeats, d) >= 0
    && (forall k :: 0 <= k < |w.tasks| && w.tasks[k].Gain? ==> w.tasks[k].delta >= 0)
  }

  /** A call takes more than it comes to hold, or loses by moving again, only from a balance that covers it. */
  lemma CallIsCovered(w: Wallet, t: Task, outcome: Outcome)
    requires Allowed(w, t, outcome) && (t.Gain? ==> t.delta >= 0)
    ensures var e := CallOf(w, t, outcome);
      && DeviceOf(e.task) == DeviceOf(t) && (e.task.Gain? ==> e.task.delta >= 0) && (e.again ==> e.task == t)
      && (e.again || e.moved + Held(e.task) - Held(t) >= 0 || (Held(e.task) == Held(t) && Balance(w, DeviceOf(t)) + e.moved >= 0))
  {
  }

  lemma DoIsCovered(w: Wallet, k: nat, outcome: Outcome, d: DeviceId)
    requires Covered(w, d) && May(w, Do(k, outcome))
    ensures Covered(Take(w, Do(k, outcome)), d)
  {
    var e := CallOf(w, w.tasks[k], outcome);
    CallIsCovered(w, w.tasks[k], outcome);
    OneTaskChanges(w.tasks, k, e.task, d, Held);
    HeldIsNat(w.tasks, d);
    EntryJoins(w.repeats, d, DeviceOf(w.tasks[k]), if e.again && e.moved != 0 then Some(e.moved) else None);
  }

  lemma StepIsCovered(w: Wallet, step: Step, d: DeviceId)
    requires Covered(w, d) && Generous(step)
    ensures Covered(Take(w, step), d)
  {
    if step.Do? {
      if May(w, step) {
        DoIsCovered(w, step.k, step.outcome, d);
      }
    } else {
      BeginShape(w, step);
      OneTaskJoins(w.tasks, Begun(w, step), d, Held);
    }
  }

  lemma {:induction false} RunIsCovered(w: Wallet, steps: seq<Step>, d: DeviceId)
    requires Covered(w, d) && forall i :: 0 <= i < |steps| ==> Generous(steps[i])
    ensures Covered(TakeAll(w, steps), d)
    decreases |steps|
  {
    if steps != [] {
      StepIsCovered(w, steps[0], d);
      RunIsCovered(Take(w, steps[0]), steps[1..], d);
    }
  }

  /**
   * No interleaving overspends: what granted debits took never exceeds what
   * the device started with and brought in, and what it gained from updates
   * executed again.
   */
  lemma NobodyOverspends(cfg: Config, steps: seq<Step>, d: DeviceId)
    requires forall i :: 0 <= i < |steps| ==> Generous(steps[i])
    ensures var w := TakeAll(Open(cfg), steps);
      && SumOn(w.tasks, d, Out) <= cfg.initialCoins + SumOn(w.tasks, d, In) + LedgerOf(w.repeats, d) + LostOf(w.repeats, d)
      && Balance(w, d) + SumOn(w.tasks, d, Held) + LostOf(w.repeats, d) >= 0
      && (!cfg.failures.addResent ==> w.repeats == [])
  {
    RunIsCovered(Open(cfg), steps, d);
    CoinsAreConserved(cfg, steps, d);
  }

  /** So once no debit of a device holds anything, its balance is not negative but by what was taken again. */
  lemma SettledBalancesAreNotNegative(cfg: Config, steps: seq<Step>, d: DeviceId)
    requires forall i :: 0 <= i < |steps| ==> Generous(steps[i])
    requires forall t :: t in TakeAll(Open(cfg), steps).tasks && DeviceOf(t) == d ==> Held(t) == 0
    ensures var w := TakeAll(Open(cfg), steps);
      Balance(w, d) + LostOf(w.repeats, d) >= 0 && (!cfg.failures.addResent ==> Balance(w, d) >= 0)
  {
    NobodyOverspends(cfg, steps, d);
    NothingSums(TakeAll(Open(cfg), steps).tasks, d, Held);
  }

  /** If the steps take nothing away and no debit of the device holds anything, its balance is not negative. */
  ghost predicate Solvent(cfg: Config, steps: seq<Step>, d: DeviceId) {
    var w := TakeAll(Open(cfg), steps);
    (forall i :: 0 <= i < |steps| ==> Generous(steps[i])) && (forall t :: t in w.tasks && DeviceOf(t) == d ==> Held(t) == 0) ==>
      Balance(w, d) >= 0
  }

  /** An unlock the device cannot afford is taken twice and put back once. */
  function TakenTwice(cfg: Config): seq<Step> {
    [BeginUnlock(0, cfg.initialCoins + 1), Do(0, Resent), Do(0, Ok), Do(0, Ok)]
  }

  lemma TakenTwiceIsInsolvent(cfg: Config)
    requires cfg.failures.addResent
    ensures !Solvent(cfg, TakenTwice(cfg), 0)
  {
    var c, s := cfg.initialCoins, TakenTwice(cfg);
    TakeFour(Open(cfg), s[0], s[1], s[2], s[3]);
    var begun := Take(Open(cfg), s[0]);
    assert begun.tasks == [Debit(0, c + 1, Asking)];
    var once := Take(begun, s[1]);
    assert once.tasks == [Debit(0, c + 1, Asking)] && Balance(once, 0) == -1;
    var twice := Take(once, s[2]);
    assert twice.tasks == [Debit(0, c + 1, Undoing)] && Balance(twice, 0) + c == -2;
    assert Take(twice, s[3]).tasks == [Debit(0, c + 1, Settled(false))];
  }

  /** Settled balances stay non-negative in every run exactly when no balance update is executed again. */
  lemma SolventIffNothingRepeats(cfg: Config)
    ensures (forall steps: seq<Step>, d: DeviceId :: Solvent(cfg, steps, d)) <==> !cfg.failures.addResent
  {
    if cfg.failures.addResent {
      TakenTwiceIsInsolvent(cfg);
    } else {
      forall steps: seq<Step>, d: DeviceId ensures Solvent(cfg, steps, d) {
        if (forall i :: 0 <= i < |steps| ==> Generous(steps[i]))
          && (forall t :: t in TakeAll(Open(cfg), steps).tasks && DeviceOf(t) == d ==> Held(t) == 0)
        {
          SettledBalancesAreNotNegative(cfg, steps, d);
        }
      }
    }
  }

  /**
   * In every interleaving an unlock is granted exactly when the device's worth
   * covers its cost and all that refused debits hold at that moment; so it is
   * refused although affordable exactly when what they hold makes the difference.
   */
  lemma UnlockIsGranted(cfg: Config, steps: seq<Step>, k: nat)
    requires var w := TakeAll(Open(cfg), steps); k < |w.tasks| && w.tasks[k].Debit? && w.tasks[k].debit == Asking
    ensures var w := TakeAll(Open(cfg), steps);
      var d, cost, after := w.tasks[k].payer, w.tasks[k].cost, Take(w, Do(k, Ok)).tasks[k];
      && (after == Debit(d, cost, Extending) <==> cost + SumOn(w.tasks, d, Held) <= Worth(w, d))
      && (after == Debit(d, cost, Undoing) && cost <= Worth(w, d) <==>
            Worth(w, d) - SumOn(w.tasks, d, Held) < cost <= Worth(w, d))
  {
    var w := TakeAll(Open(cfg), steps);
    CoinsAreConserved(cfg, steps, w.tasks[k].payer);
    RunKeepsConfig(Open(cfg), steps);
  }

  /** A device earns a coin, asks for more than it has, and then for one coin's worth. */
  function TwoUnlocks(initial: nat): seq<Step> {
    [BeginGain(0, 1), Do(0, Ok), BeginUnlock(0, initial + 2), Do(1, Ok)] + [BeginUnlock(0, 1), Do(2, Ok)]
  }

  lemma EarnAndOverask(cfg: Config)
    ensures var w := TakeAll(Open(cfg), [BeginGain(0, 1), Do(0, Ok), BeginUnlock(0, cfg.initialCoins + 2), Do(1, Ok)]);
      w.tasks == [Gain(0, 1, Writing), Debit(0, cfg.initialCoins + 2, Undoing)] && Balance(w, 0) == -1 && w.cfg == cfg && w.repeats == []
  {
    var c := cfg.initialCoins;
    TakeFour(Open(cfg), BeginGain(0, 1), Do(0, Ok), BeginUnlock(0, c + 2), Do(1, Ok));
    var begun := Take(Open(cfg), BeginGain(0, 1));
    assert begun.tasks == [Gain(0, 1, Adding)];
    var earned := Take(begun, Do(0, Ok));
    assert earned.tasks == [Gain(0, 1, Writing)] && Balance(earned, 0) == c + 1;
    var asked := Take(earned, BeginUnlock(0, c + 2));
    assert asked.tasks == [Gain(0, 1, Writing), Debit(0, c + 2, Asking)];
  }

  lemma SumOfThree(a: Task, b: Task, c: Task, d: DeviceId, f: Task -> int)
    requires DeviceOf(a) == DeviceOf(b) == DeviceOf(c) == d
    ensures SumOn([a, b, c], d, f) == f(a) + f(b) + f(c)
  {
    TaskJoins([], a, d, f);
    TaskJoins([a], b, d, f);
    TaskJoins([a, b], c, d, f);
    assert [] + [a] == [a] && [a] + [b] == [a, b] && [a, b] + [c] == [a, b, c];
  }

  /** The undo of a refused debit can come too late for the next unlock, whatever the configuration. */
  lemma AffordableIsRefused(cfg: Config)
    ensures var w := TakeAll(Open(cfg), TwoUnlocks(cfg.initialCoins));
      |w.tasks| == 3 && w.tasks[2] == Debit(0, 1, Undoing) && Worth(w, 0) == cfg.initialCoins + 1
  {
    var c := cfg.initialCoins;
    var first := [BeginGain(0, 1), Do(0, Ok), BeginUnlock(0, c + 2), Do(1, Ok)];
    TakeMore(Open(cfg), first, [BeginUnlock(0, 1), Do(2, Ok)]);
    EarnAndOverask(cfg);
    var w := TakeAll(Open(cfg), first);
    TakeTwo(w, BeginUnlock(0, 1), Do(2, Ok));
    var asked := Take(w, BeginUnlock(0, 1));
    assert asked.tasks == [Gain(0, 1, Writing), Debit(0, c + 2, Undoing), Debit(0, 1, Asking)] && Balance(asked, 0) == -1;
    assert Take(asked, Do(2, Ok)).tasks == [Gain(0, 1, Writing), Debit(0, c + 2, Undoing), Debit(0, 1, Undoing)];
    SumOfThree(Gain(0, 1, Writing), Debit(0, c + 2, Undoing), Debit(0, 1, Undoing), 0, In);
    SumOfThree(Gain(0, 1, Writing), Debit(0, c + 2, Undoing), Debit(0, 1, Undoing), 0, Out);
  }

  /* ---------------------------------------------------------------- */
  /* Orders, claims and attempts                                       */
  /* ---------------------------------------------------------------- */

  /** How often the coins of an order went onto its device's balance. */
  function Times(w: Wallet, o: OrderId): nat {
    multiset(w.credits)[o]
  }

  predicate IsFor(t: Task, o: OrderId) {
    t.Credit? && t.orderId == o
  }

  /** The attempt has taken the order's claim, and neither kept it with the coins moved nor given it back yet. */
  predicate Holds(t: Task, o: OrderId) {
    IsFor(t, o) && (t.credit.Claimed? || t.credit.Releasing?)
  }

  predicate InFlight(t: Task) {
    t.Credit? && (t.credit.Fetched? || t.credit.Claimed? || t.credit.Releasing? || t.credit.Marking? || t.credit.Recording?)
  }

  predicate AnsweredOk(t: Task) {
    t.Credit? && (t.credit.Replayed? || t.credit.Credited?)
  }

  /** No attempt for the order is in flight. */
  ghost predicate Quiet(w: Wallet, o: OrderId) {
    forall k :: 0 <= k < |w.tasks| && IsFor(w.tasks[k], o) ==> !InFlight(w.tasks[k])
  }

  /** What every attempt was begun from, and what it has done since. */
  predicate TaskTidy(w: Wallet, t: Task) {
    t.Credit? ==>
      && w.cfg.unpaidTtlMs > 0
      && t.orderId in w.issued && t.order == w.issued[t.orderId].(paid := t.order.paid)
      && t.order.createdAt <= t.readAt <= w.now
      && (t.order.paid ==> t.orderId in w.credits && (t.credit.Fetched? || t.credit.Replayed?))
      && (!t.order.paid ==> t.readAt < t.order.createdAt + w.cfg.unpaidTtlMs)
      && (MovedCoins(t.credit) ==> t.orderId in w.credits)
      && (t.credit == Releasing(false) ==> w.cfg.failures.addFails)
      && (t.credit == Releasing(true) ==> w.cfg.failures.addReplyLost)
  }

  ghost predicate TasksTidy(w: Wallet) {
    forall k :: 0 <= k < |w.tasks| ==> TaskTidy(w, w.tasks[k])
  }

  predicate ClaimTidy(w: Wallet, o: OrderId) {
    o in w.claims ==>
      && w.cfg.unpaidTtlMs > 0 && o in w.issued
      && w.issued[o].createdAt + w.cfg.claimTtlMs <= w.claims[o] <= w.now + w.cfg.claimTtlMs
  }

  ghost predicate MapsTidy(w: Wallet) {
    && (forall o :: ClaimTidy(w, o))
    && (forall o :: o in w.paid ==> o in w.credits)
    && (forall o :: o in w.credits ==> o in w.issued && w.cfg.unpaidTtlMs > 0)
    && (forall o :: o in w.issued ==> w.issued[o].createdAt <= w.now && !w.issued[o].paid)
  }

  ghost predicate Tidy(w: Wallet) {
    TasksTidy(w) && MapsTidy(w)
  }

  lemma TidyStays(w: Wallet, w': Wallet, t: Task)
    requires TaskTidy(w, t) && w'.cfg == w.cfg && w.now <= w'.now
    requires forall o :: o in w.issued ==> o in w'.issued && w'.issued[o] == w.issued[o]
    requires forall o :: o in w.credits ==> o in w'.credits
    ensures TaskTidy(w', t)
  {
  }

  /** A call of something else than a credit leaves orders and claims alone. */
  lemma OtherKindsLeave(w: Wallet, k: nat, outcome: Outcome)
    requires May(w, Do(k, outcome)) && !w.tasks[k].Credit?
    ensures var w' := Take(w, Do(k, outcome));
      && w'.claims == w.claims && w'.credits == w.credits && w'.paid == w.paid && w'.issued == w.issued
      && w'.now == w.now && w'.cfg == w.cfg
      && w'.tasks == w.tasks[k := w'.tasks[k]] && !w'.tasks[k].Credit?
  {
  }

  /** A call of a credit leaves its own task in order. */
  lemma CreditIsTidy(w: Wallet, k: nat, outcome: Outcome)
    requires Tidy(w) && May(w, Do(k, outcome)) && w.tasks[k].Credit?
    ensures var w' := Take(w, Do(k, outcome)); TaskTidy(w', w'.tasks[k])
  {
    assert TaskTidy(w, w.tasks[k]);
  }

  lemma CreditKeepsMaps(w: Wallet, k: nat, outcome: Outcome)
    requires Tidy(w) && May(w, Do(k, outcome)) && w.tasks[k].Credit?
    ensures MapsTidy(Take(w, Do(k, outcome)))
  {
    var w' := Take(w, Do(k, outcome));
    assert TaskTidy(w, w.tasks[k]);
    forall o ensures ClaimTidy(w', o) {
      assert ClaimTidy(w, o);
    }
  }

  lemma CallIsTidy(w: Wallet, k: nat, outcome: Outcome)
    requires Tidy(w) && May(w, Do(k, outcome))
    ensures Tidy(Take(w, Do(k, outcome)))
  {
    var w' := Take(w, Do(k, outcome));
    if w.tasks[k].Credit? {
      CreditIsTidy(w, k, outcome);
      CreditKeepsMaps(w, k, outcome);
    } else {
      OtherKindsLeave(w, k, outcome);
      forall o ensures ClaimTidy(w', o) {
        assert ClaimTidy(w, o);
      }
    }
    forall i | 0 <= i < |w'.tasks| ensures TaskTidy(w', w'.tasks[i]) {
      if i != k {
        TidyStays(w, w', w.tasks[i]);
      }
    }
  }

  lemma StepIsTidy(w: Wallet, step: Step)
    requires Tidy(w)
    ensures Tidy(Take(w, step))
  {
    var w' := Take(w, step);
    if step.Do? {
      if May(w, step) {
        CallIsTidy(w, step.k, step.outcome);
      }
    } else {
      BeginShape(w, step);
      forall i | 0 <= i < |w'.tasks| ensures TaskTidy(w', w'.tasks[i]) {
        if i < |w.tasks| {
          TidyStays(w, w', w.tasks[i]);
        }
      }
      forall o ensures ClaimTidy(w', o) {
        assert ClaimTidy(w, o);
      }
    }
  }

  lemma {:induction false} RunIsTidy(w: Wallet, steps: seq<Step>)
    requires Tidy(w)
    ensures Tidy(TakeAll(w, steps))
    decreases |steps|
  {
    if steps != [] {
      StepIsTidy(w, steps[0]);
      RunIsTidy(Take(w, steps[0]), steps[1..]);
    }
  }

  /** A call for another order changes nothing of this one. */
  lemma OtherOrdersLeave(w: Wallet, k: nat, outcome: Outcome, o: OrderId)
    requires May(w, Do(k, outcome)) && !IsFor(w.tasks[k], o)
    ensures var w' := Take(w, Do(k, outcome));
      && |w'.tasks| == |w.tasks| && !IsFor(w'.tasks[k], o)
      && (forall i :: 0 <= i < |w.tasks| && i != k ==> w'.tasks[i] == w.tasks[i])
      && (o in w'.claims <==> o in w.claims) && (o in w.claims ==> w'.claims[o] == w.claims[o])
      && Times(w', o) == Times(w, o) && w'.cfg == w.cfg && w'.now == w.now
  {
    if !w.tasks[k].Credit? {
      OtherKindsLeave(w, k, outcome);
    }
  }

  /** Once its attempt neither tries nor holds the claim, a call for this order leaves claim and coins alone. */
  lemma LaterCallsLeave(w: Wallet, k: nat, outcome: Outcome, o: OrderId)
    requires May(w, Do(k, outcome)) && IsFor(w.tasks[k], o) && !w.tasks[k].credit.Fetched? && !Holds(w.tasks[k], o)
    ensures var w' := Take(w, Do(k, outcome));
      && |w'.tasks| == |w.tasks| && IsFor(w'.tasks[k], o) && !w'.tasks[k].credit.Fetched? && !Holds(w'.tasks[k], o)
      && (forall i :: 0 <= i < |w.tasks| && i != k ==> w'.tasks[i] == w.tasks[i])
      && w'.claims == w.claims && w'.credits == w.credits && w'.cfg == w.cfg && w'.now == w.now
      && (AnsweredOk(w'.tasks[k]) ==> AnsweredOk(w.tasks[k]) || MovedCoins(w.tasks[k].credit))
  {
  }

  /** Claims outlive every attempt for their order that may still be made. */
  predicate ClaimsLast(cfg: Config) {
    cfg.unpaidTtlMs + cfg.patienceMs <= cfg.claimTtlMs
  }

  lemma ClaimsAreLive(w: Wallet, t: Task)
    requires Tidy(w) && t in w.tasks && t.Credit? && !t.order.paid && w.now <= t.readAt + w.cfg.patienceMs && ClaimsLast(w.cfg)
    ensures Live(w, t.orderId) <==> t.orderId in w.claims
  {
    assert TaskTidy(w, t) && ClaimTidy(w, t.orderId);
  }

  /* ---------------------------------------------------------------- */
  /* At most once                                                      */
  /* ---------------------------------------------------------------- */

  /** One holder at most, before the coins move; afterwards the claim stays. */
  ghost predicate Once(w: Wallet, o: OrderId) {
    && Times(w, o) <= 1
    && (o in w.credits ==> o in w.claims)
    && (forall k :: 0 <= k < |w.tasks| && Holds(w.tasks[k], o) ==> o in w.claims && o !in w.credits)
    && (forall i, k :: 0 <= i < k < |w.tasks| && Holds(w.tasks[i], o) ==> !Holds(w.tasks[k], o))
  }

  /** Claims last, a failed update moved nothing, no update is executed again, and no claim is given back twice. */
  predicate ClaimsGuard(cfg: Config) {
    ClaimsLast(cfg) && !cfg.failures.addReplyLost && !cfg.failures.addResent && !(cfg.failures.addFails && cfg.failures.resends)
  }

  lemma ClaimIsOnce(w: Wallet, k: nat, outcome: Outcome, o: OrderId)
    requires Tidy(w) && Once(w, o) && ClaimsGuard(w.cfg) && May(w, Do(k, outcome)) && IsFor(w.tasks[k], o) && w.tasks[k].credit.Fetched?
    ensures Once(Take(w, Do(k, outcome)), o)
  {
    var t, w' := w.tasks[k], Take(w, Do(k, outcome));
    assert TaskTidy(w, t);
    if !t.order.paid && outcome != Failed {
      ClaimsAreLive(w, t);
    }
    forall i | 0 <= i < |w.tasks| && i != k ensures w'.tasks[i] == w.tasks[i] {
    }
  }

  lemma HolderIsOnce(w: Wallet, k: nat, outcome: Outcome, o: OrderId)
    requires Tidy(w) && Once(w, o) && ClaimsGuard(w.cfg) && May(w, Do(k, outcome)) && Holds(w.tasks[k], o)
    ensures Once(Take(w, Do(k, outcome)), o)
  {
    var w' := Take(w, Do(k, outcome));
    assert TaskTidy(w, w.tasks[k]);
    forall i | 0 <= i < |w.tasks| && i != k ensures w'.tasks[i] == w.tasks[i] && !Holds(w.tasks[i], o) {
    }
  }

  lemma CallIsOnce(w: Wallet, k: nat, outcome: Outcome, o: OrderId)
    requires Tidy(w) && Once(w, o) && ClaimsGuard(w.cfg) && May(w, Do(k, outcome))
    ensures Once(Take(w, Do(k, outcome)), o)
  {
    if !IsFor(w.tasks[k], o) {
      OtherOrdersLeave(w, k, outcome, o);
    } else if w.tasks[k].credit.Fetched? {
      ClaimIsOnce(w, k, outcome, o);
    } else if Holds(w.tasks[k], o) {
      HolderIsOnce(w, k, outcome, o);
    } else {
      LaterCallsLeave(w, k, outcome, o);
    }
  }

  lemma StepIsOnce(w: Wallet, step: Step, o: OrderId)
    requires Tidy(w) && Once(w, o) && ClaimsGuard(w.cfg)
    ensures Once(Take(w, step), o)
  {
    if step.Do? {
      if May(w, step) {
        CallIsOnce(w, step.k, step.outcome, o);
      }
    } else {
      BeginShape(w, step);
    }
  }

  lemma {:induction false} RunIsOnce(w: Wallet, steps: seq<Step>, o: OrderId)
    requires Tidy(w) && Once(w, o) && ClaimsGuard(w.cfg)
    ensures Once(TakeAll(w, steps), o)
    decreases |steps|
  {
    if steps != [] {
      StepIsTidy(w, steps[0]);
      StepIsOnce(w, steps[0], o);
      RunIsOnce(Take(w, steps[0]), steps[1..], o);
    }
  }

  /* ---------------------------------------------------------------- */
  /* Claims that stay behind                                           */
  /* ---------------------------------------------------------------- */

  /** The order's coins have moved, or an attempt holds its claim. */
  ghost predicate Due(w: Wallet, o: OrderId) {
    o in w.credits || exists k :: 0 <= k < |w.tasks| && Holds(w.tasks[k], o)
  }

  /** A live claim with nothing behind it: no attempt will move the coins while it lasts. */
  ghost predicate Stranded(w: Wallet, o: OrderId) {
    Live(w, o) && !Due(w, o)
  }

  /** Every claim taken is answered for, and every claim to be given back is. */
  predicate ClaimsAreAnswered(cfg: Config) {
    !cfg.failures.claimReplyLost && !cfg.failures.resends && !(cfg.failures.releaseFails && cfg.failures.addFails)
  }

  lemma OwnCallIsDue(w: Wallet, k: nat, outcome: Outcome, o: OrderId)
    requires Tidy(w) && (o in w.claims ==> Due(w, o)) && ClaimsAreAnswered(w.cfg) && May(w, Do(k, outcome)) && IsFor(w.tasks[k], o)
    requires w.tasks[k].credit.Fetched? || Holds(w.tasks[k], o)
    ensures var w' := Take(w, Do(k, outcome)); o in w'.claims ==> Due(w', o)
  {
    var w' := Take(w, Do(k, outcome));
    assert TaskTidy(w, w.tasks[k]);
    if o in w'.claims && o !in w'.credits && !Holds(w'.tasks[k], o) {
      var h :| 0 <= h < |w.tasks| && Holds(w.tasks[h], o);
      assert h != k && w'.tasks[h] == w.tasks[h];
    }
  }

  lemma CallIsDue(w: Wallet, k: nat, outcome: Outcome, o: OrderId)
    requires Tidy(w) && (o in w.claims ==> Due(w, o)) && ClaimsAreAnswered(w.cfg) && May(w, Do(k, outcome))
    ensures var w' := Take(w, Do(k, outcome)); o in w'.claims ==> Due(w', o)
  {
    var w' := Take(w, Do(k, outcome));
    if IsFor(w.tasks[k], o) && (w.tasks[k].credit.Fetched? || Holds(w.tasks[k], o)) {
      OwnCallIsDue(w, k, outcome, o);
    } else {
      if IsFor(w.tasks[k], o) {
        LaterCallsLeave(w, k, outcome, o);
      } else {
        OtherOrdersLeave(w, k, outcome, o);
      }
      if o in w'.claims && o !in w.credits {
        var h :| 0 <= h < |w.tasks| && Holds(w.tasks[h], o);
        assert w'.tasks[h] == w.tasks[h];
      }
    }
  }

  lemma StepIsDue(w: Wallet, step: Step, o: OrderId)
    requires Tidy(w) && (o in w.claims ==> Due(w, o)) && ClaimsAreAnswered(w.cfg)
    ensures var w' := Take(w, step); o in w'.claims ==> Due(w', o)
  {
    if step.Do? {
      if May(w, step) {
        CallIsDue(w, step.k, step.outcome, o);
      }
    } else {
      BeginShape(w, step);
      if o in w.claims && o !in w.credits {
        var h :| 0 <= h < |w.tasks| && Holds(w.tasks[h], o);
        assert Take(w, step).tasks[h] == w.tasks[h];
      }
    }
  }

  lemma {:induction false} RunIsDue(w: Wallet, steps: seq<Step>, o: OrderId)
    requires Tidy(w) && (o in w.claims ==> Due(w, o)) && ClaimsAreAnswered(w.cfg)
    ensures var w' := TakeAll(w, steps); o in w'.claims ==> Due(w', o)
    decreases |steps|
  {
    if steps != [] {
      StepIsTidy(w, steps[0]);
      StepIsDue(w, steps[0], o);
      RunIsDue(Take(w, steps[0]), steps[1..], o);
    }
  }

  /** A claim nobody holds, for an order whose coins have not moved. */
  ghost predicate Orphaned(w: Wallet, o: OrderId) {
    o in w.claims && !Due(w, o)
  }

  lemma CallStaysOrphaned(w: Wallet, k: nat, outcome: Outcome, o: OrderId)
    requires Tidy(w) && Orphaned(w, o) && ClaimsLast(w.cfg) && May(w, Do(k, outcome))
    ensures Orphaned(Take(w, Do(k, outcome)), o)
  {
    if !IsFor(w.tasks[k], o) {
      OtherOrdersLeave(w, k, outcome, o);
    } else {
      assert TaskTidy(w, w.tasks[k]) && !Holds(w.tasks[k], o);
      if w.tasks[k].credit.Fetched? && outcome != Failed {
        ClaimsAreLive(w, w.tasks[k]);
      }
    }
  }

  lemma StepStaysOrphaned(w: Wallet, step: Step, o: OrderId)
    requires Tidy(w) && Orphaned(w, o) && ClaimsLast(w.cfg)
    ensures Orphaned(Take(w, step), o)
  {
    if step.Do? {
      if May(w, step) {
        CallStaysOrphaned(w, step.k, step.outcome, o);
      }
    } else {
      BeginShape(w, step);
    }
  }

  lemma {:induction false} RunStaysOrphaned(w: Wallet, steps: seq<Step>, o: OrderId)
    requires Tidy(w) && Orphaned(w, o) && ClaimsLast(w.cfg)
    ensures Orphaned(TakeAll(w, steps), o)
    decreases |steps|
  {
    if steps != [] {
      StepIsTidy(w, steps[0]);
      StepStaysOrphaned(w, steps[0], o);
      RunStaysOrphaned(Take(w, steps[0]), steps[1..], o);
    }
  }

  /** However the run goes on, the coins of a stranded order never move: the claim outlasts every way to read the order unpaid. */
  lemma StrandedForGood(cfg: Config, steps: seq<Step>, more: seq<Step>, o: OrderId)
    requires ClaimsLast(cfg) && Stranded(TakeAll(Open(cfg), steps), o)
    ensures o !in TakeAll(TakeAll(Open(cfg), steps), more).credits
  {
    RunIsTidy(Open(cfg), steps);
    RunKeepsConfig(Open(cfg), steps);
    RunStaysOrphaned(TakeAll(Open(cfg), steps), more, o);
  }

  /* ---------------------------------------------------------------- */
  /* At least once                                                     */
  /* ---------------------------------------------------------------- */

  /** A fresh attempt for a readable order, run to the point where the coins move. */
  function Attempt(w: Wallet, o: OrderId, amount: nat): Wallet {
    Take(Take(Take(w, BeginCredit(o, amount)), Do(|w.tasks|, Ok)), Do(|w.tasks|, Ok))
  }

  /** What the first call of a fresh attempt leaves. */
  lemma AttemptClaims(w: Wallet, o: OrderId)
    requires Readable(w, o) && o !in w.paid && !w.issued[o].paid
    ensures var claimed := Take(Take(w, BeginCredit(o, w.issued[o].amount)), Do(|w.tasks|, Ok));
      && claimed.tasks == w.tasks + [Credit(o, w.issued[o], w.now, if Live(w, o) then Replayed else Claimed)]
      && claimed.balances == w.balances && claimed.credits == w.credits && claimed.cfg == w.cfg
  {
    var begun := Take(w, BeginCredit(o, w.issued[o].amount));
    assert begun.tasks[|w.tasks|] == Credit(o, w.issued[o], w.now, Fetched);
    assert w.credits + [] == w.credits;
  }

  /** An attempt nobody interrupts moves exactly the order's coins, exactly when no live claim stands in the way. */
  lemma AttemptCredits(w: Wallet, o: OrderId)
    requires Readable(w, o) && o !in w.paid && !w.issued[o].paid
    ensures var order, w' := w.issued[o], Attempt(w, o, w.issued[o].amount);
      && Times(w', o) == Times(w, o) + (if Live(w, o) then 0 else 1)
      && Balance(w', order.device) == Balance(w, order.device) + (if Live(w, o) then 0 else order.coins)
      && (forall p :: p != o ==> Times(w', p) == Times(w, p))
  {
    AttemptClaims(w, o);
    var claimed := Take(Take(w, BeginCredit(o, w.issued[o].amount)), Do(|w.tasks|, Ok));
    assert claimed.tasks[|w.tasks|] == Credit(o, w.issued[o], w.now, if Live(w, o) then Replayed else Claimed);
  }

  /**
   * A failure before any coins moved gives the claim back: the next attempt
   * moves them exactly when the release took effect.
   */
  lemma FailureLeavesOrderCreditable(w: Wallet, k: nat, release: Outcome, o: OrderId)
    requires Tidy(w) && Once(w, o) && k < |w.tasks| && IsFor(w.tasks[k], o) && w.tasks[k].credit.Claimed?
    requires Live(w, o) && Readable(w, o) && o !in w.paid
    requires May(w, Do(k, Failed)) && May(Take(w, Do(k, Failed)), Do(k, release)) && release != Resent
    ensures var after := Take(Take(w, Do(k, Failed)), Do(k, release));
      && after.balances == w.balances && Times(after, o) == 0
      && Times(Attempt(after, o, after.issued[o].amount), o) == if release == Failed then 0 else 1
  {
    assert TaskTidy(w, w.tasks[k]);
    var failed := Take(w, Do(k, Failed));
    assert failed.tasks[k].credit == Releasing(false) && failed.credits + [] == failed.credits;
    var after := Take(failed, Do(k, release));
    AttemptCredits(after, o);
  }

  /**
   * Whatever interleaved and failed before: once no attempt for an order is in
   * flight, its coins have moved at most once, it is claimed exactly when they
   * have, and otherwise the next attempt moves them.
   */
  lemma QuietOrderIsSettled(cfg: Config, steps: seq<Step>, o: OrderId)
    requires ClaimsGuard(cfg) && ClaimsAreAnswered(cfg) && Quiet(TakeAll(Open(cfg), steps), o)
    ensures var w := TakeAll(Open(cfg), steps);
      && Times(w, o) <= 1 && (o in w.claims <==> Times(w, o) == 1)
      && (Times(w, o) == 0 && Readable(w, o) ==> Times(Attempt(w, o, w.issued[o].amount), o) == 1)
  {
    var w := TakeAll(Open(cfg), steps);
    RunIsTidy(Open(cfg), steps);
    RunKeepsConfig(Open(cfg), steps);
    RunIsOnce(Open(cfg), steps, o);
    RunIsDue(Open(cfg), steps, o);
    if Times(w, o) == 0 && Readable(w, o) {
      AttemptCredits(w, o);
    }
  }

  /** An order evicted before any attempt for it was begun. */
  ghost predicate Forgotten(w: Wallet, o: OrderId) {
    && o in w.issued && o !in w.records && o !in w.paid && Times(w, o) == 0
    && (forall k :: 0 <= k < |w.tasks| ==> !IsFor(w.tasks[k], o))
  }

  lemma CallStaysForgotten(w: Wallet, k: nat, outcome: Outcome, o: OrderId)
    requires Forgotten(w, o) && May(w, Do(k, outcome))
    ensures Forgotten(Take(w, Do(k, outcome)), o)
  {
    OtherOrdersLeave(w, k, outcome, o);
    var t, w' := w.tasks[k], Take(w, Do(k, outcome));
    assert w'.issued == w.issued && w'.records == w.records;
    assert t.Credit? ==> w'.paid <= w.paid + {t.orderId};
    assert !t.Credit? ==> w'.paid == w.paid;
  }

  lemma StepStaysForgotten(w: Wallet, step: Step, o: OrderId)
    requires Forgotten(w, o)
    ensures Forgotten(Take(w, step), o)
  {
    if step.Do? {
      if May(w, step) {
        CallStaysForgotten(w, step.k, step.outcome, o);
      }
    } else {
      BeginShape(w, step);
    }
  }

  /** Its payment is never credited, however the run goes on. */
  lemma {:induction false} ForgottenForGood(w: Wallet, steps: seq<Step>, o: OrderId)
    requires Forgotten(w, o)
    ensures Times(TakeAll(w, steps), o) == 0
    decreases |steps|
  {
    if steps != [] {
      StepStaysForgotten(w, steps[0], o);
      ForgottenForGood(Take(w, steps[0]), steps[1..], o);
    }
  }

  /* ---------------------------------------------------------------- */
  /* What an answer of ok means                                        */
  /* ---------------------------------------------------------------- */

  /** The step fails the balance update of an attempt for the order. */
  predicate FailsBalance(w: Wallet, step: Step, o: OrderId) {
    step.Do? && step.outcome == Failed && May(w, step) && IsFor(w.tasks[step.k], o) && w.tasks[step.k].credit.Claimed?
  }

  predicate NoFailure(w: Wallet, steps: seq<Step>, o: OrderId)
    decreases |steps|
  {
    steps == [] || (!FailsBalance(w, steps[0], o) && NoFailure(Take(w, steps[0]), steps[1..], o))
  }

  /** Nobody gives the order's claim back, and every attempt from the n-th on that answered ok is right about the coins. */
  ghost predicate OkIsDue(w: Wallet, o: OrderId, n: nat) {
    && (forall k :: 0 <= k < |w.tasks| && IsFor(w.tasks[k], o) ==> !w.tasks[k].credit.Releasing?)
    && (forall k :: n <= k < |w.tasks| && IsFor(w.tasks[k], o) && AnsweredOk(w.tasks[k]) ==> Due(w, o))
  }

  predicate Sound(cfg: Config) {
    ClaimsGuard(cfg) && ClaimsAreAnswered(cfg)
  }

  /** While no claim is given back, what is due stays due. */
  lemma DueStays(w: Wallet, k: nat, outcome: Outcome, o: OrderId, n: nat)
    requires OkIsDue(w, o, n) && Due(w, o) && May(w, Do(k, outcome)) && !FailsBalance(w, Do(k, outcome), o)
    ensures Due(Take(w, Do(k, outcome)), o)
  {
    var w' := Take(w, Do(k, outcome));
    if o !in w.credits {
      var h :| 0 <= h < |w.tasks| && Holds(w.tasks[h], o);
      assert h != k ==> w'.tasks[h] == w.tasks[h];
    } else {
      assert forall x :: x in w.credits ==> x in w'.credits;
    }
  }

  lemma OwnCallIsRight(w: Wallet, k: nat, outcome: Outcome, o: OrderId, n: nat)
    requires Tidy(w) && Sound(w.cfg) && OkIsDue(w, o, n) && (o in w.claims ==> Due(w, o))
    requires May(w, Do(k, outcome)) && !FailsBalance(w, Do(k, outcome), o) && IsFor(w.tasks[k], o)
    ensures var t' := Take(w, Do(k, outcome)).tasks[k];
      !t'.credit.Releasing? && (AnsweredOk(t') ==> AnsweredOk(w.tasks[k]) || Due(w, o))
  {
    assert TaskTidy(w, w.tasks[k]);
  }

  lemma CallIsRight(w: Wallet, k: nat, outcome: Outcome, o: OrderId, n: nat)
    requires Tidy(w) && Sound(w.cfg) && OkIsDue(w, o, n) && (o in w.claims ==> Due(w, o))
    requires May(w, Do(k, outcome)) && !FailsBalance(w, Do(k, outcome), o)
    ensures OkIsDue(Take(w, Do(k, outcome)), o, n)
  {
    var w' := Take(w, Do(k, outcome));
    if IsFor(w.tasks[k], o) {
      OwnCallIsRight(w, k, outcome, o, n);
    } else {
      OtherOrdersLeave(w, k, outcome, o);
    }
    if Due(w, o) {
      DueStays(w, k, outcome, o, n);
    }
    assert forall i :: 0 <= i < |w'.tasks| && i != k ==> w'.tasks[i] == w.tasks[i];
    assert w'.tasks[k].Credit? && IsFor(w'.tasks[k], o) ==> IsFor(w.tasks[k], o);
  }

  lemma StepIsRight(w: Wallet, step: Step, o: OrderId, n: nat)
    requires Tidy(w) && Sound(w.cfg) && OkIsDue(w, o, n) && (o in w.claims ==> Due(w, o)) && !FailsBalance(w, step, o)
    ensures OkIsDue(Take(w, step), o, n)
  {
    if step.Do? {
      if May(w, step) {
        CallIsRight(w, step.k, step.outcome, o, n);
      }
    } else {
      BeginShape(w, step);
      var w' := Take(w, step);
      if Due(w, o) && o !in w.credits {
        var h :| 0 <= h < |w.tasks| && Holds(w.tasks[h], o);
        assert w'.tasks[h] == w.tasks[h];
      }
      assert forall i :: 0 <= i < |w'.tasks| && i >= |w.tasks| ==> w'.tasks[i] in Begun(w, step);
    }
  }

  lemma {:induction false} RunIsRight(w: Wallet, steps: seq<Step>, o: OrderId, n: nat)
    requires Tidy(w) && Sound(w.cfg) && OkIsDue(w, o, n) && (o in w.claims ==> Due(w, o)) && NoFailure(w, steps, o)
    ensures OkIsDue(TakeAll(w, steps), o, n)
    decreases |steps|
  {
    if steps != [] {
      StepIsTidy(w, steps[0]);
      StepIsDue(w, steps[0], o);
      StepIsRight(w, steps[0], o, n);
      RunIsRight(Take(w, steps[0]), steps[1..], o, n);
    }
  }

  /**
   * Exactly once: after any run that left no attempt for the order in flight,
   * and any further one in which no balance update for it fails, if a new
   * attempt answered ok and none is in flight then the coins moved exactly once.
   */
  lemma OkMeansCredited(cfg: Config, steps: seq<Step>, more: seq<Step>, o: OrderId, k: nat)
    requires Sound(cfg)
    requires var w := TakeAll(Open(cfg), steps); Quiet(w, o) && NoFailure(w, more, o) && |w.tasks| <= k
    requires var w' := TakeAll(TakeAll(Open(cfg), steps), more);
      k < |w'.tasks| && IsFor(w'.tasks[k], o) && AnsweredOk(w'.tasks[k]) && Quiet(w', o)
    ensures Times(TakeAll(TakeAll(Open(cfg), steps), more), o) == 1
  {
    var w := TakeAll(Open(cfg), steps);
    RunIsTidy(Open(cfg), steps);
    RunKeepsConfig(Open(cfg), steps);
    RunIsDue(Open(cfg), steps, o);
    RunIsOnce(Open(cfg), steps, o);
    RunIsRight(w, more, o, |w.tasks|);
    RunIsOnce(w, more, o);
  }

  lemma {:induction false} NoFailureWithout(w: Wallet, steps: seq<Step>, o: OrderId)
    requires !w.cfg.failures.addFails
    ensures NoFailure(w, steps, o)
    decreases |steps|
  {
    if steps != [] {
      NoFailureWithout(Take(w, steps[0]), steps[1..], o);
    }
  }

  /* ---------------------------------------------------------------- */
  /* Exactly when                                                      */
  /* ---------------------------------------------------------------- */

  /** If unpaid records expire at once, no attempt is ever begun. */
  lemma NothingHappensUnread(cfg: Config, steps: seq<Step>, o: OrderId)
    requires cfg.unpaidTtlMs == 0
    ensures var w := TakeAll(Open(cfg), steps);
      Times(w, o) == 0 && o !in w.claims && forall k :: 0 <= k < |w.tasks| ==> !IsFor(w.tasks[k], o)
  {
    var w := TakeAll(Open(cfg), steps);
    RunIsTidy(Open(cfg), steps);
    RunKeepsConfig(Open(cfg), steps);
    assert ClaimTidy(w, o);
    forall k | 0 <= k < |w.tasks| ensures !IsFor(w.tasks[k], o) {
      assert TaskTidy(w, w.tasks[k]);
    }
  }

  const Sample: Order := Order(0, 5, 100, false, 0)

  function Seen(readAt: nat, stage: CreditStage): Task {
    Credit(0, Sample, readAt, stage)
  }

  /** Five coins ordered for 100 paise, and an attempt to credit them. */
  function Ordered(): seq<Step> {
    [CreateOrder(0, 0, 5, 100), BeginCredit(0, 100)]
  }

  /** What matters of that order's wallet: the time, the attempts, how often the coins moved, and the claim. */
  datatype Scene = Scene(now: nat, tasks: seq<Task>, times: nat, claim: Option<nat>)

  /** The wallet after the steps, while no attempt has marked the order paid. */
  predicate Shows(cfg: Config, steps: seq<Step>, s: Scene) {
    var w := TakeAll(Open(cfg), steps);
    && w.cfg == cfg && w.now == s.now && w.tasks == s.tasks && Times(w, 0) == s.times
    && w.issued == map[0 := Sample] && w.records == {0} && w.paid == {}
    && (0 in w.claims <==> s.claim.Some?) && (s.claim.Some? ==> w.claims[0] == s.claim.value)
  }

  lemma {:induction false} TakeSnoc(w: Wallet, steps: seq<Step>, step: Step)
    ensures TakeAll(w, steps + [step]) == Take(TakeAll(w, steps), step)
  {
    TakeMore(w, steps, [step]);
    assert [step][1..] == [];
    assert TakeAll(TakeAll(w, steps), [step]) == TakeAll(Take(TakeAll(w, steps), step), []);
  }

  lemma OrderIsSeen(cfg: Config) returns (s: Scene)
    requires cfg.unpaidTtlMs > 0
    ensures s == Scene(0, [Seen(0, Fetched)], 0, None) && Shows(cfg, Ordered(), s)
  {
    TakeTwo(Open(cfg), CreateOrder(0, 0, 5, 100), BeginCredit(0, 100));
    var created := Take(Open(cfg), CreateOrder(0, 0, 5, 100));
    assert created.issued == map[0 := Sample] && created.records == {0} && created.tasks == [];
    s := Scene(0, [Seen(0, Fetched)], 0, None);
  }

  lemma Begins(cfg: Config, before: seq<Step>, s: Scene) returns (steps: seq<Step>, s': Scene)
    requires Shows(cfg, before, s) && s.now < cfg.unpaidTtlMs
    ensures s' == s.(tasks := s.tasks + [Seen(s.now, Fetched)]) && Shows(cfg, steps, s')
  {
    steps, s' := before + [BeginCredit(0, 100)], s.(tasks := s.tasks + [Seen(s.now, Fetched)]);
    TakeSnoc(Open(cfg), before, BeginCredit(0, 100));
  }

  lemma Waits(cfg: Config, before: seq<Step>, s: Scene, ms: nat) returns (steps: seq<Step>, s': Scene)
    requires Shows(cfg, before, s)
    ensures s' == s.(now := s.now + ms) && Shows(cfg, steps, s')
  {
    steps, s' := before + [Tick(ms)], s.(now := s.now + ms);
    TakeSnoc(Open(cfg), before, Tick(ms));
  }

  /** Attempt k calls the store to claim the order. */
  lemma Claims(cfg: Config, before: seq<Step>, s: Scene, k: nat, outcome: Outcome) returns (steps: seq<Step>, s': Scene)
    requires Shows(cfg, before, s) && k < |s.tasks| && s.tasks[k].Credit? && s.tasks[k] == Seen(s.tasks[k].readAt, Fetched)
    requires Allowed(TakeAll(Open(cfg), before), s.tasks[k], outcome) && outcome != Failed
    ensures Shows(cfg, steps, s')
    ensures var live := s.claim.Some? && s.claim.value > s.now;
      var stage := if outcome == Resent then Fetched else if outcome == FailedAfter then Thrown(false) else if live then Replayed else Claimed;
      s' == Scene(s.now, s.tasks[k := Seen(s.tasks[k].readAt, stage)], s.times, if live then s.claim else Some(s.now + cfg.claimTtlMs))
  {
    steps := before + [Do(k, outcome)];
    TakeSnoc(Open(cfg), before, Do(k, outcome));
    var w, w' := TakeAll(Open(cfg), before), TakeAll(Open(cfg), steps);
    s' := Scene(s.now, w'.tasks, s.times, if Live(w, 0) then s.claim else Some(s.now + cfg.claimTtlMs));
  }

  /** Attempt k moves the coins, or fails to. */
  lemma Moves(cfg: Config, before: seq<Step>, s: Scene, k: nat, outcome: Outcome) returns (steps: seq<Step>, s': Scene)
    requires Shows(cfg, before, s) && k < |s.tasks| && s.tasks[k].Credit? && s.tasks[k] == Seen(s.tasks[k].readAt, Claimed)
    requires Allowed(TakeAll(Open(cfg), before), s.tasks[k], outcome)
    ensures Shows(cfg, steps, s')
    ensures s'.now == s.now && s'.claim == s.claim && s'.times == s.times + (if outcome == Failed then 0 else 1)
    ensures var stage := if outcome == Ok then Marking else if outcome == Resent then Claimed else Releasing(outcome != Failed);
      s'.tasks == s.tasks[k := Seen(s.tasks[k].readAt, stage)]
  {
    steps := before + [Do(k, outcome)];
    TakeSnoc(Open(cfg), before, Do(k, outcome));
    var w' := TakeAll(Open(cfg), steps);
    s' := Scene(s.now, w'.tasks, Times(w', 0), s.claim);
  }

  /** Attempt k gives the claim back, or fails to, or gives it back and will again. */
  lemma Releases(cfg: Config, before: seq<Step>, s: Scene, k: nat, outcome: Outcome) returns (steps: seq<Step>, s': Scene)
    requires Shows(cfg, before, s) && k < |s.tasks| && s.tasks[k].Credit? && s.tasks[k].credit.Releasing?
    requires s.tasks[k] == Seen(s.tasks[k].readAt, s.tasks[k].credit) && Allowed(TakeAll(Open(cfg), before), s.tasks[k], outcome)
    ensures Shows(cfg, steps, s')
    ensures var stage := if outcome == Resent then s.tasks[k].credit else Thrown(s.tasks[k].credit.moved);
      s' == Scene(s.now, s.tasks[k := Seen(s.tasks[k].readAt, stage)], s.times, if outcome == Failed then s.claim else None)
  {
    steps := before + [Do(k, outcome)];
    TakeSnoc(Open(cfg), before, Do(k, outcome));
    var w' := TakeAll(Open(cfg), steps);
    s' := Scene(s.now, w'.tasks, s.times, if outcome == Failed then s.claim else None);
  }

  /** Attempt k answers ok although it could not mark the order paid. */
  lemma Answers(cfg: Config, before: seq<Step>, s: Scene, k: nat) returns (steps: seq<Step>, s': Scene)
    requires Shows(cfg, before, s) && k < |s.tasks| && s.tasks[k].Credit? && s.tasks[k] == Seen(s.tasks[k].readAt, Marking)
    ensures s' == s.(tasks := s.tasks[k := Seen(s.tasks[k].readAt, Credited(false))]) && Shows(cfg, steps, s')
  {
    steps := before + [Do(k, Failed)];
    TakeSnoc(Open(cfg), before, Do(k, Failed));
    var w' := TakeAll(Open(cfg), steps);
    s' := s.(tasks := w'.tasks);
  }

  /** An attempt that read the order just before it expired and took its time finds the claim of the first one gone. */
  lemma ExpiredClaimCreditsTwice(cfg: Config) returns (steps: seq<Step>, s: Scene)
    requires cfg.unpaidTtlMs > 0 && !ClaimsLast(cfg)
    ensures Shows(cfg, steps, s) && s.times == 2
    ensures s.tasks == [Seen(0, Credited(false)), Seen(cfg.unpaidTtlMs - 1, Credited(false))]
  {
    var last := cfg.unpaidTtlMs - 1;
    steps := Ordered();
    s := OrderIsSeen(cfg);
    steps, s := Claims(cfg, steps, s, 0, Ok);
    assert s.tasks == [Seen(0, Claimed)];
    steps, s := Moves(cfg, steps, s, 0, Ok);
    steps, s := Waits(cfg, steps, s, last);
    steps, s := Begins(cfg, steps, s);
    assert s.tasks == [Seen(0, Marking), Seen(last, Fetched)];
    steps, s := Waits(cfg, steps, s, cfg.patienceMs);
    steps, s := Claims(cfg, steps, s, 1, Ok);
    assert s.tasks == [Seen(0, Marking), Seen(last, Claimed)];
    steps, s := Moves(cfg, steps, s, 1, Ok);
    steps, s := Answers(cfg, steps, s, 0);
    steps, s := Answers(cfg, steps, s, 1);
  }

  /** A balance update that failed after moving the coins lets the next attempt move them again. */
  lemma LostReplyCreditsTwice(cfg: Config) returns (steps: seq<Step>, s: Scene)
    requires cfg.unpaidTtlMs > 0 && cfg.failures.addReplyLost
    ensures Shows(cfg, steps, s) && s.times == 2 && s.tasks == [Seen(0, Thrown(true)), Seen(0, Credited(false))]
  {
    steps := Ordered();
    s := OrderIsSeen(cfg);
    steps, s := Claims(cfg, steps, s, 0, Ok);
    assert s.tasks == [Seen(0, Claimed)];
    steps, s := Moves(cfg, steps, s, 0, FailedAfter);
    assert s.tasks == [Seen(0, Releasing(true))];
    steps, s := Releases(cfg, steps, s, 0, Ok);
    steps, s := Begins(cfg, steps, s);
    assert s.tasks == [Seen(0, Thrown(true)), Seen(0, Fetched)];
    steps, s := Claims(cfg, steps, s, 1, Ok);
    assert s.tasks == [Seen(0, Thrown(true)), Seen(0, Claimed)];
    steps, s := Moves(cfg, steps, s, 1, Ok);
    steps, s := Answers(cfg, steps, s, 1);
  }

  /** The claim was given back, and will be again. */
  lemma ReleaseIsResent(cfg: Config) returns (steps: seq<Step>, s: Scene)
    requires cfg.unpaidTtlMs > 0 && cfg.failures.addFails && cfg.failures.resends
    ensures Shows(cfg, steps, s) && s == Scene(0, [Seen(0, Releasing(false))], 0, None)
  {
    steps := Ordered();
    s := OrderIsSeen(cfg);
    steps, s := Claims(cfg, steps, s, 0, Ok);
    assert s.tasks == [Seen(0, Claimed)];
    steps, s := Moves(cfg, steps, s, 0, Failed);
    assert s.tasks == [Seen(0, Releasing(false))];
    steps, s := Releases(cfg, steps, s, 0, Resent);
  }

  /** A release executed again takes the next attempt's claim, so a third attempt can claim as well. */
  lemma ResentReleaseAdmitsTwo(cfg: Config) returns (steps: seq<Step>, s: Scene)
    requires cfg.unpaidTtlMs > 0 && cfg.failures.addFails && cfg.failures.resends
    ensures Shows(cfg, steps, s) && s.times == 0
    ensures s.tasks == [Seen(0, Thrown(false)), Seen(0, Claimed), Seen(0, Claimed)]
  {
    steps, s := ReleaseIsResent(cfg);
    steps, s := Begins(cfg, steps, s);
    assert s.tasks == [Seen(0, Releasing(false)), Seen(0, Fetched)];
    steps, s := Claims(cfg, steps, s, 1, Ok);
    assert s.tasks == [Seen(0, Releasing(false)), Seen(0, Claimed)];
    steps, s := Releases(cfg, steps, s, 0, Ok);
    steps, s := Begins(cfg, steps, s);
    assert s.tasks == [Seen(0, Thrown(false)), Seen(0, Claimed), Seen(0, Fetched)];
    steps, s := Claims(cfg, steps, s, 2, Ok);
  }

  lemma ResentReleaseCreditsTwice(cfg: Config) returns (steps: seq<Step>, s: Scene)
    requires cfg.unpaidTtlMs > 0 && cfg.failures.addFails && cfg.failures.resends
    ensures Shows(cfg, steps, s) && s.times == 2
  {
    steps, s := ResentReleaseAdmitsTwo(cfg);
    steps, s := Moves(cfg, steps, s, 2, Ok);
    assert s.tasks == [Seen(0, Thrown(false)), Seen(0, Claimed), Seen(0, Marking)];
    steps, s := Moves(cfg, steps, s, 1, Ok);
  }

  /** A balance update that is executed again moves the coins twice in one attempt, which answers ok. */
  lemma ResentUpdateCreditsTwice(cfg: Config) returns (steps: seq<Step>, s: Scene)
    requires cfg.unpaidTtlMs > 0 && cfg.failures.addResent
    ensures Shows(cfg, steps, s) && s.times == 2 && s.tasks == [Seen(0, Credited(false))]
  {
    steps := Ordered();
    s := OrderIsSeen(cfg);
    steps, s := Claims(cfg, steps, s, 0, Ok);
    assert s.tasks == [Seen(0, Claimed)];
    steps, s := Moves(cfg, steps, s, 0, Resent);
    assert s.tasks == [Seen(0, Claimed)];
    steps, s := Moves(cfg, steps, s, 0, Ok);
    assert s.tasks == [Seen(0, Marking)];
    steps, s := Answers(cfg, steps, s, 0);
  }

  /** A claim whose reply was lost, or that was sent again, or that could not be given back, stays behind. */
  lemma ClaimStaysBehind(cfg: Config) returns (steps: seq<Step>, s: Scene)
    requires cfg.unpaidTtlMs > 0 && cfg.claimTtlMs > 0 && !ClaimsAreAnswered(cfg)
    ensures Shows(cfg, steps, s) && s.now == 0 && s.times == 0 && s.claim == Some(cfg.claimTtlMs)
    ensures s.tasks == [Seen(0, Thrown(false))] || s.tasks == [Seen(0, Replayed)]
  {
    steps := Ordered();
    s := OrderIsSeen(cfg);
    if cfg.failures.claimReplyLost {
      steps, s := Claims(cfg, steps, s, 0, FailedAfter);
    } else if cfg.failures.resends {
      steps, s := Claims(cfg, steps, s, 0, Resent);
      assert s.tasks == [Seen(0, Fetched)] && s.claim == Some(cfg.claimTtlMs);
      steps, s := Claims(cfg, steps, s, 0, Ok);
    } else {
      steps, s := Claims(cfg, steps, s, 0, Ok);
      assert s.tasks == [Seen(0, Claimed)];
      steps, s := Moves(cfg, steps, s, 0, Failed);
      assert s.tasks == [Seen(0, Releasing(false))];
      steps, s := Releases(cfg, steps, s, 0, Failed);
    }
  }

  /** A replay answers ok while the first attempt has yet to move the coins, which then fails. */
  lemma ReplayIsTooSoon(cfg: Config) returns (steps: seq<Step>, s: Scene)
    requires cfg.unpaidTtlMs > 0 && cfg.claimTtlMs > 0 && cfg.failures.addFails
    ensures Shows(cfg, steps, s) && s.times == 0 && s.tasks == [Seen(0, Thrown(false)), Seen(0, Replayed)]
  {
    steps := Ordered();
    s := OrderIsSeen(cfg);
    steps, s := Claims(cfg, steps, s, 0, Ok);
    steps, s := Begins(cfg, steps, s);
    assert s.tasks == [Seen(0, Claimed), Seen(0, Fetched)];
    steps, s := Claims(cfg, steps, s, 1, Ok);
    assert s.tasks == [Seen(0, Claimed), Seen(0, Replayed)];
    steps, s := Moves(cfg, steps, s, 0, Failed);
    assert s.tasks == [Seen(0, Releasing(false)), Seen(0, Replayed)];
    steps, s := Releases(cfg, steps, s, 0, Ok);
  }

  /** After a claim stayed behind, a further attempt answers ok as a replay. */
  lemma StrandedAnswersOk(cfg: Config) returns (steps: seq<Step>, s: Scene)
    requires cfg.unpaidTtlMs > 0 && cfg.claimTtlMs > 0 && !ClaimsAreAnswered(cfg)
    ensures Shows(cfg, steps, s) && s.times == 0 && |s.tasks| == 2 && s.tasks[1] == Seen(0, Replayed) && !InFlight(s.tasks[0])
  {
    steps, s := ClaimStaysBehind(cfg);
    steps, s := Begins(cfg, steps, s);
    steps, s := Claims(cfg, steps, s, 1, Ok);
  }

  /**
   * No run credits an order twice exactly when claims outlast every attempt,
   * a failed balance update has moved nothing, none is executed again, and no
   * claim is given back twice.
   */
  lemma CreditedOnceIffClaimsGuard(cfg: Config)
    ensures (forall steps: seq<Step>, o: OrderId :: Times(TakeAll(Open(cfg), steps), o) <= 1)
            <==> cfg.unpaidTtlMs == 0 || ClaimsGuard(cfg)
  {
    if cfg.unpaidTtlMs == 0 {
      forall steps: seq<Step>, o: OrderId ensures Times(TakeAll(Open(cfg), steps), o) <= 1 {
        NothingHappensUnread(cfg, steps, o);
      }
    } else if ClaimsGuard(cfg) {
      forall steps: seq<Step>, o: OrderId ensures Times(TakeAll(Open(cfg), steps), o) <= 1 {
        RunIsOnce(Open(cfg), steps, o);
      }
    } else {
      var steps, s;
      if !ClaimsLast(cfg) {
        steps, s := ExpiredClaimCreditsTwice(cfg);
      } else if cfg.failures.addReplyLost {
        steps, s := LostReplyCreditsTwice(cfg);
      } else if cfg.failures.addResent {
        steps, s := ResentUpdateCreditsTwice(cfg);
      } else {
        steps, s := ResentReleaseCreditsTwice(cfg);
      }
      assert Times(TakeAll(Open(cfg), steps), 0) == 2;
    }
  }

  lemma TidyClaimEnds(w: Wallet, o: OrderId)
    requires Tidy(w) && (w.cfg.unpaidTtlMs == 0 || w.cfg.claimTtlMs == 0)
    ensures !Live(w, o)
  {
    assert ClaimTidy(w, o);
  }

  lemma AnsweredIsNotStranded(cfg: Config, steps: seq<Step>, o: OrderId)
    requires cfg.unpaidTtlMs == 0 || cfg.claimTtlMs == 0 || ClaimsAreAnswered(cfg)
    ensures !Stranded(TakeAll(Open(cfg), steps), o)
  {
    RunIsTidy(Open(cfg), steps);
    RunKeepsConfig(Open(cfg), steps);
    if ClaimsAreAnswered(cfg) {
      RunIsDue(Open(cfg), steps, o);
    } else {
      TidyClaimEnds(TakeAll(Open(cfg), steps), o);
    }
  }

  /**
   * No run leaves a claim behind with nothing to come of it exactly when no
   * claim is taken by a call that fails or is sent again, and every claim
   * whose coins did not move can be given back.
   */
  lemma NothingStrandedIffAnswered(cfg: Config)
    ensures (forall steps: seq<Step>, o: OrderId :: !Stranded(TakeAll(Open(cfg), steps), o))
            <==> cfg.unpaidTtlMs == 0 || cfg.claimTtlMs == 0 || ClaimsAreAnswered(cfg)
  {
    if cfg.unpaidTtlMs == 0 || cfg.claimTtlMs == 0 || ClaimsAreAnswered(cfg) {
      forall steps: seq<Step>, o: OrderId ensures !Stranded(TakeAll(Open(cfg), steps), o) {
        AnsweredIsNotStranded(cfg, steps, o);
      }
    } else {
      var steps, s := ClaimStaysBehind(cfg);
      assert Stranded(TakeAll(Open(cfg), steps), 0);
    }
  }

  /** If some attempt answered ok and none is in flight, the coins moved exactly once. */
  ghost predicate OkIsExact(w: Wallet, o: OrderId) {
    Quiet(w, o) && (exists k :: 0 <= k < |w.tasks| && IsFor(w.tasks[k], o) && AnsweredOk(w.tasks[k])) ==> Times(w, o) == 1
  }

  lemma OkIsExactIfNothingFails(cfg: Config, steps: seq<Step>, o: OrderId)
    requires Sound(cfg) && !cfg.failures.addFails
    ensures OkIsExact(TakeAll(Open(cfg), steps), o)
  {
    var w := TakeAll(Open(cfg), steps);
    if k :| 0 <= k < |w.tasks| && IsFor(w.tasks[k], o) && AnsweredOk(w.tasks[k]) && Quiet(w, o) {
      NoFailureWithout(Open(cfg), steps, o);
      OkMeansCredited(cfg, [], steps, o, k);
    }
  }

  lemma OkIsNotExact(cfg: Config)
    requires cfg.unpaidTtlMs > 0 && (!Sound(cfg) || cfg.failures.addFails)
    ensures exists steps: seq<Step> :: !OkIsExact(TakeAll(Open(cfg), steps), 0)
  {
    var steps, s;
    var k := 1;
    if !ClaimsLast(cfg) {
      steps, s := ExpiredClaimCreditsTwice(cfg);
    } else if cfg.failures.addReplyLost {
      steps, s := LostReplyCreditsTwice(cfg);
    } else if cfg.failures.addResent {
      steps, s := ResentUpdateCreditsTwice(cfg);
      k := 0;
    } else if cfg.failures.addFails {
      steps, s := ReplayIsTooSoon(cfg);
    } else {
      steps, s := StrandedAnswersOk(cfg);
    }
    var w := TakeAll(Open(cfg), steps);
    assert IsFor(w.tasks[k], 0) && AnsweredOk(w.tasks[k]);
    assert !OkIsExact(w, 0);
  }

  /**
   * That an ok answer means the coins moved, exactly once, is true in every
   * run exactly when claims guard and are answered and no balance update
   * fails: a replay answers ok while the attempt it repeats may still fail.
   */
  lemma OkIsExactIffNothingFails(cfg: Config)
    ensures (forall steps: seq<Step>, o: OrderId :: OkIsExact(TakeAll(Open(cfg), steps), o))
            <==> cfg.unpaidTtlMs == 0 || (Sound(cfg) && !cfg.failures.addFails)
  {
    if cfg.unpaidTtlMs == 0 {
      forall steps: seq<Step>, o: OrderId ensures OkIsExact(TakeAll(Open(cfg), steps), o) {
        NothingHappensUnread(cfg, steps, o);
      }
    } else if Sound(cfg) && !cfg.failures.addFails {
      forall steps: seq<Step>, o: OrderId ensures OkIsExact(TakeAll(Open(cfg), steps), o) {
        OkIsExactIfNothingFails(cfg, steps, o);
      }
    } else {
      OkIsNotExact(cfg);
    }
  }
}
