/**
 * What a credit goes back to: in every run each time an order's coins moved, a
 * payment of that order's own amount had come for it, and the coins are those
 * it was created with, for the device it was created for.
 */
module Payments {
  import opened WalletTypes
  import opened Billing

  /** Step `i` creates order `o`: the first that names it does. */
  predicate CreatedAt(steps: seq<Step>, i: nat, o: OrderId) {
    && i < |steps| && steps[i].CreateOrder? && steps[i].orderId == o
    && forall k :: 0 <= k < i ==> !(steps[k].CreateOrder? && steps[k].orderId == o)
  }

  /** After order `o` was created, at step `i`, a payment of the amount it was created with came, at step `j`. */
  predicate PaidAt(steps: seq<Step>, i: nat, j: nat, o: OrderId) {
    CreatedAt(steps, i, o) && i < j < |steps| && steps[j] == BeginCredit(o, steps[i].amount)
  }

  ghost predicate PaymentCame(steps: seq<Step>, o: OrderId) {
    exists i: nat, j: nat :: PaidAt(steps, i, j, o)
  }

  /** The order as it was created, whether or not it was paid since. */
  ghost predicate AsCreated(steps: seq<Step>, o: OrderId, order: Order) {
    exists i: nat :: CreatedAt(steps, i, o)
      && order.device == steps[i].device && order.coins == steps[i].coins && order.amount == steps[i].amount
  }

  /** What the wallet holds after the steps goes back to them. */
  ghost predicate Founded(w: Wallet, steps: seq<Step>) {
    && (forall o :: o in w.issued ==> AsCreated(steps, o, w.issued[o]))
    && (forall i: nat :: i < |steps| && steps[i].CreateOrder? ==> steps[i].orderId in w.issued)
    && (forall t :: t in w.tasks && t.Credit? ==> PaymentCame(steps, t.orderId) && AsCreated(steps, t.orderId, t.order))
    && (forall o :: o in w.credits ==> PaymentCame(steps, o))
  }

  lemma StillCreated(steps: seq<Step>, step: Step, o: OrderId, order: Order)
    requires AsCreated(steps, o, order)
    ensures AsCreated(steps + [step], o, order)
  {
    var i: nat :| CreatedAt(steps, i, o)
      && order.device == steps[i].device && order.coins == steps[i].coins && order.amount == steps[i].amount;
    assert CreatedAt(steps + [step], i, o);
  }

  lemma StillPaid(steps: seq<Step>, step: Step, o: OrderId)
    requires PaymentCame(steps, o)
    ensures PaymentCame(steps + [step], o)
  {
    var i: nat, j: nat :| PaidAt(steps, i, j, o);
    assert PaidAt(steps + [step], i, j, o);
  }

  /** Everything founded on the steps so far is founded on one more. */
  lemma StillFounded(w: Wallet, steps: seq<Step>, step: Step)
    requires Founded(w, steps) && !step.CreateOrder?
    ensures Founded(w, steps + [step])
  {
    forall o | o in w.issued ensures AsCreated(steps + [step], o, w.issued[o]) {
      StillCreated(steps, step, o, w.issued[o]);
    }
    forall t | t in w.tasks && t.Credit? ensures PaymentCame(steps + [step], t.orderId) && AsCreated(steps + [step], t.orderId, t.order) {
      StillPaid(steps, step, t.orderId);
      StillCreated(steps, step, t.orderId, t.order);
    }
    forall o | o in w.credits ensures PaymentCame(steps + [step], o) {
      StillPaid(steps, step, o);
    }
  }

  lemma CreateIsFounded(w: Wallet, steps: seq<Step>, o: OrderId, device: DeviceId, coins: nat, amount: nat)
    requires Founded(w, steps)
    ensures var step := CreateOrder(o, device, coins, amount); Founded(Take(w, step), steps + [step])
  {
    var step := CreateOrder(o, device, coins, amount);
    var w' := Take(w, step);
    forall k | k in w'.issued ensures AsCreated(steps + [step], k, w'.issued[k]) {
      if k in w.issued {
        StillCreated(steps, step, k, w.issued[k]);
      } else {
        assert CreatedAt(steps + [step], |steps|, k);
      }
    }
    forall t | t in w'.tasks && t.Credit? ensures PaymentCame(steps + [step], t.orderId) && AsCreated(steps + [step], t.orderId, t.order) {
      StillPaid(steps, step, t.orderId);
      StillCreated(steps, step, t.orderId, t.order);
    }
    forall k | k in w'.credits ensures PaymentCame(steps + [step], k) {
      StillPaid(steps, step, k);
    }
  }

  lemma BeginIsFounded(w: Wallet, steps: seq<Step>, o: OrderId, amount: nat)
    requires Founded(w, steps)
    ensures Founded(Take(w, BeginCredit(o, amount)), steps + [BeginCredit(o, amount)])
  {
    var step := BeginCredit(o, amount);
    StillFounded(w, steps, step);
    if May(w, step) {
      var i: nat :| CreatedAt(steps, i, o) && w.issued[o].device == steps[i].device
        && w.issued[o].coins == steps[i].coins && w.issued[o].amount == steps[i].amount;
      assert CreatedAt(steps + [step], i, o);
      assert PaidAt(steps + [step], i, |steps|, o);
    }
  }

  lemma CallIsFounded(w: Wallet, steps: seq<Step>, k: nat, outcome: Outcome)
    requires Founded(w, steps)
    ensures Founded(Take(w, Do(k, outcome)), steps + [Do(k, outcome)])
  {
    var step := Do(k, outcome);
    StillFounded(w, steps, step);
    if May(w, step) {
      var w' := Take(w, step);
      assert w'.issued == w.issued && w.tasks[k] in w.tasks;
      forall t | t in w'.tasks && t.Credit? ensures PaymentCame(steps + [step], t.orderId) && AsCreated(steps + [step], t.orderId, t.order) {
        assert t in w.tasks || t == CallOf(w, w.tasks[k], outcome).task;
      }
    }
  }

  lemma StepIsFounded(w: Wallet, steps: seq<Step>, step: Step)
    requires Founded(w, steps)
    ensures Founded(Take(w, step), steps + [step])
  {
    match step
    case CreateOrder(o, device, coins, amount) => CreateIsFounded(w, steps, o, device, coins, amount);
    case BeginCredit(o, amount) => BeginIsFounded(w, steps, o, amount);
    case Do(k, outcome) => CallIsFounded(w, steps, k, outcome);
    case _ => StillFounded(w, steps, step);
  }

  lemma {:induction false} RunIsFounded(w: Wallet, past: seq<Step>, steps: seq<Step>)
    requires Founded(w, past)
    ensures Founded(TakeAll(w, steps), past + steps)
    decreases |steps|
  {
    if steps == [] {
      assert past + steps == past;
    } else {
      StepIsFounded(w, past, steps[0]);
      RunIsFounded(Take(w, steps[0]), past + [steps[0]], steps[1..]);
      assert past + [steps[0]] + steps[1..] == past + steps;
    }
  }

  /**
   * In every interleaving: an order's coins moved only if, after it was created,
   * a payment of the amount it was created with came for it. A payment of any
   * other amount credits nothing.
   */
  lemma NoCreditWithoutItsPayment(cfg: Config, steps: seq<Step>, o: OrderId)
    requires o in TakeAll(Open(cfg), steps).credits
    ensures PaymentCame(steps, o)
  {
    RunIsFounded(Open(cfg), [], steps);
    assert [] + steps == steps;
  }

  /** So an order for which only other amounts came is never credited. */
  lemma MismatchedPaymentsCreditNothing(cfg: Config, steps: seq<Step>, o: OrderId)
    requires forall i: nat, j: nat :: CreatedAt(steps, i, o) && i < j < |steps| && steps[j].BeginCredit? && steps[j].orderId == o ==>
      steps[j].amount != steps[i].amount
    ensures o !in TakeAll(Open(cfg), steps).credits
  {
    forall i: nat, j: nat ensures !PaidAt(steps, i, j, o) {
    }
    if o in TakeAll(Open(cfg), steps).credits {
      NoCreditWithoutItsPayment(cfg, steps, o);
    }
  }

  /** And each attempt that credits works with the device and the coins the order was created with. */
  lemma AttemptsAreAsOrdered(cfg: Config, steps: seq<Step>, k: nat)
    requires var w := TakeAll(Open(cfg), steps); k < |w.tasks| && w.tasks[k].Credit?
    ensures var t := TakeAll(Open(cfg), steps).tasks[k]; AsCreated(steps, t.orderId, t.order) && PaymentCame(steps, t.orderId)
  {
    RunIsFounded(Open(cfg), [], steps);
    assert [] + steps == steps;
    assert TakeAll(Open(cfg), steps).tasks[k] in TakeAll(Open(cfg), steps).tasks;
  }

  /* ---------------------------------------------------------------- */
  /* What is recorded                                                  */
  /* ---------------------------------------------------------------- */

  /** A credit whose coins have moved and whose last two calls go well is marked paid and on the ledger, once. */
  lemma CreditIsRecorded(w: Wallet, k: nat)
    requires k < |w.tasks| && w.tasks[k].Credit? && w.tasks[k].credit == Marking
    ensures var t, w' := w.tasks[k], Take(Take(w, Do(k, Ok)), Do(k, Ok));
      && w'.tasks == w.tasks[k := t.(credit := Credited(true))] && w'.paid == w.paid + {t.orderId}
      && w'.ledger == w.ledger + [Entry(t.order.device, t.order.coins)]
      && w'.balances == w.balances && w'.credits == w.credits && w'.claims == w.claims
  {
    var marked := Take(w, Do(k, Ok));
    assert marked.tasks == w.tasks[k := w.tasks[k].(credit := Recording)];
  }

  /** An unlock that the balance covered, and whose last two calls go well, is granted and on the ledger, once. */
  lemma UnlockIsRecorded(w: Wallet, k: nat)
    requires k < |w.tasks| && w.tasks[k].Debit? && w.tasks[k].debit == Extending
    ensures var t, w' := w.tasks[k], Take(Take(w, Do(k, Ok)), Do(k, Ok));
      && w'.tasks == w.tasks[k := t.(debit := Settled(true))]
      && w'.ledger == w.ledger + [Entry(t.payer, -(t.cost as int))] && w'.balances == w.balances
  {
    var extended := Take(w, Do(k, Ok));
    assert extended.tasks == w.tasks[k := w.tasks[k].(debit := Noting)];
  }

  /** A gain, or an adjustment, that goes well moves its coins and is on the ledger, once. */
  lemma GainIsRecorded(w: Wallet, k: nat)
    requires k < |w.tasks| && w.tasks[k].Gain? && w.tasks[k].gain == Adding
    ensures var t, w' := w.tasks[k], Take(Take(w, Do(k, Ok)), Do(k, Ok));
      && w'.tasks == w.tasks[k := t.(gain := Written(true))]
      && w'.ledger == w.ledger + [Entry(t.earner, t.delta)] && Balance(w', t.earner) == Balance(w, t.earner) + t.delta
      && forall d :: d != t.earner ==> Balance(w', d) == Balance(w, d)
  {
    var added := Take(w, Do(k, Ok));
    assert added.tasks == w.tasks[k := w.tasks[k].(gain := Writing)];
  }

  /** A refused unlock gets back what it took. */
  lemma RefusedUnlockIsPutBack(w: Wallet, k: nat)
    requires k < |w.tasks| && w.tasks[k].Debit? && w.tasks[k].debit == Undoing
    ensures var t, w' := w.tasks[k], Take(w, Do(k, Ok));
      w'.tasks == w.tasks[k := t.(debit := Settled(false))] && Balance(w', t.payer) == Balance(w, t.payer) + t.cost && w'.ledger == w.ledger
  {
  }
}
