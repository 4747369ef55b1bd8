/**
 * The billing service on the in-process store. Every store call it makes is a
 * step of the interleavings of module Billing; making room for an order is the
 * only other thing the store does.
 */
module BillingServer {
  import opened WalletTypes
  import opened Billing
  import opened WalletStore

  /** In-process calls do not fail. */
  function InProcess(initialCoins: nat, patienceMs: nat): Config {
    Config(initialCoins, CLAIM_TTL_MS, UNPAID_ORDER_TTL_MS, patienceMs, Failures(false, false, false, false, false, false))
  }

  /** What a successful claim call makes of the wallet. */
  lemma ClaimStep(w: Wallet, k: nat)
    requires May(w, Do(k, Ok)) && w.tasks[k].Credit? && w.tasks[k].credit.Fetched?
    ensures var t, w' := w.tasks[k], Take(w, Do(k, Ok));
      var free := !t.order.paid && !Live(w, t.orderId);
      w' == w.(claims := if free then w.claims[t.orderId := w.now + w.cfg.claimTtlMs] else w.claims,
               tasks := w.tasks[k := t.(credit := if free then Claimed else Replayed)])
  {
  }

  /** What marking an order paid makes of it. */
  lemma MarkStep(w: Wallet, k: nat)
    requires k < |w.tasks| && w.tasks[k].Credit? && w.tasks[k].credit.Marking?
    ensures var t, w' := w.tasks[k], Take(w, Do(k, Ok));
      w' == w.(paid := w.paid + {t.orderId}, tasks := w.tasks[k := t.(credit := Recording)])
  {
  }

  /** The stored orders are those a reader of the wallet would be given. */
  ghost predicate OrderAgrees(orders: map<OrderId, Order>, unpaid: seq<Unpaid>, w: Wallet, k: OrderId, t: nat) {
    && (Shown(orders, unpaid, k, t) <==> ReadableAt(w, k, t))
    && (ReadableAt(w, k, t) ==> orders[k] == Record(w, k))
  }

  /** After storing an order, the wallet without what is gone from the store agrees with it again. */
  lemma AgreesAfterPut(w: Wallet, o: OrderId, orders: map<OrderId, Order>, unpaid: seq<Unpaid>,
                       orders': map<OrderId, Order>, unpaid': seq<Unpaid>, gone: set<OrderId>)
    requires w.paid <= w.issued.Keys && w.cfg.unpaidTtlMs == UNPAID_ORDER_TTL_MS && o in w.issued
    requires o in w.paid || (o in w.records && w.issued[o].createdAt == w.now)
    requires forall k, t: nat :: k != o && w.now <= t ==> OrderAgrees(orders, unpaid, w, k, t)
    requires OnlyUnpaidGo(orders[o := Record(w, o)], orders') && (o in w.paid ==> o in orders')
    requires ShownAfterPut(orders, unpaid, o, Record(w, o), w.now, orders', unpaid')
    requires gone == set x | x in w.records && x !in orders'
    ensures forall k, t: nat :: w.now <= t ==> OrderAgrees(orders', unpaid', Take(w, Evict(gone)), k, t)
  {
    forall k, t: nat | w.now <= t ensures OrderAgrees(orders', unpaid', Take(w, Evict(gone)), k, t) {
      assert k != o ==> OrderAgrees(orders, unpaid, w, k, t);
      assert k != o && k in w.paid ==> ReadableAt(w, k, t);
    }
  }

  /** No attempt can be under way for an order evicted as it was stored. */
  lemma EvictedUnread(w: Wallet, o: OrderId, device: DeviceId, coins: nat, amount: nat, gone: set<OrderId>)
    requires Tidy(w) && o !in w.issued && o in gone
    ensures Forgotten(Take(Take(w, Step.CreateOrder(o, device, coins, amount)), Evict(gone)), o)
  {
    forall k | 0 <= k < |w.tasks| ensures !IsFor(w.tasks[k], o) {
      assert TaskTidy(w, w.tasks[k]);
    }
  }

  class BillingService {
    const store: MemoryWalletStore
    const initialCoins: nat
    const patienceMs: nat
    /** The requests being served, each at its next call. */
    var tasks: seq<Task>
    ghost var steps: seq<Step>
    ghost var wallet: Wallet

    ghost predicate CoinsAgree()
      reads this, store
    {
      forall d :: store.BalanceOf(d, initialCoins) == Balance(wallet, d)
    }

    ghost predicate ClaimsAgree()
      reads this, store
    {
      forall o, t: nat :: wallet.now <= t ==> (store.Claimed(o, t) <==> o in wallet.claims && wallet.claims[o] > t)
    }

    ghost predicate OrdersAgree()
      reads this, store
    {
      forall o, t: nat :: wallet.now <= t ==>
        && (store.Visible(o, t) <==> ReadableAt(wallet, o, t))
        && (ReadableAt(wallet, o, t) ==> store.orders[o] == Record(wallet, o))
    }

    /** The store holds what the steps so far have made of the wallet. */
    ghost predicate Valid()
      reads this, store
    {
      && wallet == TakeAll(Open(InProcess(initialCoins, patienceMs)), steps)
      && wallet.tasks == tasks
      && CoinsAgree() && ClaimsAgree() && OrdersAgree() && store.OrdersValid()
    }

    constructor (store: MemoryWalletStore, initialCoins: nat, patienceMs: nat)
      requires store.OrdersValid() && store.coins == map[] && store.claims == map[] && store.orders == map[]
      ensures Valid() && steps == [] && this.store == store && this.initialCoins == initialCoins && this.patienceMs == patienceMs
    {
      this.store, this.initialCoins, this.patienceMs := store, initialCoins, patienceMs;
      tasks, steps, wallet := [], [], Open(InProcess(initialCoins, patienceMs));
    }

    ghost method Log(step: Step)
      requires wallet == TakeAll(Open(InProcess(initialCoins, patienceMs)), steps)
      modifies this`steps, this`wallet
      ensures wallet == TakeAll(Open(InProcess(initialCoins, patienceMs)), steps)
      ensures steps == old(steps) + [step] && wallet == Take(old(wallet), step)
    {
      TakeSnoc(Open(InProcess(initialCoins, patienceMs)), steps, step);
      steps, wallet := steps + [step], Take(wallet, step);
    }

    lemma WalletIsTidy()
      requires wallet == TakeAll(Open(InProcess(initialCoins, patienceMs)), steps)
      ensures wallet.paid <= wallet.issued.Keys && wallet.cfg == InProcess(initialCoins, patienceMs)
    {
      RunIsTidy(Open(InProcess(initialCoins, patienceMs)), steps);
      RunKeepsConfig(Open(InProcess(initialCoins, patienceMs)), steps);
    }

    ghost method Wait(ms: nat)
      requires Valid()
      modifies this`steps, this`wallet
      ensures Valid() && steps == old(steps) + [Tick(ms)]
    {
      Log(Tick(ms));
    }

    /* -------------------------------------------------------------- */
    /* Requests                                                        */
    /* -------------------------------------------------------------- */

    /** A request for a payment of an order: it is served when the order is on record and the amount is right. */
    method BeginCredit(o: OrderId, amount: nat, now: nat)
      requires Valid() && now == wallet.now
      modifies this, store
      ensures Valid() && steps == old(steps) + [Step.BeginCredit(o, amount)]
    {
      WalletIsTidy();
      var order := store.GetOrder(o, now);
      if order.Some? && order.value.amount == amount {
        tasks := tasks + [Credit(o, order.value, now, Fetched)];
      }
      Log(Step.BeginCredit(o, amount));
    }

    method BeginUnlock(device: DeviceId, cost: nat)
      requires Valid()
      modifies this
      ensures Valid() && steps == old(steps) + [Step.BeginUnlock(device, cost)]
    {
      tasks := tasks + [Debit(device, cost, Asking)];
      Log(Step.BeginUnlock(device, cost));
    }

    method BeginGain(device: DeviceId, delta: int)
      requires Valid()
      modifies this
      ensures Valid() && steps == old(steps) + [Step.BeginGain(device, delta)]
    {
      tasks := tasks + [Gain(device, delta, Adding)];
      Log(Step.BeginGain(device, delta));
    }

    ghost method AddOrder(o: OrderId, order: Order)
      requires Valid() && order == Order(order.device, order.coins, order.amount, false, wallet.now) && o !in wallet.issued
      modifies this`steps, this`wallet
      ensures wallet == TakeAll(Open(InProcess(initialCoins, patienceMs)), steps)
      ensures steps == old(steps) + [Step.CreateOrder(o, order.device, order.coins, order.amount)]
      ensures wallet == Take(old(wallet), Step.CreateOrder(o, order.device, order.coins, order.amount))
      ensures wallet.tasks == tasks && CoinsAgree() && ClaimsAgree() && OthersAgree(o) && wallet.now == old(wallet.now)
      ensures o in wallet.issued && Record(wallet, o) == order && o in wallet.records
    {
      WalletIsTidy();
      assert o !in wallet.paid;
      Log(Step.CreateOrder(o, order.device, order.coins, order.amount));
      StillAgree(old(wallet), o);
    }

    /** The gateway gave the order a new id; storing it may push others out, or itself. */
    method CreateOrder(o: OrderId, device: DeviceId, coins: nat, amount: nat, now: nat) returns (ghost gone: set<OrderId>)
      requires Valid() && now == wallet.now && o !in wallet.issued
      modifies this, store
      ensures Valid() && steps == old(steps) + [Step.CreateOrder(o, device, coins, amount), Evict(gone)]
      ensures o in gone <==> |PaidOthers(old(store.orders), o)| >= ORDERS_MAX
      ensures o in gone ==> Forgotten(wallet, o)
    {
      RunIsTidy(Open(InProcess(initialCoins, patienceMs)), steps);
      AddOrder(o, Order(device, coins, amount, false, now));
      gone := PutRecord(o, Order(device, coins, amount, false, now), now);
      assert old(steps) + [Step.CreateOrder(o, device, coins, amount)] + [Evict(gone)] ==
             old(steps) + [Step.CreateOrder(o, device, coins, amount), Evict(gone)];
      if o in gone {
        EvictedUnread(old(wallet), o, device, coins, amount, gone);
      }
    }

    /** Everything but the order `o` is in the store as in the wallet, and `o` is about to be. */
    ghost predicate OthersAgree(o: OrderId)
      reads this, store
    {
      forall k, t: nat :: k != o && wallet.now <= t ==> OrderAgrees(store.orders, store.unpaid, wallet, k, t)
    }

    /** Nothing of the orders has changed. */
    lemma OrdersStillAgree(before: Wallet)
      requires wallet.now == before.now && wallet.cfg == before.cfg
      requires wallet.issued == before.issued && wallet.records == before.records && wallet.paid == before.paid
      requires forall k, t: nat :: before.now <= t ==>
        (store.Visible(k, t) <==> ReadableAt(before, k, t)) && (ReadableAt(before, k, t) ==> store.orders[k] == Record(before, k))
      ensures OrdersAgree()
    {
    }

    /** The wallet has changed for one order only. */
    lemma StillAgree(before: Wallet, o: OrderId)
      requires wallet.now == before.now && wallet.cfg == before.cfg
      requires forall k :: k != o ==> (k in wallet.issued <==> k in before.issued) && (k in wallet.records <==> k in before.records)
      requires forall k :: k != o ==> (k in wallet.paid <==> k in before.paid)
      requires forall k :: k != o && k in before.issued ==> k in wallet.issued && wallet.issued[k] == before.issued[k]
      requires forall k, t: nat :: before.now <= t ==>
        (store.Visible(k, t) <==> ReadableAt(before, k, t)) && (ReadableAt(before, k, t) ==> store.orders[k] == Record(before, k))
      ensures OthersAgree(o)
    {
      forall k, t: nat | k != o && wallet.now <= t ensures OrderAgrees(store.orders, store.unpaid, wallet, k, t) {
        assert store.Visible(k, t) <==> ReadableAt(before, k, t);
      }
    }

    lemma AllOrdersAgree()
      requires forall k, t: nat :: wallet.now <= t ==> OrderAgrees(store.orders, store.unpaid, wallet, k, t)
      ensures OrdersAgree()
    {
      forall k, t: nat | wallet.now <= t
        ensures store.Visible(k, t) <==> ReadableAt(wallet, k, t)
        ensures ReadableAt(wallet, k, t) ==> store.orders[k] == Record(wallet, k)
      {
        assert OrderAgrees(store.orders, store.unpaid, wallet, k, t);
      }
    }

    method PutRecord(o: OrderId, order: Order, now: nat) returns (ghost gone: set<OrderId>)
      requires wallet == TakeAll(Open(InProcess(initialCoins, patienceMs)), steps)
      requires wallet.tasks == tasks && now == wallet.now && CoinsAgree() && ClaimsAgree() && OthersAgree(o) && store.OrdersValid()
      requires o in wallet.issued && order == Record(wallet, o)
      requires order.paid || (order.createdAt == now && o in wallet.records)
      modifies this`steps, this`wallet, store`orders, store`unpaid
      ensures Valid() && steps == old(steps) + [Evict(gone)] && wallet == Take(old(wallet), Evict(gone))
      ensures o in gone <==> !order.paid && |PaidOthers(old(store.orders), o)| >= ORDERS_MAX
    {
      StorePut(o, order, now);
      gone := Forget(o, old(store.orders), old(store.unpaid));
    }

    method StorePut(o: OrderId, order: Order, now: nat)
      requires store.OrdersValid()
      modifies store`orders, store`unpaid
      ensures store.OrdersValid() && OnlyUnpaidGo(old(store.orders)[o := order], store.orders) && (o in store.orders <==> order.paid || |PaidOthers(old(store.orders), o)| < ORDERS_MAX)
      ensures ShownAfterPut(old(store.orders), old(store.unpaid), o, order, now, store.orders, store.unpaid)
    {
      store.PutOrder(o, order, now);
    }

    /** Records the eviction of what the store no longer holds. */
    ghost method Forget(o: OrderId, orders: map<OrderId, Order>, unpaid: seq<Unpaid>) returns (gone: set<OrderId>)
      requires wallet == TakeAll(Open(InProcess(initialCoins, patienceMs)), steps)
      requires wallet.tasks == tasks && CoinsAgree() && ClaimsAgree() && store.OrdersValid()
      requires o in wallet.issued && (o in wallet.paid || (wallet.issued[o].createdAt == wallet.now && o in wallet.records))
      requires forall k, t: nat :: k != o && wallet.now <= t ==> OrderAgrees(orders, unpaid, wallet, k, t)
      requires OnlyUnpaidGo(orders[o := Record(wallet, o)], store.orders) && (o in wallet.paid ==> o in store.orders)
      requires ShownAfterPut(orders, unpaid, o, Record(wallet, o), wallet.now, store.orders, store.unpaid)
      modifies this`steps, this`wallet
      ensures Valid() && steps == old(steps) + [Evict(gone)] && wallet == Take(old(wallet), Evict(gone))
      ensures gone == set k | k in old(wallet).records && k !in store.orders
    {
      gone := set k | k in wallet.records && k !in store.orders;
      WalletIsTidy();
      AgreesAfterPut(wallet, o, orders, unpaid, store.orders, store.unpaid, gone);
      Log(Evict(gone));
      AllOrdersAgree();
    }

    /* -------------------------------------------------------------- */
    /* Store calls                                                     */
    /* -------------------------------------------------------------- */

    method ClaimOrder(k: nat, now: nat)
      requires Valid() && now == wallet.now && k < |tasks| && tasks[k].Credit? && tasks[k].credit.Fetched?
      requires May(wallet, Do(k, Ok))
      modifies this, store`claims, store`claimsSweepAt
      ensures Valid() && steps == old(steps) + [Do(k, Ok)]
    {
      var t := tasks[k];
      ClaimStep(wallet, k);
      if t.order.paid {
        tasks := tasks[k := t.(credit := Replayed)];
        Log(Do(k, Ok));
      } else {
        TryClaim(k, now);
      }
      OrdersStillAgree(old(wallet));
    }

    method TryClaim(k: nat, now: nat)
      requires Valid() && now == wallet.now && k < |tasks| && tasks[k].Credit? && tasks[k].credit.Fetched?
      requires May(wallet, Do(k, Ok)) && !tasks[k].order.paid
      modifies this, store`claims, store`claimsSweepAt
      ensures wallet == TakeAll(Open(InProcess(initialCoins, patienceMs)), steps)
      ensures wallet == Take(old(wallet), Do(k, Ok)) && wallet.tasks == tasks && ClaimsAgree()
      ensures steps == old(steps) + [Do(k, Ok)]
    {
      var t := tasks[k];
      ClaimStep(wallet, k);
      WalletIsTidy();
      assert store.Claimed(t.orderId, now) <==> Live(wallet, t.orderId);
      var first := store.ClaimOnce(t.orderId, now);
      tasks := tasks[k := t.(credit := if first then Claimed else Replayed)];
      Log(Do(k, Ok));
      forall o, u: nat | wallet.now <= u ensures store.Claimed(o, u) <==> o in wallet.claims && wallet.claims[o] > u {
        assert old(store.Claimed(o, u)) <==> o in old(wallet).claims && old(wallet).claims[o] > u;
      }
    }

    method MoveCoins(k: nat)
      requires Valid() && k < |tasks| && tasks[k].Credit? && tasks[k].credit.Claimed?
      modifies this, store`coins
      ensures Valid() && steps == old(steps) + [Do(k, Ok)]
    {
      var t := tasks[k];
      var _ := store.AddBalance(t.order.device, t.order.coins, initialCoins);
      tasks := tasks[k := t.(credit := Marking)];
      Log(Do(k, Ok));
    }

    method ReleaseClaim(k: nat)
      requires Valid() && k < |tasks| && tasks[k].Credit? && tasks[k].credit.Releasing?
      modifies this, store`claims
      ensures Valid() && steps == old(steps) + [Do(k, Ok)]
    {
      var t := tasks[k];
      store.ReleaseClaim(t.orderId);
      tasks := tasks[k := t.(credit := Thrown(t.credit.moved))];
      Log(Do(k, Ok));
    }

    /** Storing the order as paid may push unpaid ones out. */
    method MarkPaid(k: nat, now: nat) returns (ghost gone: set<OrderId>)
      requires Valid() && now == wallet.now && k < |tasks| && tasks[k].Credit? && tasks[k].credit.Marking?
      modifies this, store`orders, store`unpaid
      ensures Valid() && steps == old(steps) + [Do(k, Ok), Evict(gone)]
    {
      var t := tasks[k];
      RunIsTidy(Open(InProcess(initialCoins, patienceMs)), steps);
      assert TaskTidy(wallet, t);
      MarkStep(wallet, k);
      tasks := tasks[k := t.(credit := Recording)];
      Log(Do(k, Ok));
      StillAgree(old(wallet), t.orderId);
      gone := PutRecord(t.orderId, t.order.(paid := true), now);
      assert old(steps) + [Do(k, Ok)] + [Evict(gone)] == old(steps) + [Do(k, Ok), Evict(gone)];
    }

    /** Takes the cost, and looks at what is left. */
    method TakeCoins(k: nat)
      requires Valid() && k < |tasks| && tasks[k].Debit? && tasks[k].debit.Asking?
      modifies this, store`coins
      ensures Valid() && steps == old(steps) + [Do(k, Ok)]
    {
      var t := tasks[k];
      var balance := store.AddBalance(t.payer, -(t.cost as int), initialCoins);
      tasks := tasks[k := t.(debit := if balance >= 0 then Extending else Undoing)];
      Log(Do(k, Ok));
    }

    method UndoDebit(k: nat)
      requires Valid() && k < |tasks| && tasks[k].Debit? && tasks[k].debit.Undoing?
      modifies this, store`coins
      ensures Valid() && steps == old(steps) + [Do(k, Ok)]
    {
      var t := tasks[k];
      var _ := store.AddBalance(t.payer, t.cost, initialCoins);
      tasks := tasks[k := t.(debit := Settled(false))];
      Log(Do(k, Ok));
    }

    method AddCoins(k: nat)
      requires Valid() && k < |tasks| && tasks[k].Gain? && tasks[k].gain.Adding?
      modifies this, store`coins
      ensures Valid() && steps == old(steps) + [Do(k, Ok)]
    {
      var t := tasks[k];
      var _ := store.AddBalance(t.earner, t.delta, initialCoins);
      tasks := tasks[k := t.(gain := Writing)];
      Log(Do(k, Ok));
    }

    /** The unlock and the ledger entry that end a request; the store's ledger is not modelled. */
    method Note(k: nat)
      requires Valid() && k < |tasks|
      requires match tasks[k]
               case Credit(_, _, _, stage) => stage.Recording?
               case Debit(_, _, stage) => stage.Extending? || stage.Noting?
               case Gain(_, _, stage) => stage.Writing?
      modifies this
      ensures Valid() && steps == old(steps) + [Do(k, Ok)]
    {
      tasks := tasks[k := match tasks[k]
                          case Credit(o, order, at, _) => Credit(o, order, at, Credited(true))
                          case Debit(payer, cost, stage) => Debit(payer, cost, if stage.Extending? then Noting else Settled(true))
                          case Gain(earner, delta, _) => Gain(earner, delta, Written(true))];
      Log(Do(k, Ok));
    }

    /* -------------------------------------------------------------- */
    /* What callers may rely on                                        */
    /* -------------------------------------------------------------- */

    /** In process, and as long as requests are served in time, an ok answer means the coins moved, exactly once. */
    lemma OkMeansCreditedOnce(o: OrderId, k: nat)
      requires Valid() && patienceMs <= CLAIM_TTL_MS - UNPAID_ORDER_TTL_MS
      requires k < |tasks| && IsFor(tasks[k], o) && AnsweredOk(tasks[k]) && Quiet(wallet, o)
      ensures Times(wallet, o) == 1
    {
      OkIsExactIfNothingFails(InProcess(initialCoins, patienceMs), steps, o);
    }
  }
}
