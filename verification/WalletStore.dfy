/**
 * The in-process wallet store: balances, and claims, orders and unlocks in
 * maps that drop what has expired, with caps and amortised sweeps.
 */
module WalletStore {
  import opened Wrappers
  import opened WalletTypes

  type Feature = nat

  const ORDERS_MAX: nat := 2_000
  const UNPAID_ORDER_TTL_MS: nat := 24 * 60 * 60_000
  const CLAIM_TTL_MS: nat := 2 * 365 * 24 * 60 * 60_000
  const WALLET_IDLE_TTL_MS: nat := 365 * 24 * 60 * 60_000
  const SWEEP_FLOOR: nat := 1_024

  datatype Unpaid = Unpaid(orderId: OrderId, expiresAt: nat)

  datatype Unlocks = Unlocks(features: map<Feature, nat>, expiresAt: nat)

  /* ---------------------------------------------------------------- */
  /* Unpaid orders, oldest first                                       */
  /* ---------------------------------------------------------------- */

  function IdsOf(unpaid: seq<Unpaid>): set<OrderId> {
    set u | u in unpaid :: u.orderId
  }

  ghost predicate Distinct(unpaid: seq<Unpaid>) {
    forall i, j :: 0 <= i < j < |unpaid| ==> unpaid[i].orderId != unpaid[j].orderId
  }

  function WithoutOrder(unpaid: seq<Unpaid>, o: OrderId): seq<Unpaid> {
    if unpaid == [] then []
    else if unpaid[0].orderId == o then WithoutOrder(unpaid[1..], o)
    else [unpaid[0]] + WithoutOrder(unpaid[1..], o)
  }

  /** Setting a key that is there keeps its place; a new one goes to the end. */
  function SetUnpaid(unpaid: seq<Unpaid>, o: OrderId, expiresAt: nat): seq<Unpaid> {
    if unpaid == [] then [Unpaid(o, expiresAt)]
    else if unpaid[0].orderId == o then [Unpaid(o, expiresAt)] + unpaid[1..]
    else [unpaid[0]] + SetUnpaid(unpaid[1..], o, expiresAt)
  }

  function Unexpired(unpaid: seq<Unpaid>, now: nat): seq<Unpaid> {
    if unpaid == [] then []
    else if unpaid[0].expiresAt <= now then Unexpired(unpaid[1..], now)
    else [unpaid[0]] + Unexpired(unpaid[1..], now)
  }

  lemma {:induction false} DistinctTail(unpaid: seq<Unpaid>)
    requires Distinct(unpaid) && unpaid != []
    ensures Distinct(unpaid[1..]) && unpaid[0].orderId !in IdsOf(unpaid[1..])
    ensures IdsOf(unpaid) == IdsOf(unpaid[1..]) + {unpaid[0].orderId}
  {
    var rest := unpaid[1..];
    assert forall i :: 0 <= i < |rest| ==> rest[i] == unpaid[i + 1];
    assert unpaid == [unpaid[0]] + rest;
  }

  lemma ConsDistinct(u: Unpaid, unpaid: seq<Unpaid>)
    requires Distinct(unpaid) && u.orderId !in IdsOf(unpaid)
    ensures Distinct([u] + unpaid) && IdsOf([u] + unpaid) == IdsOf(unpaid) + {u.orderId}
  {
    var all := [u] + unpaid;
    forall i, j | 0 <= i < j < |all| ensures all[i].orderId != all[j].orderId {
      assert all[j] == unpaid[j - 1] && unpaid[j - 1] in unpaid;
      assert i > 0 ==> all[i] == unpaid[i - 1];
    }
  }

  lemma {:induction false} WithoutOrderFacts(unpaid: seq<Unpaid>, o: OrderId)
    requires Distinct(unpaid)
    ensures Distinct(WithoutOrder(unpaid, o)) && IdsOf(WithoutOrder(unpaid, o)) == IdsOf(unpaid) - {o}
    ensures forall u :: u in WithoutOrder(unpaid, o) <==> u in unpaid && u.orderId != o
  {
    if unpaid != [] {
      DistinctTail(unpaid);
      WithoutOrderFacts(unpaid[1..], o);
      assert unpaid == [unpaid[0]] + unpaid[1..];
      if unpaid[0].orderId != o {
        ConsDistinct(unpaid[0], WithoutOrder(unpaid[1..], o));
      }
    }
  }

  lemma {:induction false} SetUnpaidFacts(unpaid: seq<Unpaid>, o: OrderId, expiresAt: nat)
    requires Distinct(unpaid)
    ensures Distinct(SetUnpaid(unpaid, o, expiresAt)) && IdsOf(SetUnpaid(unpaid, o, expiresAt)) == IdsOf(unpaid) + {o}
    ensures forall u :: u in SetUnpaid(unpaid, o, expiresAt) <==> (u in unpaid && u.orderId != o) || u == Unpaid(o, expiresAt)
  {
    if unpaid == [] {
    } else {
      DistinctTail(unpaid);
      assert unpaid == [unpaid[0]] + unpaid[1..];
      if unpaid[0].orderId == o {
        ConsDistinct(Unpaid(o, expiresAt), unpaid[1..]);
        forall u ensures u in unpaid && u.orderId != o <==> u in unpaid[1..] {
          if u in unpaid[1..] {
            assert u.orderId in IdsOf(unpaid[1..]);
          }
        }
      } else {
        SetUnpaidFacts(unpaid[1..], o, expiresAt);
        ConsDistinct(unpaid[0], SetUnpaid(unpaid[1..], o, expiresAt));
      }
    }
  }

  lemma {:induction false} WithoutAbsent(unpaid: seq<Unpaid>, o: OrderId)
    requires o !in IdsOf(unpaid)
    ensures WithoutOrder(unpaid, o) == unpaid
  {
    if unpaid != [] {
      assert unpaid[0] in unpaid && forall u :: u in unpaid[1..] ==> u in unpaid;
      WithoutAbsent(unpaid[1..], o);
    }
  }

  /** Taking the order at position i out is WithoutOrder: no other entry has its id. */
  lemma {:induction false} SpliceIsWithoutOrder(unpaid: seq<Unpaid>, i: nat)
    requires Distinct(unpaid) && i < |unpaid|
    ensures WithoutOrder(unpaid, unpaid[i].orderId) == unpaid[..i] + unpaid[i + 1..]
  {
    DistinctTail(unpaid);
    var rest := unpaid[1..];
    if i == 0 {
      WithoutAbsent(rest, unpaid[0].orderId);
    } else {
      SpliceIsWithoutOrder(rest, i - 1);
      assert rest[i - 1] == unpaid[i] && rest[i..] == unpaid[i + 1..];
      assert unpaid[..i] == [unpaid[0]] + rest[..i - 1];
    }
  }

  lemma {:induction false} UnexpiredSnoc(unpaid: seq<Unpaid>, u: Unpaid, now: nat)
    ensures Unexpired(unpaid + [u], now) == Unexpired(unpaid, now) + Unexpired([u], now)
  {
    if unpaid == [] {
      assert unpaid + [u] == [u];
    } else {
      assert (unpaid + [u])[1..] == unpaid[1..] + [u];
      UnexpiredSnoc(unpaid[1..], u, now);
    }
  }

  /** The first i of `pending` are swept: expired ones gone, the rest in place. */
  predicate SweptTo(pending: seq<Unpaid>, i: nat, unpaid: seq<Unpaid>, now: nat) {
    i <= |pending| && unpaid == Unexpired(pending[..i], now) + pending[i..]
  }

  lemma SweepNext(pending: seq<Unpaid>, i: nat, unpaid: seq<Unpaid>, now: nat)
    requires SweptTo(pending, i, unpaid, now) && i < |pending| && Distinct(unpaid)
    ensures pending[i] in unpaid
    ensures if pending[i].expiresAt <= now then SweptTo(pending, i + 1, WithoutOrder(unpaid, pending[i].orderId), now)
            else SweptTo(pending, i + 1, unpaid, now)
  {
    UnexpiredSnoc(pending[..i], pending[i], now);
    assert pending[..i + 1] == pending[..i] + [pending[i]];
    var k := |Unexpired(pending[..i], now)|;
    assert unpaid[k] == pending[i];
    SpliceIsWithoutOrder(unpaid, k);
    assert unpaid[..k] == Unexpired(pending[..i], now) && unpaid[k + 1..] == pending[i + 1..];
  }

  /** Orders may go, none changes, and paid ones stay. */
  ghost predicate OnlyUnpaidGo(before: map<OrderId, Order>, after: map<OrderId, Order>) {
    && (forall k :: k in after ==> k in before && after[k] == before[k])
    && (forall k :: k in before && before[k].paid ==> k in after)
  }

  /** Orders are indexed in `unpaid` exactly while they are unpaid. */
  ghost predicate Indexed(orders: map<OrderId, Order>, unpaid: seq<Unpaid>) {
    && Distinct(unpaid)
    && (forall o :: o in IdsOf(unpaid) <==> o in orders && !orders[o].paid)
  }

  /** An order is there while it is paid or its record has not expired. */
  ghost predicate Shown(orders: map<OrderId, Order>, unpaid: seq<Unpaid>, o: OrderId, now: nat) {
    o in orders && (orders[o].paid || exists u :: u in unpaid && u.orderId == o && u.expiresAt > now)
  }

  /** The paid orders among the others. */
  function PaidOthers(orders: map<OrderId, Order>, o: OrderId): set<OrderId> {
    set k | k in orders && k != o && orders[k].paid
  }

  /** What making room leaves of the unpaid orders: the newest of the unexpired ones, as many as fit. */
  ghost predicate Trimmed(before: seq<Unpaid>, after: seq<Unpaid>, size: nat, now: nat) {
    var live := Unexpired(before, now);
    && |after| <= |live| && after == live[|live| - |after|..]
    && (|after| < |live| ==> size >= ORDERS_MAX)
    && (size > ORDERS_MAX ==> after == [])
  }

  /** How an order is put: paid ones leave the index, unpaid ones join it. */
  function Requeued(unpaid: seq<Unpaid>, o: OrderId, order: Order, now: nat): seq<Unpaid> {
    if order.paid then WithoutOrder(unpaid, o) else SetUnpaid(unpaid, o, now + UNPAID_ORDER_TTL_MS)
  }

  /** What putting an order may leave: everything within the cap, else as making room allows. */
  ghost predicate PutLeaves(before: map<OrderId, Order>, unpaid: seq<Unpaid>, o: OrderId, order: Order, now: nat,
                            after: map<OrderId, Order>, unpaid': seq<Unpaid>) {
    var full, queue := before[o := order], Requeued(unpaid, o, order, now);
    && OnlyUnpaidGo(full, after)
    && (if |full| <= ORDERS_MAX then after == full && unpaid' == queue else Trimmed(queue, unpaid', |after|, now))
  }

  /** The order put is shown as long as its record lasts, and every other one that is still there as before. */
  ghost predicate ShownAfterPut(before: map<OrderId, Order>, unpaid: seq<Unpaid>, o: OrderId, order: Order, now: nat,
                                after: map<OrderId, Order>, unpaid': seq<Unpaid>) {
    && (o in after ==> after[o] == order && forall t: nat :: Shown(after, unpaid', o, t) <==> order.paid || t < now + UNPAID_ORDER_TTL_MS)
    && (forall k, t: nat :: k != o && k in after ==> (Shown(after, unpaid', k, t) <==> Shown(before, unpaid, k, t)))
  }

  lemma {:induction false} UnexpiredFacts(unpaid: seq<Unpaid>, now: nat)
    ensures forall u :: u in Unexpired(unpaid, now) <==> u in unpaid && u.expiresAt > now
  {
    if unpaid != [] {
      UnexpiredFacts(unpaid[1..], now);
      assert unpaid == [unpaid[0]] + unpaid[1..];
    }
  }

  lemma {:induction false} NewOrderGoesLast(unpaid: seq<Unpaid>, o: OrderId, expiresAt: nat)
    requires o !in IdsOf(unpaid)
    ensures SetUnpaid(unpaid, o, expiresAt) == unpaid + [Unpaid(o, expiresAt)]
  {
    if unpaid != [] {
      assert unpaid[0] in unpaid && forall u :: u in unpaid[1..] ==> u in unpaid;
      NewOrderGoesLast(unpaid[1..], o, expiresAt);
      assert unpaid + [Unpaid(o, expiresAt)] == [unpaid[0]] + (unpaid[1..] + [Unpaid(o, expiresAt)]);
    } else {
      assert unpaid + [Unpaid(o, expiresAt)] == [Unpaid(o, expiresAt)];
    }
  }

  lemma {:induction false} SmallerSet(a: set<OrderId>, b: set<OrderId>)
    requires a <= b
    ensures |a| <= |b|
  {
    if a != {} {
      var x :| x in a;
      SmallerSet(a - {x}, b - {x});
    }
  }

  /** Whatever is indexed afterwards was put with the order, or was there. */
  lemma PutKeepsRecords(before: map<OrderId, Order>, unpaid: seq<Unpaid>, o: OrderId, order: Order, now: nat,
                        after: map<OrderId, Order>, unpaid': seq<Unpaid>)
    requires Indexed(before, unpaid) && Indexed(after, unpaid') && PutLeaves(before, unpaid, o, order, now, after, unpaid')
    ensures forall u :: u in unpaid' ==> if u.orderId == o then u == Unpaid(o, now + UNPAID_ORDER_TTL_MS) else u in unpaid
  {
    UnexpiredFacts(Requeued(unpaid, o, order, now), now);
    WithoutOrderFacts(unpaid, o);
    SetUnpaidFacts(unpaid, o, now + UNPAID_ORDER_TTL_MS);
    assert forall u :: u in unpaid' ==> u in Requeued(unpaid, o, order, now);
  }

  lemma OneRecordEach(unpaid: seq<Unpaid>, u: Unpaid)
    requires Distinct(unpaid) && u in unpaid
    ensures forall v :: v in unpaid && v.orderId == u.orderId ==> v == u
  {
    var i :| 0 <= i < |unpaid| && unpaid[i] == u;
    forall v | v in unpaid && v.orderId == u.orderId ensures v == u {
      var j :| 0 <= j < |unpaid| && unpaid[j] == v;
      assert !(i < j) && !(j < i);
    }
  }

  /** An unpaid order is shown exactly until the record it has expires. */
  lemma ShownByRecord(orders: map<OrderId, Order>, unpaid: seq<Unpaid>, u: Unpaid, t: nat)
    requires Indexed(orders, unpaid) && u in unpaid
    ensures u.orderId in orders && !orders[u.orderId].paid
    ensures Shown(orders, unpaid, u.orderId, t) <==> u.expiresAt > t
  {
    assert u.orderId in IdsOf(unpaid);
    OneRecordEach(unpaid, u);
  }

  /** Every order that is still there is shown as before; the one put, as long as its record lasts. */
  lemma PutShows(before: map<OrderId, Order>, unpaid: seq<Unpaid>, o: OrderId, order: Order, now: nat,
                 after: map<OrderId, Order>, unpaid': seq<Unpaid>, k: OrderId, t: nat)
    requires Indexed(before, unpaid) && Indexed(after, unpaid') && PutLeaves(before, unpaid, o, order, now, after, unpaid')
    requires k in after
    ensures Shown(after, unpaid', k, t) <==>
            if k == o then order.paid || t < now + UNPAID_ORDER_TTL_MS else Shown(before, unpaid, k, t)
  {
    if !after[k].paid {
      PutKeepsRecords(before, unpaid, o, order, now, after, unpaid');
      assert k in IdsOf(unpaid');
      var u :| u in unpaid' && u.orderId == k;
      ShownByRecord(after, unpaid', u, t);
      if k != o {
        ShownByRecord(before, unpaid, u, t);
      }
    }
  }

  lemma NewestIsLast(unpaid: seq<Unpaid>, o: OrderId, now: nat)
    requires o !in IdsOf(unpaid)
    ensures var u := Unpaid(o, now + UNPAID_ORDER_TTL_MS);
      var live := Unexpired(SetUnpaid(unpaid, o, u.expiresAt), now); |live| > 0 && live[|live| - 1] == u
  {
    var u := Unpaid(o, now + UNPAID_ORDER_TTL_MS);
    NewOrderGoesLast(unpaid, o, u.expiresAt);
    UnexpiredSnoc(unpaid, u, now);
  }

  lemma PaidOnesStay(before: map<OrderId, Order>, o: OrderId, order: Order, after: map<OrderId, Order>)
    requires OnlyUnpaidGo(before[o := order], after) && !order.paid
    ensures PaidOthers(before, o) <= after.Keys - {o}
    ensures (forall k :: k in after ==> after[k].paid) ==> after.Keys == PaidOthers(before, o)
  {
    assert o in after ==> after[o] == order;
    forall k | k in PaidOthers(before, o) ensures k in after && k != o {
      assert k in before[o := order] && before[o := order][k].paid;
    }
  }

  /** Trimming takes the newest record only when nothing else is left to take and the store is full without it. */
  lemma NewestIsLastToGo(unpaid: seq<Unpaid>, o: OrderId, now: nat, unpaid': seq<Unpaid>, size: nat)
    requires o !in IdsOf(unpaid) && Trimmed(SetUnpaid(unpaid, o, now + UNPAID_ORDER_TTL_MS), unpaid', size, now)
    ensures if unpaid' == [] then size >= ORDERS_MAX
            else unpaid'[|unpaid'| - 1] == Unpaid(o, now + UNPAID_ORDER_TTL_MS) && size <= ORDERS_MAX
  {
    NewestIsLast(unpaid, o, now);
  }

  /** With nothing unpaid left only the paid ones are there. */
  lemma OnlyPaidLeft(before: map<OrderId, Order>, o: OrderId, order: Order, after: map<OrderId, Order>)
    requires OnlyUnpaidGo(before[o := order], after) && !order.paid && Indexed(after, [])
    ensures o !in after && |PaidOthers(before, o)| == |after|
  {
    forall k | k in after ensures after[k].paid {
      assert k !in IdsOf([]);
    }
    PaidOnesStay(before, o, order, after);
  }

  /** With the new order still there, it and the paid ones fit. */
  lemma PaidLeaveRoom(before: map<OrderId, Order>, o: OrderId, order: Order, after: map<OrderId, Order>)
    requires OnlyUnpaidGo(before[o := order], after) && !order.paid && o in after
    ensures |PaidOthers(before, o)| < |after|
  {
    PaidOnesStay(before, o, order, after);
    SmallerSet(PaidOthers(before, o) + {o}, after.Keys);
  }

  /** Over the cap, a new unpaid order stays exactly when the paid ones leave room. */
  lemma NewestStays(before: map<OrderId, Order>, o: OrderId, order: Order, after: map<OrderId, Order>, unpaid': seq<Unpaid>, u: Unpaid)
    requires Indexed(after, unpaid') && OnlyUnpaidGo(before[o := order], after) && !order.paid && u.orderId == o
    requires if unpaid' == [] then |after| >= ORDERS_MAX else unpaid'[|unpaid'| - 1] == u && |after| <= ORDERS_MAX
    ensures o in after <==> |PaidOthers(before, o)| < ORDERS_MAX
  {
    if unpaid' == [] {
      OnlyPaidLeft(before, o, order, after);
    } else {
      assert u in unpaid';
      ShownByRecord(after, unpaid', u, 0);
      PaidLeaveRoom(before, o, order, after);
    }
  }

  lemma PutStays(before: map<OrderId, Order>, unpaid: seq<Unpaid>, o: OrderId, order: Order, now: nat,
                 after: map<OrderId, Order>, unpaid': seq<Unpaid>)
    requires Indexed(before, unpaid) && (|before| <= ORDERS_MAX || unpaid == [])
    requires Indexed(after, unpaid') && PutLeaves(before, unpaid, o, order, now, after, unpaid')
    ensures o in after <==> order.paid || |PaidOthers(before, o)| < ORDERS_MAX
  {
    var full := before[o := order];
    if |full| <= ORDERS_MAX {
      SmallerSet(PaidOthers(before, o) + {o}, full.Keys);
    } else if !order.paid {
      assert unpaid != [] ==> full.Keys == before.Keys + {o} && o !in before;
      NewestIsLastToGo(unpaid, o, now, unpaid', |after|);
      NewestStays(before, o, order, after, unpaid', Unpaid(o, now + UNPAID_ORDER_TTL_MS));
    }
  }

  /* ---------------------------------------------------------------- */
  /* How long an order stays                                           */
  /* ---------------------------------------------------------------- */

  function PaidOrders(orders: map<OrderId, Order>): set<OrderId> {
    set k | k in orders && orders[k].paid
  }

  /** The entries from this order's on. */
  function From(unpaid: seq<Unpaid>, o: OrderId): seq<Unpaid> {
    if unpaid == [] || unpaid[0].orderId == o then unpaid else From(unpaid[1..], o)
  }

  /** The paid orders, this one and the unexpired ones put after it fit in the store. */
  predicate LeavesRoom(before: map<OrderId, Order>, unpaid: seq<Unpaid>, o: OrderId, order: Order, now: nat, k: OrderId) {
    |PaidOrders(before[o := order])| + |From(Unexpired(Requeued(unpaid, o, order, now), now), k)| <= ORDERS_MAX
  }

  lemma {:induction false} FromIsSuffix(unpaid: seq<Unpaid>, u: Unpaid)
    requires Distinct(unpaid) && u in unpaid
    ensures var n := |From(unpaid, u.orderId)|; 0 < n <= |unpaid| && unpaid[|unpaid| - n] == u
  {
    if unpaid[0].orderId == u.orderId {
      OneRecordEach(unpaid, u);
    } else {
      assert unpaid == [unpaid[0]] + unpaid[1..];
      DistinctTail(unpaid);
      FromIsSuffix(unpaid[1..], u);
    }
  }

  lemma {:induction false} UnexpiredDistinct(unpaid: seq<Unpaid>, now: nat)
    requires Distinct(unpaid)
    ensures Distinct(Unexpired(unpaid, now)) && IdsOf(Unexpired(unpaid, now)) <= IdsOf(unpaid)
    ensures |Unexpired(unpaid, now)| <= |unpaid|
  {
    if unpaid != [] {
      DistinctTail(unpaid);
      UnexpiredDistinct(unpaid[1..], now);
      if unpaid[0].expiresAt > now {
        ConsDistinct(unpaid[0], Unexpired(unpaid[1..], now));
      }
    }
  }

  lemma {:induction false} OneIdEach(unpaid: seq<Unpaid>)
    requires Distinct(unpaid)
    ensures |IdsOf(unpaid)| == |unpaid|
  {
    if unpaid != [] {
      DistinctTail(unpaid);
      OneIdEach(unpaid[1..]);
    }
  }

  /** An indexed store holds its paid orders and the indexed ones. */
  lemma PaidAndUnpaid(orders: map<OrderId, Order>, unpaid: seq<Unpaid>)
    requires Indexed(orders, unpaid)
    ensures |orders| == |PaidOrders(orders)| + |unpaid|
  {
    OneIdEach(unpaid);
    assert orders.Keys == PaidOrders(orders) + IdsOf(unpaid);
    assert PaidOrders(orders) !! IdsOf(unpaid);
  }

  lemma RequeuedIsIndexed(orders: map<OrderId, Order>, unpaid: seq<Unpaid>, o: OrderId, order: Order, now: nat)
    requires Indexed(orders, unpaid)
    ensures Indexed(orders[o := order], Requeued(unpaid, o, order, now))
  {
    WithoutOrderFacts(unpaid, o);
    SetUnpaidFacts(unpaid, o, now + UNPAID_ORDER_TTL_MS);
  }

  lemma PaidStayPaid(full: map<OrderId, Order>, after: map<OrderId, Order>)
    requires OnlyUnpaidGo(full, after)
    ensures PaidOrders(after) == PaidOrders(full)
  {
  }

  /** A put leaves an unexpired unpaid order there exactly when it and all that outrank it fit. */
  lemma PutKeepsIff(before: map<OrderId, Order>, unpaid: seq<Unpaid>, o: OrderId, order: Order, now: nat,
                    after: map<OrderId, Order>, unpaid': seq<Unpaid>, u: Unpaid)
    requires Indexed(before, unpaid) && Indexed(after, unpaid') && PutLeaves(before, unpaid, o, order, now, after, unpaid')
    requires u in Requeued(unpaid, o, order, now) && u.expiresAt > now
    ensures u.orderId in after <==> LeavesRoom(before, unpaid, o, order, now, u.orderId)
    ensures u.orderId in after <==> u in unpaid'
  {
    var full, queue := before[o := order], Requeued(unpaid, o, order, now);
    var live := Unexpired(queue, now);
    RequeuedIsIndexed(before, unpaid, o, order, now);
    UnexpiredFacts(queue, now);
    UnexpiredDistinct(queue, now);
    FromIsSuffix(live, u);
    PaidAndUnpaid(full, queue);
    PaidAndUnpaid(after, unpaid');
    PaidStayPaid(full, after);
    InIndexIff(after, full, unpaid', queue, u);
    if |full| > ORDERS_MAX {
      SuffixHas(live, |live| - |unpaid'|, u);
    }
  }

  lemma InIndexIff(after: map<OrderId, Order>, full: map<OrderId, Order>, unpaid': seq<Unpaid>, queue: seq<Unpaid>, u: Unpaid)
    requires Indexed(after, unpaid') && Indexed(full, queue) && OnlyUnpaidGo(full, after) && u in queue
    requires forall v :: v in unpaid' ==> v in queue
    ensures u.orderId in after <==> u in unpaid'
  {
    assert u.orderId in IdsOf(queue);
    if u.orderId in after {
      assert u.orderId in IdsOf(unpaid');
      OneRecordEach(queue, u);
    }
    assert u in unpaid' ==> u.orderId in IdsOf(unpaid');
  }

  /** What is left from position `from` on holds exactly the entries that stand there. */
  lemma SuffixHas(unpaid: seq<Unpaid>, from: nat, u: Unpaid)
    requires Distinct(unpaid) && from <= |unpaid| && u in unpaid
    ensures u in unpaid[from..] <==> |From(unpaid, u.orderId)| <= |unpaid| - from
  {
    FromIsSuffix(unpaid, u);
    var i := |unpaid| - |From(unpaid, u.orderId)|;
    if i >= from {
      assert unpaid[from..][i - from] == u;
    } else {
      forall j | from <= j < |unpaid| ensures unpaid[j] != u {
        assert unpaid[j].orderId != unpaid[i].orderId;
      }
    }
  }

  datatype Put = Put(o: OrderId, order: Order, now: nat)

  datatype Stored = Stored(orders: map<OrderId, Order>, unpaid: seq<Unpaid>)

  /** Consecutive puts into one store. */
  ghost predicate Puts(stores: seq<Stored>, puts: seq<Put>) {
    && |stores| == |puts| + 1
    && (forall i :: 0 <= i < |stores| ==> Indexed(stores[i].orders, stores[i].unpaid))
    && (forall i :: 0 <= i < |puts| ==> PutLeaves(stores[i].orders, stores[i].unpaid, puts[i].o, puts[i].order, puts[i].now,
                                                  stores[i + 1].orders, stores[i + 1].unpaid))
  }

  predicate LeavesRoomAt(before: Stored, put: Put, o: OrderId) {
    LeavesRoom(before.orders, before.unpaid, put.o, put.order, put.now, o)
  }

  /** One put of another order while this one's record lasts. */
  lemma PutOfAnother(before: Stored, put: Put, after: Stored, u: Unpaid)
    requires Indexed(before.orders, before.unpaid) && Indexed(after.orders, after.unpaid)
    requires PutLeaves(before.orders, before.unpaid, put.o, put.order, put.now, after.orders, after.unpaid)
    requires put.o != u.orderId && put.now < u.expiresAt && (u.orderId in before.orders <==> u in before.unpaid)
    ensures u.orderId in after.orders <==> u in before.unpaid && LeavesRoomAt(before, put, u.orderId)
    ensures u.orderId in after.orders <==> u in after.unpaid
  {
    if u in before.unpaid {
      WithoutOrderFacts(before.unpaid, put.o);
      SetUnpaidFacts(before.unpaid, put.o, put.now + UNPAID_ORDER_TTL_MS);
      PutKeepsIff(before.orders, before.unpaid, put.o, put.order, put.now, after.orders, after.unpaid, u);
    } else {
      PutKeepsRecords(before.orders, before.unpaid, put.o, put.order, put.now, after.orders, after.unpaid);
    }
  }

  /** At each put of the run the order fits. */
  ghost predicate AlwaysFits(stores: seq<Stored>, puts: seq<Put>, o: OrderId)
    requires |stores| == |puts| + 1
  {
    forall i :: 0 <= i < |puts| ==> LeavesRoomAt(stores[i], puts[i], o)
  }

  lemma AlwaysFitsBefore(stores: seq<Stored>, puts: seq<Put>, o: OrderId)
    requires |stores| == |puts| + 1 && puts != []
    ensures var n := |puts| - 1;
      AlwaysFits(stores, puts, o) <==> AlwaysFits(stores[..|puts|], puts[..n], o) && LeavesRoomAt(stores[n], puts[n], o)
  {
    var n := |puts| - 1;
    var first := stores[..|puts|];
    forall i | 0 <= i < n ensures LeavesRoomAt(first[i], puts[..n][i], o) <==> LeavesRoomAt(stores[i], puts[i], o) {
      assert first[i] == stores[i] && puts[..n][i] == puts[i];
    }
  }

  lemma PutsBefore(stores: seq<Stored>, puts: seq<Put>)
    requires Puts(stores, puts) && puts != []
    ensures Puts(stores[..|puts|], puts[..|puts| - 1])
  {
  }

  /**
   * Over any run of puts of other orders within its day, an unpaid order is
   * there at the end exactly when at each put it fitted with the paid orders
   * and the unexpired unpaid ones put after it: older ones never drive it out.
   */
  lemma {:induction false} KeptForItsDay(stores: seq<Stored>, puts: seq<Put>, u: Unpaid)
    requires Puts(stores, puts) && u in stores[0].unpaid
    requires forall i :: 0 <= i < |puts| ==> puts[i].o != u.orderId && puts[i].now < u.expiresAt
    ensures u.orderId in stores[|puts|].orders <==> AlwaysFits(stores, puts, u.orderId)
    ensures u.orderId in stores[|puts|].orders <==> u in stores[|puts|].unpaid
  {
    if puts == [] {
      assert u.orderId in IdsOf(stores[0].unpaid);
    } else {
      var n := |puts| - 1;
      PutsBefore(stores, puts);
      KeptForItsDay(stores[..|puts|], puts[..n], u);
      PutOfAnother(stores[n], puts[n], stores[n + 1], u);
      AlwaysFitsBefore(stores, puts, u.orderId);
    }
  }

  /* ---------------------------------------------------------------- */
  /* The store                                                         */
  /* ---------------------------------------------------------------- */

  class MemoryWalletStore {
    var coins: map<DeviceId, int>
    var claims: map<OrderId, nat>
    var claimsSweepAt: nat
    var orders: map<OrderId, Order>
    var unpaid: seq<Unpaid>
    var unlocks: map<DeviceId, Unlocks>
    var unlocksSweepAt: nat
    /** The last expiry ever stored for each device's feature, and the latest time seen. */
    ghost var allUnlocks: map<(DeviceId, Feature), nat>
    ghost var clock: nat

    ghost predicate IndexValid()
      reads this`orders, this`unpaid
    {
      Indexed(orders, unpaid)
    }

    /** And between calls only paid orders fill the store beyond its cap. */
    ghost predicate OrdersValid()
      reads this`orders, this`unpaid
    {
      IndexValid() && (|orders| <= ORDERS_MAX || unpaid == [])
    }

    /** A record outlives all its features by WALLET_IDLE_TTL_MS; one that is gone had nothing left to give. */
    ghost predicate UnlocksValid()
      reads this`unlocks, this`allUnlocks, this`clock
    {
      && (forall d, f :: d in unlocks && f in unlocks[d].features ==>
            && (d, f) in allUnlocks && allUnlocks[(d, f)] == unlocks[d].features[f]
            && unlocks[d].features[f] + WALLET_IDLE_TTL_MS <= unlocks[d].expiresAt)
      && (forall p :: p in allUnlocks && (p.0 !in unlocks || p.1 !in unlocks[p.0].features) ==> allUnlocks[p] + WALLET_IDLE_TTL_MS <= clock)
    }

    constructor ()
      ensures OrdersValid() && UnlocksValid()
      ensures coins == map[] && claims == map[] && orders == map[] && unlocks == map[] && clock == 0
    {
      coins, claims, orders, unlocks := map[], map[], map[], map[];
      unpaid := [];
      claimsSweepAt, unlocksSweepAt := SWEEP_FLOOR, SWEEP_FLOOR;
      allUnlocks, clock := map[], 0;
    }

    /* -------------------------------------------------------------- */
    /* Balances                                                        */
    /* -------------------------------------------------------------- */

    function BalanceOf(d: DeviceId, initial: int): int
      reads this`coins
    {
      if d in coins then coins[d] else initial
    }

    method AddBalance(d: DeviceId, delta: int, initial: int) returns (balance: int)
      modifies this`coins
      ensures balance == BalanceOf(d, initial) == old(BalanceOf(d, initial)) + delta
      ensures forall k, i :: k != d ==> BalanceOf(k, i) == old(BalanceOf(k, i))
    {
      balance := BalanceOf(d, initial) + delta;
      coins := coins[d := balance];
    }

    /* -------------------------------------------------------------- */
    /* Claims                                                          */
    /* -------------------------------------------------------------- */

    predicate Claimed(o: OrderId, now: nat)
      reads this`claims
    {
      o in claims && claims[o] > now
    }

    /** True exactly when the key is not claimed; from then on it is, for CLAIM_TTL_MS. No other claim changes. */
    method ClaimOnce(o: OrderId, now: nat) returns (first: bool)
      modifies this`claims, this`claimsSweepAt
      ensures first == !old(Claimed(o, now))
      ensures forall t :: now <= t ==> Claimed(o, t) == if first then t < now + CLAIM_TTL_MS else old(Claimed(o, t))
      ensures forall k, t :: k != o && now <= t ==> Claimed(k, t) == old(Claimed(k, t))
    {
      if o in claims && claims[o] > now {
        return false;
      }
      claims := claims[o := now + CLAIM_TTL_MS];
      if |claims| >= claimsSweepAt {
        claims := map k | k in claims && claims[k] > now :: claims[k];
        claimsSweepAt := Max(SWEEP_FLOOR, |claims| * 2);
      }
      return true;
    }

    method ReleaseClaim(o: OrderId)
      modifies this`claims
      ensures forall t :: !Claimed(o, t)
      ensures forall k, t :: k != o ==> Claimed(k, t) == old(Claimed(k, t))
    {
      claims := claims - {o};
    }

    /* -------------------------------------------------------------- */
    /* Orders                                                          */
    /* -------------------------------------------------------------- */

    /** What a reader sees: an unpaid order disappears when its record expires. */
    ghost predicate Visible(o: OrderId, now: nat)
      reads this`orders, this`unpaid
    {
      Shown(orders, unpaid, o, now)
    }

    method Drop(o: OrderId)
      requires IndexValid()
      modifies this`orders, this`unpaid
      ensures IndexValid() && orders == old(orders) - {o} && unpaid == WithoutOrder(old(unpaid), o)
      ensures |orders| == |old(orders)| - (if o in old(orders) then 1 else 0)
    {
      WithoutOrderFacts(unpaid, o);
      assert (orders - {o}).Keys == orders.Keys - {o};
      orders := orders - {o};
      unpaid := WithoutOrder(unpaid, o);
    }

    method GetOrder(o: OrderId, now: nat) returns (order: Option<Order>)
      requires OrdersValid()
      modifies this`orders, this`unpaid
      ensures OrdersValid()
      ensures order == if old(Visible(o, now)) then Some(old(orders)[o]) else None
      ensures orders == (if o in old(orders) && !old(Visible(o, now)) then old(orders) - {o} else old(orders))
      ensures forall k, t: nat :: now <= t ==> (Visible(k, t) <==> old(Visible(k, t)))
    {
      var i := 0;
      while i < |unpaid| && unpaid[i].orderId != o
        invariant 0 <= i <= |unpaid|
        invariant forall k :: 0 <= k < i ==> unpaid[k].orderId != o
      {
        i := i + 1;
      }
      if i < |unpaid| && unpaid[i].expiresAt <= now {
        assert unpaid[i] in unpaid && o in IdsOf(unpaid);
        forall u | u in unpaid && u.orderId == o ensures u == unpaid[i] {
          var k :| 0 <= k < |unpaid| && unpaid[k] == u;
          assert k == i;
        }
        WithoutOrderFacts(unpaid, o);
        Drop(o);
        return None;
      }
      if i < |unpaid| {
        assert unpaid[i] in unpaid && o in IdsOf(unpaid);
      }
      return if o in orders then Some(orders[o]) else None;
    }

    /**
     * Stores an order. Within the cap nothing else changes; over it, unpaid
     * orders make room, expired first and then oldest, and no more than needed.
     * Paid orders never go. An unpaid order is there afterwards, for as long as
     * its record lasts, unless paid ones alone fill the store.
     */
    method PutOrder(o: OrderId, order: Order, now: nat)
      requires OrdersValid()
      modifies this`orders, this`unpaid
      ensures OrdersValid()
      ensures PutLeaves(old(orders), old(unpaid), o, order, now, orders, unpaid)
      ensures o in orders <==> order.paid || |PaidOthers(old(orders), o)| < ORDERS_MAX
      ensures ShownAfterPut(old(orders), old(unpaid), o, order, now, orders, unpaid)
    {
      ghost var before, kept := orders, unpaid;
      Index(o, order, now);
      if |orders| > ORDERS_MAX {
        Evict(now);
      }
      PutStays(before, kept, o, order, now, orders, unpaid);
      forall k, t: nat | k in orders
        ensures Shown(orders, unpaid, k, t) <==> if k == o then order.paid || t < now + UNPAID_ORDER_TTL_MS else Shown(before, kept, k, t)
      {
        PutShows(before, kept, o, order, now, orders, unpaid, k, t);
      }
    }

    method Index(o: OrderId, order: Order, now: nat)
      requires IndexValid()
      modifies this`orders, this`unpaid
      ensures IndexValid() && orders == old(orders)[o := order] && unpaid == Requeued(old(unpaid), o, order, now)
    {
      orders := orders[o := order];
      if order.paid {
        WithoutOrderFacts(unpaid, o);
        unpaid := WithoutOrder(unpaid, o);
      } else {
        SetUnpaidFacts(unpaid, o, now + UNPAID_ORDER_TTL_MS);
        unpaid := SetUnpaid(unpaid, o, now + UNPAID_ORDER_TTL_MS);
      }
    }

    method Evict(now: nat)
      requires IndexValid() && |orders| > ORDERS_MAX
      modifies this`orders, this`unpaid
      ensures IndexValid() && OnlyUnpaidGo(old(orders), orders)
      ensures Trimmed(old(unpaid), unpaid, |orders|, now)
    {
      DropExpired(now);
      DropOldest();
    }

    /** Drops every unpaid order whose record has expired. */
    method DropExpired(now: nat)
      requires IndexValid()
      modifies this`orders, this`unpaid
      ensures IndexValid() && OnlyUnpaidGo(old(orders), orders)
      ensures unpaid == Unexpired(old(unpaid), now)
    {
      var pending := unpaid;
      var i := 0;
      while i < |pending|
        invariant 0 <= i <= |pending| && IndexValid()
        invariant SweptTo(pending, i, unpaid, now)
        invariant OnlyUnpaidGo(old(orders), orders)
      {
        SweepOne(pending, i, now);
        i := i + 1;
      }
      assert pending[..i] == pending;
    }

    method SweepOne(pending: seq<Unpaid>, i: nat, now: nat)
      requires IndexValid() && SweptTo(pending, i, unpaid, now) && i < |pending|
      modifies this`orders, this`unpaid
      ensures IndexValid() && OnlyUnpaidGo(old(orders), orders)
      ensures SweptTo(pending, i + 1, unpaid, now)
    {
      SweepNext(pending, i, unpaid, now);
      if pending[i].expiresAt <= now {
        DropUnpaid(pending[i]);
      }
    }

    method DropUnpaid(u: Unpaid)
      requires IndexValid() && u in unpaid
      modifies this`orders, this`unpaid
      ensures IndexValid() && OnlyUnpaidGo(old(orders), orders)
      ensures unpaid == WithoutOrder(old(unpaid), u.orderId)
    {
      assert u.orderId in IdsOf(unpaid);
      Drop(u.orderId);
    }

    /** Drops unpaid orders, oldest first, until the store is within its cap or none is left. */
    method DropOldest()
      requires IndexValid()
      modifies this`orders, this`unpaid
      ensures IndexValid()
      ensures OnlyUnpaidGo(old(orders), orders)
      ensures |unpaid| <= |old(unpaid)| && unpaid == old(unpaid)[|old(unpaid)| - |unpaid|..]
      ensures |unpaid| < |old(unpaid)| ==> |orders| >= ORDERS_MAX
      ensures |orders| > ORDERS_MAX ==> unpaid == []
    {
      while |orders| > ORDERS_MAX && unpaid != []
        invariant IndexValid()
        invariant OnlyUnpaidGo(old(orders), orders)
        invariant |unpaid| <= |old(unpaid)| && unpaid == old(unpaid)[|old(unpaid)| - |unpaid|..]
        invariant |unpaid| < |old(unpaid)| ==> |orders| >= ORDERS_MAX
        decreases |unpaid|
      {
        ghost var gone := |old(unpaid)| - |unpaid|;
        assert old(unpaid)[gone..][1..] == old(unpaid)[gone + 1..];
        DropFirst();
      }
    }

    method DropFirst()
      requires IndexValid() && unpaid != []
      modifies this`orders, this`unpaid
      ensures IndexValid() && unpaid == old(unpaid)[1..] && OnlyUnpaidGo(old(orders), orders) && |orders| == |old(orders)| - 1
    {
      assert unpaid[0] in unpaid && unpaid[0].orderId in IdsOf(unpaid);
      SpliceIsWithoutOrder(unpaid, 0);
      Drop(unpaid[0].orderId);
    }

    /* -------------------------------------------------------------- */
    /* Unlocks                                                         */
    /* -------------------------------------------------------------- */

    /** The device's record, dropped if it has expired. */
    method LiveFeatures(d: DeviceId, now: nat) returns (features: map<Feature, nat>)
      requires UnlocksValid() && now >= clock
      modifies this`unlocks, this`clock
      ensures UnlocksValid() && clock == now
      ensures forall f :: f in features ==> (d, f) in allUnlocks && features[f] == allUnlocks[(d, f)]
      ensures forall f :: (d, f) in allUnlocks && f !in features ==> allUnlocks[(d, f)] + WALLET_IDLE_TTL_MS <= now
      ensures features == if d in unlocks then unlocks[d].features else map[]
    {
      clock := now;
      if d in unlocks && unlocks[d].expiresAt <= now {
        unlocks := unlocks - {d};
      }
      features := if d in unlocks then unlocks[d].features else map[];
    }

    /**
     * The new expiry is as if no record had ever been dropped: the later of now
     * and the last expiry stored, plus the time bought.
     */
    method ExtendUnlock(d: DeviceId, f: Feature, ms: nat, now: nat) returns (expiresAt: nat)
      requires UnlocksValid() && now >= clock
      modifies this`unlocks, this`unlocksSweepAt, this`allUnlocks, this`clock
      ensures UnlocksValid() && clock == now
      ensures expiresAt == Max(now, if (d, f) in old(allUnlocks) then old(allUnlocks)[(d, f)] else 0) + ms
      ensures allUnlocks == old(allUnlocks)[(d, f) := expiresAt]
    {
      var features := LiveFeatures(d, now);
      expiresAt := Max(now, if f in features then features[f] else 0) + ms;
      PutUnlock(d, features, f, expiresAt, now);
    }

    /** Stores the features with one of them set, and sweeps expired records every so often. */
    method PutUnlock(d: DeviceId, features: map<Feature, nat>, f: Feature, expiresAt: nat, now: nat)
      requires UnlocksValid() && clock == now
      requires forall g :: g in features ==> (d, g) in allUnlocks && features[g] == allUnlocks[(d, g)]
      requires forall g :: (d, g) in allUnlocks && g !in features ==> allUnlocks[(d, g)] + WALLET_IDLE_TTL_MS <= now
      modifies this`unlocks, this`unlocksSweepAt, this`allUnlocks
      ensures UnlocksValid() && allUnlocks == old(allUnlocks)[(d, f) := expiresAt]
    {
      var all := features[f := expiresAt];
      assert f in all;
      var latest := Latest(all);
      unlocks := unlocks[d := Unlocks(all, latest + WALLET_IDLE_TTL_MS)];
      allUnlocks := allUnlocks[(d, f) := expiresAt];
      SweepUnlocks(now);
    }

    /** Drops expired records when the map has reached its mark, and doubles the mark. */
    method SweepUnlocks(now: nat)
      requires UnlocksValid() && clock == now
      modifies this`unlocks, this`unlocksSweepAt
      ensures UnlocksValid()
    {
      if |unlocks| >= unlocksSweepAt {
        unlocks := map k | k in unlocks && unlocks[k].expiresAt > now :: unlocks[k];
        unlocksSweepAt := Max(SWEEP_FLOOR, |unlocks| * 2);
      }
    }
  }

  /** The latest of the expiries. */
  method Latest(features: map<Feature, nat>) returns (latest: nat)
    requires features != map[]
    ensures forall f :: f in features ==> features[f] <= latest
    ensures exists f :: f in features && features[f] == latest
  {
    var rest := features.Keys;
    var first :| first in rest;
    latest := features[first];
    rest := rest - {first};
    while rest != {}
      invariant rest <= features.Keys
      invariant forall f :: f in features && f !in rest ==> features[f] <= latest
      invariant exists f :: f in features && features[f] == latest
    {
      var f :| f in rest;
      if features[f] > latest {
        latest := features[f];
      }
      rest := rest - {f};
    }
  }
}
