/**
 * The recheck slices of addRecheckSlice: bounded work each, and together, over
 * a queue that does not change, everyone's turn comes.
 */
module Recheck {
  import opened Wrappers
  import opened MatchModel

  /* Remainders */

  lemma Multiple(d: int, n: nat)
    ensures (d >= 0 ==> d * n >= 0) && (d >= 1 ==> d * n >= n) && (d <= -1 ==> d * n + n <= 0)
  {
  }

  lemma RemainderIsUnique(q: int, r: nat, n: nat)
    requires r < n
    ensures (q * n + r) % n == r
  {
    var x := q * n + r;
    assert x == (x / n) * n + x % n;
    Multiple(q - x / n, n);
    assert (q - x / n) * n == x % n - r;
  }

  lemma ModAdd(a: nat, b: nat, n: nat)
    requires n > 0
    ensures (a % n + b) % n == (a + b) % n
  {
    var q, r := (a % n + b) / n, (a % n + b) % n;
    assert a == (a / n) * n + a % n;
    assert a % n + b == q * n + r;
    assert a + b == (a / n + q) * n + r;
    RemainderIsUnique(a / n + q, r, n);
  }

  /* Slices */

  function CursorAfter(n: nat, budget: nat, cursor: nat, slices: nat): nat
    requires n > 0
  {
    if slices == 0 then cursor else RecheckSlice(n, budget, CursorAfter(n, budget, cursor, slices - 1)).cursor
  }

  /** Position p is in one of the first `slices` slices. */
  ghost predicate Rechecked(n: nat, budget: nat, cursor: nat, slices: nat, p: nat)
    requires n > 0
  {
    exists i: nat :: i < slices && p in RecheckSlice(n, budget, CursorAfter(n, budget, cursor, i)).picked
  }

  function SliceSize(n: nat, budget: nat): nat
    requires n > 0
  {
    Min(n, Max(1, budget / n))
  }

  /** A slice costs at most the budget in pair checks, or one row when the queue is longer than that. */
  lemma SliceIsBounded(n: nat, budget: nat, cursor: nat)
    requires n > 0
    ensures |RecheckSlice(n, budget, cursor).picked| == SliceSize(n, budget)
    ensures 1 <= SliceSize(n, budget) <= n && SliceSize(n, budget) * n <= Max(n, budget)
    ensures forall p :: p in RecheckSlice(n, budget, cursor).picked ==> p < n
  {
    Costs(n, budget / n, budget);
  }

  lemma Costs(n: nat, count: nat, budget: nat)
    requires n > 0 && count == budget / n
    ensures Min(n, Max(1, count)) * n <= Max(n, budget)
  {
    assert budget == count * n + budget % n;
    if count > n {
      Multiple(count - n, n);
      assert (count - n) * n == count * n - n * n;
    }
  }

  lemma {:induction false} StartAdvances(n: nat, budget: nat, cursor: nat, i: nat)
    requires n > 0 && Max(1, budget / n) < n
    ensures CursorAfter(n, budget, cursor, i) % n == (cursor + i * Max(1, budget / n)) % n
  {
    var count := Max(1, budget / n);
    if i > 0 {
      var before := CursorAfter(n, budget, cursor, i - 1);
      StartAdvances(n, budget, cursor, i - 1);
      ModAdd(before, count, n);
      ModAdd(cursor + (i - 1) * count, count, n);
      assert cursor + (i - 1) * count + count == cursor + i * count;
    }
  }

  /** How far position p lies ahead of the cursor, going round. */
  function Ahead(n: nat, cursor: nat, p: nat): (t: nat)
    requires p < n
    ensures t < n
  {
    if p >= cursor % n then p - cursor % n else p - cursor % n + n
  }

  lemma AheadReaches(n: nat, cursor: nat, p: nat)
    requires p < n
    ensures (cursor + Ahead(n, cursor, p)) % n == p
  {
    var t := Ahead(n, cursor, p);
    ModAdd(cursor, t, n);
    RemainderIsUnique(if p >= cursor % n then 0 else 1, p, n);
  }

  /**
   * While a queue of n stays as it is, any run of slices that adds up to n
   * positions rechecks every waiter, wherever the cursor started.
   */
  lemma EveryoneIsRechecked(n: nat, budget: nat, cursor: nat, slices: nat, p: nat)
    requires p < n && slices * SliceSize(n, budget) >= n
    ensures Rechecked(n, budget, cursor, slices, p)
  {
    var size := SliceSize(n, budget);
    Multiple(slices, size);
    if size == n {
      WholeQueueComes(n, budget, cursor, slices, p);
    } else {
      var t := Ahead(n, cursor, p);
      TurnIsInRange(t, size, slices);
      TurnComes(n, budget, cursor, p);
    }
  }

  lemma WholeQueueComes(n: nat, budget: nat, cursor: nat, slices: nat, p: nat)
    requires p < n && SliceSize(n, budget) == n && slices > 0
    ensures Rechecked(n, budget, cursor, slices, p)
  {
    assert RecheckSlice(n, budget, CursorAfter(n, budget, cursor, 0)).picked[p] == p % n by {
      Small(p, n);
    }
    Small(p, n);
  }

  lemma Small(p: nat, n: nat)
    requires p < n
    ensures p % n == p
  {
  }

  /** Slice number t / count reaches the position t ahead of the cursor. */
  lemma TurnComes(n: nat, budget: nat, cursor: nat, p: nat)
    requires p < n && Max(1, budget / n) < n
    ensures var count, t := Max(1, budget / n), Ahead(n, cursor, p);
      p in RecheckSlice(n, budget, CursorAfter(n, budget, cursor, t / count)).picked
  {
    var count, t := Max(1, budget / n), Ahead(n, cursor, p);
    var i, j := t / count, t % count;
    var at := CursorAfter(n, budget, cursor, i);
    StartAdvances(n, budget, cursor, i);
    assert t == i * count + j;
    PositionOfTurn(n, at, cursor + i * count, j);
    AheadReaches(n, cursor, p);
    assert RecheckSlice(n, budget, at).picked[j] == (at % n + j) % n;
  }

  lemma PositionOfTurn(n: nat, at: nat, base: nat, j: nat)
    requires n > 0 && at % n == base % n
    ensures (at % n + j) % n == (base + j) % n
  {
    ModAdd(base, j, n);
  }

  lemma TurnIsInRange(t: nat, count: nat, slices: nat)
    requires count > 0 && t < slices * count
    ensures t / count < slices
  {
    assert t == (t / count) * count + t % count;
    Multiple(t / count - slices, count);
    assert (t / count - slices) * count == (t / count) * count - slices * count;
  }

  lemma RoundsNeeded(n: nat, budget: nat)
    requires n > 0
    ensures var size := SliceSize(n, budget); size > 0 && ((n + size - 1) / size) * size >= n
  {
    SliceIsBounded(n, budget, 0);
    var size := SliceSize(n, budget);
    var x := n + size - 1;
    assert x == (x / size) * size + x % size;
  }

  /** So ⌈n / size⌉ sweeps recheck the whole queue. */
  lemma EveryoneWithinRounds(n: nat, budget: nat, cursor: nat, p: nat)
    requires p < n
    ensures var size := SliceSize(n, budget); size > 0 && Rechecked(n, budget, cursor, (n + size - 1) / size, p)
  {
    RoundsNeeded(n, budget);
    var size := SliceSize(n, budget);
    EveryoneIsRechecked(n, budget, cursor, (n + size - 1) / size, p);
  }
}
