/**
 * Token buckets, and the bounded maps of buckets that must answer as if they
 * never forgot one. Amounts are reals; the clock is in milliseconds.
 */
module RateLimit {
  import opened Wrappers

  datatype Spec = Spec(capacity: real, refillPerSec: real)
  {
    predicate Valid() {
      capacity > 0.0 && refillPerSec >= 0.0
    }
  }

  /** What a bucket remembers. */
  datatype Level = Level(tokens: real, last: nat)

  function MinReal(a: real, b: real): real {
    if a <= b then a else b
  }

  function Elapsed(last: nat, now: nat): real {
    if now <= last then 0.0 else (now - last) as real / 1000.0
  }

  /** The tokens in a bucket by `now`. */
  function Refilled(spec: Spec, level: Level, now: nat): real {
    MinReal(spec.capacity, level.tokens + Elapsed(level.last, now) * spec.refillPerSec)
  }

  function NewLevel(spec: Spec, now: nat): Level {
    Level(spec.capacity, now)
  }

  predicate Grants(spec: Spec, level: Level, now: nat, cost: real) {
    Refilled(spec, level, now) >= cost
  }

  function AfterTake(spec: Spec, level: Level, now: nat, cost: real): Level {
    Level(if Grants(spec, level, now, cost) then Refilled(spec, level, now) - cost else Refilled(spec, level, now), now)
  }

  predicate InRange(spec: Spec, level: Level) {
    0.0 <= level.tokens <= spec.capacity
  }

  class TokenBucket {
    const spec: Spec
    var tokens: real
    var last: nat

    function View(): Level
      reads this
    {
      Level(tokens, last)
    }

    ghost predicate Valid()
      reads this
    {
      spec.Valid() && InRange(spec, View())
    }

    constructor (spec: Spec, now: nat)
      requires spec.Valid()
      ensures Valid() && this.spec == spec && View() == NewLevel(spec, now)
    {
      this.spec := spec;
      tokens, last := spec.capacity, now;
    }

    method Take(now: nat, cost: real) returns (ok: bool)
      requires Valid() && cost >= 0.0
      modifies this
      ensures Valid()
      ensures ok == Grants(spec, old(View()), now, cost) && View() == AfterTake(spec, old(View()), now, cost)
    {
      RefillStaysInRange(spec, View(), now);
      var elapsedSec := (if now > last then now - last else 0) as real / 1000.0;
      tokens := MinReal(spec.capacity, tokens + elapsedSec * spec.refillPerSec);
      last := now;
      if tokens < cost {
        return false;
      }
      tokens := tokens - cost;
      return true;
    }
  }

  lemma RefillStaysInRange(spec: Spec, level: Level, now: nat)
    requires spec.Valid() && InRange(spec, level)
    ensures 0.0 <= Refilled(spec, level, now) <= spec.capacity && level.tokens <= Refilled(spec, level, now)
  {
    assert Elapsed(level.last, now) * spec.refillPerSec >= 0.0;
  }

  /* ---------------------------------------------------------------- */
  /* The bound on what a bucket admits                                 */
  /* ---------------------------------------------------------------- */

  datatype Request = Request(now: nat, cost: real)

  predicate InOrder(requests: seq<Request>) {
    && (forall i :: 0 <= i < |requests| ==> requests[i].cost >= 0.0)
    && (forall i, j :: 0 <= i <= j < |requests| ==> requests[i].now <= requests[j].now)
  }

  function LevelAfter(spec: Spec, level: Level, requests: seq<Request>): Level {
    if requests == [] then level
    else
      var r := requests[|requests| - 1];
      AfterTake(spec, LevelAfter(spec, level, requests[..|requests| - 1]), r.now, r.cost)
  }

  /** The cost granted to the requests from index `from` on. */
  function Admitted(spec: Spec, level: Level, requests: seq<Request>, from: nat): real {
    if |requests| <= from then 0.0
    else
      var n := |requests| - 1;
      var r := requests[n];
      Admitted(spec, level, requests[..n], from)
      + if Grants(spec, LevelAfter(spec, level, requests[..n]), r.now, r.cost) then r.cost else 0.0
  }

  lemma {:induction false} LevelsStayInRange(spec: Spec, level: Level, requests: seq<Request>)
    requires spec.Valid() && InRange(spec, level) && InOrder(requests)
    ensures InRange(spec, LevelAfter(spec, level, requests))
    ensures requests != [] ==> LevelAfter(spec, level, requests).last == requests[|requests| - 1].now
  {
    if requests != [] {
      var n := |requests| - 1;
      LevelsStayInRange(spec, level, requests[..n]);
      RefillStaysInRange(spec, LevelAfter(spec, level, requests[..n]), requests[n].now);
    }
  }

  /** Tokens refilled between two instants. */
  function Refill(spec: Spec, a: nat, b: nat): real {
    Elapsed(a, b) * spec.refillPerSec
  }

  lemma BackedStep(admitted: real, tokens: real, capacity: real, earlier: real, refill: real, cost: real, granted: bool)
    requires admitted + tokens <= capacity + earlier
    ensures var filled := MinReal(capacity, tokens + refill);
      admitted + (if granted then cost else 0.0) + (if granted then filled - cost else filled) <= capacity + earlier + refill
  {
  }

  /** One more request since `base`: what it gets was left over or refilled in the meantime. */
  lemma OneMoreIsBacked(spec: Spec, before: Level, now: nat, cost: real, base: nat, admitted: real)
    requires base <= before.last <= now && admitted + before.tokens <= spec.capacity + Refill(spec, base, before.last)
    ensures admitted + (if Grants(spec, before, now, cost) then cost else 0.0) + AfterTake(spec, before, now, cost).tokens
            <= spec.capacity + Refill(spec, base, now)
  {
    RefillsAdd(spec, base, before.last, now);
    BackedStep(admitted, before.tokens, spec.capacity, Refill(spec, base, before.last), Refill(spec, before.last, now), cost,
               Grants(spec, before, now, cost));
  }

  lemma FirstIsBacked(spec: Spec, level: Level, now: nat, cost: real)
    ensures (if Grants(spec, level, now, cost) then cost else 0.0) + AfterTake(spec, level, now, cost).tokens <= spec.capacity + Refill(spec, now, now)
  {
    assert Elapsed(now, now) == 0.0;
  }

  /** What was admitted since request `from`, plus what is left, came from one full bucket and the refill since. */
  lemma {:induction false} AdmittedIsBacked(spec: Spec, level: Level, requests: seq<Request>, from: nat)
    requires spec.Valid() && InRange(spec, level) && InOrder(requests) && from < |requests|
    ensures Admitted(spec, level, requests, from) + LevelAfter(spec, level, requests).tokens
            <= spec.capacity + Refill(spec, requests[from].now, requests[|requests| - 1].now)
  {
    var n := |requests| - 1;
    var r, before := requests[n], LevelAfter(spec, level, requests[..n]);
    if from < n {
      AdmittedIsBacked(spec, level, requests[..n], from);
      LevelsStayInRange(spec, level, requests[..n]);
      OneMoreIsBacked(spec, before, r.now, r.cost, requests[from].now, Admitted(spec, level, requests[..n], from));
    } else {
      assert Admitted(spec, level, requests[..n], from) == 0.0;
      FirstIsBacked(spec, before, r.now, r.cost);
    }
  }

  lemma RefillsAdd(spec: Spec, a: nat, b: nat, c: nat)
    requires a <= b <= c
    ensures Refill(spec, a, b) + Refill(spec, b, c) == Refill(spec, a, c)
  {
    assert Elapsed(a, b) + Elapsed(b, c) == Elapsed(a, c);
  }

  /** Between any two requests a bucket admits at most its capacity and the refill of the time between them. */
  lemma BucketBound(spec: Spec, created: nat, requests: seq<Request>, from: nat)
    requires spec.Valid() && InOrder(requests) && from < |requests|
    ensures Admitted(spec, NewLevel(spec, created), requests, from)
            <= spec.capacity + Elapsed(requests[from].now, requests[|requests| - 1].now) * spec.refillPerSec
  {
    AdmittedIsBacked(spec, NewLevel(spec, created), requests, from);
    LevelsStayInRange(spec, NewLevel(spec, created), requests);
  }

  /* ---------------------------------------------------------------- */
  /* Exactly what a bucket admits                                      */
  /* ---------------------------------------------------------------- */

  /** What is refilled from `a` to `b`: the rate for every second in between. */
  function Earned(spec: Spec, a: nat, b: nat): real
    requires a <= b
  {
    (b - a) as real / 1000.0 * spec.refillPerSec
  }

  /** Left at `now` of a bucket that was full before request `from`, if it never overflowed since. */
  function LeftSince(spec: Spec, level: Level, requests: seq<Request>, from: nat, now: nat): real
    requires from < |requests| && requests[from].now <= now
  {
    spec.capacity + Earned(spec, requests[from].now, now) - Admitted(spec, level, requests, from)
  }

  /** Left at `now` of what the bucket began with, if it never overflowed. */
  function LeftSinceStart(spec: Spec, level: Level, requests: seq<Request>, now: nat): real
    requires level.last <= now
  {
    level.tokens + Earned(spec, level.last, now) - Admitted(spec, level, requests, 0)
  }

  /** However far back one begins to count, that much is left. */
  ghost predicate AlwaysLeaves(spec: Spec, level: Level, requests: seq<Request>, now: nat, amount: real)
    requires level.last <= now && forall i :: 0 <= i < |requests| ==> requests[i].now <= now
  {
    && amount <= spec.capacity && amount <= LeftSinceStart(spec, level, requests, now)
    && forall from :: 0 <= from < |requests| ==> amount <= LeftSince(spec, level, requests, from, now)
  }

  lemma EarnedAdds(spec: Spec, a: nat, b: nat, c: nat)
    requires a <= b <= c
    ensures Earned(spec, a, b) + Earned(spec, b, c) == Earned(spec, a, c)
  {
    assert (b - a) as real / 1000.0 + (c - b) as real / 1000.0 == (c - a) as real / 1000.0;
  }

  /** What the last request took. */
  function Took(spec: Spec, level: Level, requests: seq<Request>): real
    requires requests != []
  {
    var n := |requests| - 1;
    if Grants(spec, LevelAfter(spec, level, requests[..n]), requests[n].now, requests[n].cost) then requests[n].cost else 0.0
  }

  lemma AdmittedSnoc(spec: Spec, level: Level, requests: seq<Request>, from: nat)
    requires from < |requests|
    ensures Admitted(spec, level, requests, from) == Admitted(spec, level, requests[..|requests| - 1], from) + Took(spec, level, requests)
  {
  }

  /** One more request takes what it took from all that is left, and the time after it adds the same to all. */
  lemma LeftShifts(spec: Spec, level: Level, requests: seq<Request>, from: nat, now: nat)
    requires from < |requests| && InOrder(requests) && requests[|requests| - 1].now <= now
    ensures var n := |requests| - 1;
      requests[from].now <= requests[n].now && LeftSince(spec, level, requests, from, now)
      == Earned(spec, requests[n].now, now) - Took(spec, level, requests)
         + if from < n then LeftSince(spec, level, requests[..n], from, requests[n].now) else spec.capacity
  {
    var n := |requests| - 1;
    EarnedAdds(spec, requests[from].now, requests[n].now, now);
    AdmittedSnoc(spec, level, requests, from);
    if from == n {
      assert Earned(spec, requests[n].now, requests[n].now) == 0.0;
    }
  }

  lemma StartShifts(spec: Spec, level: Level, requests: seq<Request>, now: nat)
    requires requests != [] && InOrder(requests) && level.last <= requests[0].now && requests[|requests| - 1].now <= now
    ensures var n := |requests| - 1;
      level.last <= requests[n].now && LeftSinceStart(spec, level, requests, now)
      == Earned(spec, requests[n].now, now) - Took(spec, level, requests) + LeftSinceStart(spec, level, requests[..n], requests[n].now)
  {
    var n := |requests| - 1;
    assert requests[0].now <= requests[n].now;
    EarnedAdds(spec, level.last, requests[n].now, now);
    AdmittedSnoc(spec, level, requests, 0);
  }

  lemma OneMoreLeaves(spec: Spec, level: Level, requests: seq<Request>, now: nat, amount: real)
    requires requests != [] && InOrder(requests) && level.last <= requests[0].now && requests[|requests| - 1].now <= now
    ensures level.last <= requests[|requests| - 1].now
    ensures AlwaysLeaves(spec, level, requests, now, amount) <==>
      amount <= spec.capacity
      && AlwaysLeaves(spec, level, requests[..|requests| - 1], requests[|requests| - 1].now,
                      amount + Took(spec, level, requests) - Earned(spec, requests[|requests| - 1].now, now))
  {
    var n := |requests| - 1;
    var shift := Took(spec, level, requests) - Earned(spec, requests[n].now, now);
    StartShifts(spec, level, requests, now);
    LeftShifts(spec, level, requests, n, now);
    forall from | 0 <= from < n
      ensures LeftSince(spec, level, requests, from, now) == LeftSince(spec, level, requests[..n], from, requests[n].now) - shift
    {
      LeftShifts(spec, level, requests, from, now);
    }
    assert amount <= LeftSince(spec, level, requests, n, now) <==> amount + shift <= spec.capacity;
  }

  lemma RefilledAfterTake(spec: Spec, before: Level, at: nat, cost: real, now: nat)
    requires at <= now
    ensures Refilled(spec, AfterTake(spec, before, at, cost), now)
      == MinReal(spec.capacity, Refilled(spec, before, at) - (if Grants(spec, before, at, cost) then cost else 0.0) + Earned(spec, at, now))
  {
    assert Elapsed(at, now) == (now - at) as real / 1000.0;
  }

  /** What a bucket holds at `now`, once refilled, is the least of what is left, however far back one begins to count. */
  lemma {:induction false} HoldsWhatIsLeft(spec: Spec, level: Level, requests: seq<Request>, now: nat, amount: real)
    requires InOrder(requests) && level.last <= now
    requires requests != [] ==> level.last <= requests[0].now && requests[|requests| - 1].now <= now
    ensures forall i :: 0 <= i < |requests| ==> requests[i].now <= now
    ensures Refilled(spec, LevelAfter(spec, level, requests), now) >= amount <==> AlwaysLeaves(spec, level, requests, now, amount)
  {
    if requests != [] {
      var n := |requests| - 1;
      OneMoreLeaves(spec, level, requests, now, amount);
      HoldsWhatIsLeft(spec, level, requests[..n], requests[n].now, amount + Took(spec, level, requests) - Earned(spec, requests[n].now, now));
      RefilledAfterTake(spec, LevelAfter(spec, level, requests[..n]), requests[n].now, requests[n].cost, now);
    } else {
      assert Elapsed(level.last, now) == (now - level.last) as real / 1000.0;
      assert Admitted(spec, level, requests, 0) == 0.0;
    }
  }

  /**
   * A bucket grants a request exactly when, however far back one begins to
   * count, a full bucket and the refill since cover it and all that was granted
   * since: it refuses nobody who stays within the rate.
   */
  lemma GrantedIffWithinRate(spec: Spec, created: nat, requests: seq<Request>, now: nat, cost: real)
    requires spec.Valid() && InOrder(requests) && created <= now
    requires requests != [] ==> created <= requests[0].now && requests[|requests| - 1].now <= now
    ensures forall i :: 0 <= i < |requests| ==> requests[i].now <= now
    ensures Grants(spec, LevelAfter(spec, NewLevel(spec, created), requests), now, cost) <==>
            AlwaysLeaves(spec, Level(spec.capacity, created), requests, now, cost)
  {
    HoldsWhatIsLeft(spec, Level(spec.capacity, created), requests, now, cost);
  }

  /* ---------------------------------------------------------------- */
  /* Forgetting a full bucket                                          */
  /* ---------------------------------------------------------------- */

  /** Share of capacity available. */
  function Fill(spec: Spec, level: Level, now: nat): real
    requires spec.Valid()
  {
    MinReal(1.0, (level.tokens + Elapsed(level.last, now) * spec.refillPerSec) / spec.capacity)
  }

  predicate Full(spec: Spec, level: Level, now: nat)
    requires spec.Valid()
  {
    Fill(spec, level, now) >= 1.0
  }

  lemma FullIsRefilled(spec: Spec, level: Level, now: nat)
    requires spec.Valid()
    ensures Full(spec, level, now) <==> Refilled(spec, level, now) == spec.capacity
  {
    var x := level.tokens + Elapsed(level.last, now) * spec.refillPerSec;
    assert x == (x / spec.capacity) * spec.capacity;
    if x / spec.capacity >= 1.0 {
      assert (x / spec.capacity - 1.0) * spec.capacity >= 0.0;
    } else {
      assert (1.0 - x / spec.capacity) * spec.capacity > 0.0;
    }
  }

  lemma FullStaysFull(spec: Spec, level: Level, now: nat, later: nat)
    requires spec.Valid() && now <= later && Refilled(spec, level, now) == spec.capacity
    ensures Refilled(spec, level, later) == spec.capacity
  {
    var d := Elapsed(level.last, later) - Elapsed(level.last, now);
    assert d >= 0.0;
    assert Elapsed(level.last, later) * spec.refillPerSec == Elapsed(level.last, now) * spec.refillPerSec + d * spec.refillPerSec;
    assert d * spec.refillPerSec >= 0.0;
  }

  /** Dropping a full bucket loses nothing: a new one grants and becomes the same. */
  lemma NewIsAsGoodAsFull(spec: Spec, level: Level, now: nat, cost: real)
    requires spec.Valid() && Refilled(spec, level, now) == spec.capacity
    ensures Grants(spec, level, now, cost) == Grants(spec, NewLevel(spec, now), now, cost)
    ensures AfterTake(spec, level, now, cost) == AfterTake(spec, NewLevel(spec, now), now, cost)
  {
  }

  type Key = string

  /** `kept` answers like `all`: it holds the same levels, and what it dropped is full. */
  ghost predicate Simulates(spec: Spec, kept: map<Key, Level>, all: map<Key, Level>, clock: nat) {
    && (forall k :: k in kept ==> k in all && kept[k] == all[k])
    && (forall k :: k in all && k !in kept ==> Refilled(spec, all[k], clock) == spec.capacity)
  }

  function LevelOf(spec: Spec, levels: map<Key, Level>, k: Key, now: nat): Level {
    if k in levels then levels[k] else NewLevel(spec, now)
  }

  /** A map that dropped only full buckets grants what the full map grants, and stays in step with it. */
  lemma SimulationStep(spec: Spec, kept: map<Key, Level>, all: map<Key, Level>, clock: nat, k: Key, now: nat, cost: real)
    requires spec.Valid() && Simulates(spec, kept, all, clock) && clock <= now
    ensures Grants(spec, LevelOf(spec, kept, k, now), now, cost) == Grants(spec, LevelOf(spec, all, k, now), now, cost)
    ensures Simulates(spec, kept[k := AfterTake(spec, LevelOf(spec, kept, k, now), now, cost)],
                      all[k := AfterTake(spec, LevelOf(spec, all, k, now), now, cost)], now)
  {
    SimulatesLater(spec, kept, all, clock, now);
    if k in all && k !in kept {
      NewIsAsGoodAsFull(spec, all[k], now, cost);
    }
  }

  lemma SimulatesLater(spec: Spec, kept: map<Key, Level>, all: map<Key, Level>, clock: nat, now: nat)
    requires spec.Valid() && Simulates(spec, kept, all, clock) && clock <= now
    ensures Simulates(spec, kept, all, now)
  {
    forall k | k in all && k !in kept ensures Refilled(spec, all[k], now) == spec.capacity {
      FullStaysFull(spec, all[k], clock, now);
    }
  }

  lemma DropFull(spec: Spec, kept: map<Key, Level>, all: map<Key, Level>, now: nat, dropped: set<Key>)
    requires spec.Valid() && Simulates(spec, kept, all, now)
    requires forall k :: k in dropped && k in kept ==> Full(spec, kept[k], now)
    ensures Simulates(spec, kept - dropped, all, now)
  {
    forall k | k in all && k !in kept - dropped ensures Refilled(spec, all[k], now) == spec.capacity {
      if k in kept {
        FullIsRefilled(spec, kept[k], now);
      }
    }
  }

  /* ---------------------------------------------------------------- */
  /* The bounded map                                                   */
  /* ---------------------------------------------------------------- */

  const EVICTION_SCAN: nat := 64

  datatype Slot = Slot(key: Key, level: Level)

  /** The entries as a map, and how many slots `n` of them are inspected. */
  function Levels(entries: seq<Slot>): map<Key, Level> {
    if entries == [] then map[] else Levels(entries[..|entries| - 1])[entries[|entries| - 1].key := entries[|entries| - 1].level]
  }

  ghost predicate Unique(entries: seq<Slot>) {
    forall i, j :: 0 <= i < j < |entries| ==> entries[i].key != entries[j].key
  }

  lemma {:induction false} LevelsFacts(entries: seq<Slot>)
    requires Unique(entries)
    ensures forall i :: 0 <= i < |entries| ==> entries[i].key in Levels(entries) && Levels(entries)[entries[i].key] == entries[i].level
    ensures forall k :: k in Levels(entries) ==> exists i :: 0 <= i < |entries| && entries[i].key == k
  {
    if entries != [] {
      LevelsFacts(entries[..|entries| - 1]);
    }
  }

  /** Among the oldest entries the first full one goes, else the first of the fullest. */
  predicate IsVictim(spec: Spec, entries: seq<Slot>, v: nat, now: nat)
    requires spec.Valid()
  {
    && v < |entries| && v < EVICTION_SCAN
    && (forall i :: 0 <= i < v ==> !Full(spec, entries[i].level, now))
    && (Full(spec, entries[v].level, now)
        || ((forall i :: 0 <= i < |entries| && i < EVICTION_SCAN ==> !Full(spec, entries[i].level, now))
            && (forall i :: 0 <= i < |entries| && i < EVICTION_SCAN ==> Fill(spec, entries[i].level, now) <= Fill(spec, entries[v].level, now))
            && (forall i :: 0 <= i < v ==> Fill(spec, entries[i].level, now) < Fill(spec, entries[v].level, now))))
  }

  method ChooseVictim(spec: Spec, entries: seq<Slot>, now: nat) returns (v: nat)
    requires spec.Valid() && entries != []
    ensures IsVictim(spec, entries, v, now)
  {
    v := 0;
    var i := 0;
    while i < |entries| && i < EVICTION_SCAN
      invariant 0 <= i <= |entries| && i <= EVICTION_SCAN
      invariant i > 0 ==> v < i
      invariant i == 0 ==> v == 0
      invariant forall x :: 0 <= x < i ==> !Full(spec, entries[x].level, now)
      invariant forall x :: 0 <= x < i ==> Fill(spec, entries[x].level, now) <= Fill(spec, entries[v].level, now)
      invariant i > 0 ==> forall x :: 0 <= x < v ==> Fill(spec, entries[x].level, now) < Fill(spec, entries[v].level, now)
    {
      if Full(spec, entries[i].level, now) {
        return i;
      }
      if i == 0 || Fill(spec, entries[i].level, now) > Fill(spec, entries[v].level, now) {
        v := i;
      }
      i := i + 1;
    }
  }

  lemma SliceIsUnique(entries: seq<Slot>, i: nat)
    requires Unique(entries) && i < |entries|
    ensures Unique(entries[..i] + entries[i + 1..])
  {
    var rest := entries[..i] + entries[i + 1..];
    assert forall x :: 0 <= x < |rest| ==> rest[x] == entries[if x < i then x else x + 1];
  }

  lemma DropAndSet(levels: map<Key, Level>, k: Key, x: Key, level: Level)
    ensures k != x ==> (levels - {k})[x := level] == levels[x := level] - {k}
    ensures k !in levels ==> levels[k := level] - {k} == levels
  {
  }

  lemma {:induction false} RemoveSlot(entries: seq<Slot>, i: nat)
    requires Unique(entries) && i < |entries|
    ensures Unique(entries[..i] + entries[i + 1..])
    ensures Levels(entries[..i] + entries[i + 1..]) == Levels(entries) - {entries[i].key}
  {
    var n := |entries| - 1;
    var init, last := entries[..n], entries[n];
    SliceIsUnique(entries, i);
    assert entries == init + [last];
    LevelsSnoc(init, last);
    DropAndSet(Levels(init), entries[i].key, last.key, last.level);
    if i == n {
      LevelsFacts(init);
      assert entries[..i] + entries[i + 1..] == init;
    } else {
      RemoveSlot(init, i);
      var shorter := init[..i] + init[i + 1..];
      assert entries[..i] + entries[i + 1..] == shorter + [last];
      LevelsSnoc(shorter, last);
    }
  }

  lemma LevelsSnoc(entries: seq<Slot>, slot: Slot)
    ensures Levels(entries + [slot]) == Levels(entries)[slot.key := slot.level]
  {
    assert (entries + [slot])[..|entries|] == entries;
  }

  lemma AppendSlot(entries: seq<Slot>, slot: Slot)
    requires Unique(entries) && slot.key !in Levels(entries)
    ensures Unique(entries + [slot]) && Levels(entries + [slot]) == Levels(entries)[slot.key := slot.level]
  {
    LevelsFacts(entries);
    assert (entries + [slot])[..|entries|] == entries;
  }

  class IpBuckets {
    const spec: Spec
    const maxKeys: nat
    /** Least recently used first. */
    var entries: seq<Slot>
    /** The map an instance without a bound would hold, and whether only full buckets were evicted so far. */
    ghost var all: map<Key, Level>
    ghost var lossless: bool
    ghost var clock: nat

    ghost predicate Valid()
      reads this
    {
      && spec.Valid() && Unique(entries) && |entries| <= Max(1, maxKeys)
      && (lossless ==> Simulates(spec, Levels(entries), all, clock))
    }

    constructor (spec: Spec, maxKeys: nat)
      requires spec.Valid()
      ensures Valid() && this.spec == spec && this.maxKeys == maxKeys && all == map[] && lossless && clock == 0
    {
      this.spec, this.maxKeys := spec, maxKeys;
      entries, all, lossless, clock := [], map[], true, 0;
    }

    /** A refilled bucket is among the oldest. */
    ghost predicate CanEvictFull(now: nat)
      requires spec.Valid()
      reads this
    {
      exists i :: 0 <= i < |entries| && i < EVICTION_SCAN && Full(spec, entries[i].level, now)
    }

    predicate MustEvict(k: Key)
      reads this
    {
      k !in Levels(entries) && |entries| >= maxKeys && entries != []
    }

    method EvictOne(now: nat)
      requires Valid() && entries != [] && now >= clock
      modifies this`entries, this`lossless, this`clock
      ensures Valid() && |entries| == |old(entries)| - 1 && clock == now
      ensures lossless == (old(lossless) && old(CanEvictFull(now)))
      ensures forall k :: k in Levels(entries) ==> k in Levels(old(entries))
    {
      var v := ChooseVictim(spec, entries, now);
      LevelsFacts(entries);
      RemoveSlot(entries, v);
      if lossless {
        SimulatesLater(spec, Levels(entries), all, clock, now);
        if Full(spec, entries[v].level, now) {
          DropFull(spec, Levels(entries), all, now, {entries[v].key});
        }
      }
      lossless := lossless && Full(spec, entries[v].level, now);
      clock := now;
      entries := entries[..v] + entries[v + 1..];
    }

    /** Takes the bucket of `k` out of the map, or makes a new one, with room for it at the end. */
    method Detach(k: Key, now: nat) returns (level: Level)
      requires Valid() && now >= clock
      modifies this`entries, this`lossless, this`clock
      ensures Unique(entries) && k !in Levels(entries) && |entries| + 1 <= Max(1, maxKeys) && clock >= old(clock) && clock <= now
      ensures lossless == (old(lossless) && (old(MustEvict(k)) ==> old(CanEvictFull(now))))
      ensures lossless ==> Follows(Levels(entries), level, k, now)
    {
      var i := Find(k);
      LevelsFacts(entries);
      if i < |entries| {
        level := entries[i].level;
        RemoveSlot(entries, i);
        SimulationTake(k, now);
        entries := entries[..i] + entries[i + 1..];
      } else {
        if |entries| >= maxKeys && entries != [] {
          EvictOne(now);
        }
        level := NewLevel(spec, now);
        SimulationTake(k, now);
        assert Levels(entries) - {k} == Levels(entries);
      }
    }

    /** The detached bucket answers like the unbounded map's, and putting it back keeps the two in step. */
    ghost predicate Follows(others: map<Key, Level>, level: Level, k: Key, now: nat)
      reads this
    {
      && Grants(spec, level, now, 1.0) == Grants(spec, LevelOf(spec, all, k, now), now, 1.0)
      && Simulates(spec, others[k := AfterTake(spec, level, now, 1.0)], all[k := AfterTake(spec, LevelOf(spec, all, k, now), now, 1.0)], now)
    }

    /**
     * As long as every eviction so far found a full bucket among the oldest,
     * the answer is that of a map that never forgets.
     */
    method Allow(k: Key, now: nat) returns (ok: bool)
      requires Valid() && now >= clock
      modifies this
      ensures Valid() && clock == now
      ensures lossless == (old(lossless) && (old(MustEvict(k)) ==> old(CanEvictFull(now))))
      ensures lossless ==> ok == Grants(spec, LevelOf(spec, old(all), k, now), now, 1.0)
      ensures all == old(all)[k := AfterTake(spec, LevelOf(spec, old(all), k, now), now, 1.0)]
    {
      var level := Detach(k, now);
      ok := Grants(spec, level, now, 1.0);
      var slot := Slot(k, AfterTake(spec, level, now, 1.0));
      AppendSlot(entries, slot);
      all := all[k := AfterTake(spec, LevelOf(spec, all, k, now), now, 1.0)];
      clock := now;
      entries := entries + [slot];
    }

    lemma SimulationTake(k: Key, now: nat)
      requires spec.Valid() && now >= clock
      requires lossless ==> Simulates(spec, Levels(entries), all, clock)
      ensures lossless ==> Follows(Levels(entries) - {k}, LevelOf(spec, Levels(entries), k, now), k, now)
    {
      if lossless {
        SimulationStep(spec, Levels(entries), all, clock, k, now, 1.0);
        var after := AfterTake(spec, LevelOf(spec, Levels(entries), k, now), now, 1.0);
        assert (Levels(entries) - {k})[k := after] == Levels(entries)[k := after];
      }
    }

    method Find(k: Key) returns (i: nat)
      requires Unique(entries)
      ensures i <= |entries| && (i < |entries| ==> entries[i].key == k)
      ensures i == |entries| <==> k !in Levels(entries)
    {
      i := 0;
      LevelsFacts(entries);
      while i < |entries| && entries[i].key != k
        invariant 0 <= i <= |entries|
        invariant forall x :: 0 <= x < i ==> entries[x].key != k
      {
        i := i + 1;
      }
    }
  }

  /* ---------------------------------------------------------------- */
  /* The connection gate                                               */
  /* ---------------------------------------------------------------- */

  datatype Refusal = TooManyConnections | RateLimited

  datatype Limits = Limits(perIp: nat, perNetwork: nat)

  function CountOf(counts: map<Key, nat>, k: Key): nat {
    if k in counts then counts[k] else 0
  }

  /** Only keys with an open connection are kept, each with how many. */
  ghost predicate Counts(counts: map<Key, nat>, open: multiset<Key>) {
    forall k :: CountOf(counts, k) == open[k] && (k in counts ==> counts[k] > 0)
  }

  const PRUNE_EVERY_MS: nat := 60_000

  /** One connection fewer under `k`, if there is one. */
  ghost function Closing(open: multiset<Key>, k: Key): multiset<Key> {
    open - multiset{k}
  }

  class ConnectionGate {
    const limits: Limits
    const ipSpec: Spec
    const networkRate: IpBuckets
    var perIp: map<Key, nat>
    var perNetwork: map<Key, nat>
    var connectRate: map<Key, Level>
    var lastPrune: nat
    ghost var openIps: multiset<Key>
    ghost var openNetworks: multiset<Key>
    ghost var allRates: map<Key, Level>
    ghost var clock: nat

    ghost predicate Valid()
      reads this, networkRate
    {
      && ipSpec.Valid() && networkRate.Valid() && networkRate.clock <= clock
      && Counts(perIp, openIps) && Counts(perNetwork, openNetworks)
      && Simulates(ipSpec, connectRate, allRates, clock)
    }

    constructor (limits: Limits, ipSpec: Spec, networkRate: IpBuckets, now: nat)
      requires ipSpec.Valid() && networkRate.Valid() && networkRate.clock <= now
      ensures Valid() && this.networkRate == networkRate && this.limits == limits && this.ipSpec == ipSpec
      ensures openIps == multiset{} && openNetworks == multiset{} && allRates == map[] && clock == now
    {
      this.limits, this.ipSpec, this.networkRate := limits, ipSpec, networkRate;
      perIp, perNetwork, connectRate, lastPrune := map[], map[], map[], now;
      openIps, openNetworks, allRates, clock := multiset{}, multiset{}, map[], now;
    }

    /** Drops refilled buckets; nobody can tell. */
    method Prune(now: nat)
      requires Valid() && now >= clock
      modifies this`connectRate, this`lastPrune, this`clock
      ensures Valid() && clock == now
    {
      SimulatesLater(ipSpec, connectRate, allRates, clock, now);
      clock := now;
      if now - lastPrune >= PRUNE_EVERY_MS {
        lastPrune := now;
        var dropped := set k | k in connectRate && Full(ipSpec, connectRate[k], now);
        DropFull(ipSpec, connectRate, allRates, now, dropped);
        connectRate := connectRate - dropped;
      }
    }

    /**
     * Refused for too many open connections exactly when a cap is reached; for
     * the rate exactly when the address's bucket, as if none had been pruned,
     * or then the network's is empty.
     */
    method Admit(ip: Key, network: Key, now: nat) returns (refusal: Option<Refusal>)
      requires Valid() && now >= clock
      modifies this`connectRate, this`lastPrune, this`clock, this`allRates, networkRate
      ensures Valid() && clock == now
      ensures refusal == Some(TooManyConnections) <==> openIps[ip] >= limits.perIp || openNetworks[network] >= limits.perNetwork
      ensures refusal == Some(TooManyConnections) ==> allRates == old(allRates) && networkRate.all == old(networkRate.all)
      ensures refusal != Some(TooManyConnections) ==>
        var level := LevelOf(ipSpec, old(allRates), ip, now);
        && allRates == old(allRates)[ip := AfterTake(ipSpec, level, now, 1.0)]
        && (!Grants(ipSpec, level, now, 1.0) ==> refusal == Some(RateLimited) && networkRate.all == old(networkRate.all))
        && (Grants(ipSpec, level, now, 1.0) && networkRate.lossless ==>
              (refusal == None <==>
                 Grants(networkRate.spec, LevelOf(networkRate.spec, old(networkRate.all), network, now), now, 1.0)))
    {
      if CountOf(perIp, ip) >= limits.perIp || CountOf(perNetwork, network) >= limits.perNetwork {
        SimulatesLater(ipSpec, connectRate, allRates, clock, now);
        clock := now;
        return Some(TooManyConnections);
      }
      Prune(now);
      var granted := TakeIp(ip, now);
      if !granted {
        return Some(RateLimited);
      }
      var allowed := networkRate.Allow(network, now);
      return if allowed then None else Some(RateLimited);
    }

    method TakeIp(ip: Key, now: nat) returns (granted: bool)
      requires Valid() && now == clock
      modifies this`connectRate, this`allRates
      ensures Valid()
      ensures granted == Grants(ipSpec, LevelOf(ipSpec, old(allRates), ip, now), now, 1.0)
      ensures allRates == old(allRates)[ip := AfterTake(ipSpec, LevelOf(ipSpec, old(allRates), ip, now), now, 1.0)]
    {
      SimulationStep(ipSpec, connectRate, allRates, clock, ip, now, 1.0);
      var level := LevelOf(ipSpec, connectRate, ip, now);
      granted := Grants(ipSpec, level, now, 1.0);
      connectRate := connectRate[ip := AfterTake(ipSpec, level, now, 1.0)];
      allRates := allRates[ip := AfterTake(ipSpec, LevelOf(ipSpec, allRates, ip, now), now, 1.0)];
    }

    method Opened(ip: Key, network: Key)
      requires Valid()
      modifies this`perIp, this`perNetwork, this`openIps, this`openNetworks
      ensures Valid() && openIps == old(openIps) + multiset{ip} && openNetworks == old(openNetworks) + multiset{network}
    {
      IncrementCounts(perIp, openIps, ip);
      IncrementCounts(perNetwork, openNetworks, network);
      perIp := Increment(perIp, ip);
      perNetwork := Increment(perNetwork, network);
      openIps := openIps + multiset{ip};
      openNetworks := openNetworks + multiset{network};
    }

    /** Closing a connection nobody counted changes nothing. */
    method Closed(ip: Key, network: Key)
      requires Valid()
      modifies this`perIp, this`perNetwork, this`openIps, this`openNetworks
      ensures Valid() && openIps == Closing(old(openIps), ip) && openNetworks == Closing(old(openNetworks), network)
    {
      CloseIp(ip);
      DecrementCounts(perNetwork, openNetworks, network);
      perNetwork := Decrement(perNetwork, network);
      openNetworks := Closing(openNetworks, network);
    }

    method CloseIp(ip: Key)
      requires Valid()
      modifies this`perIp, this`openIps
      ensures Valid() && openIps == Closing(old(openIps), ip)
    {
      DecrementCounts(perIp, openIps, ip);
      perIp := Decrement(perIp, ip);
      openIps := Closing(openIps, ip);
    }
  }

  function Increment(counts: map<Key, nat>, k: Key): map<Key, nat> {
    counts[k := CountOf(counts, k) + 1]
  }

  function Decrement(counts: map<Key, nat>, k: Key): map<Key, nat> {
    var count := if k in counts then counts[k] else 1;
    if count <= 1 then counts - {k} else counts[k := count - 1]
  }

  lemma IncrementCounts(counts: map<Key, nat>, open: multiset<Key>, k: Key)
    requires Counts(counts, open)
    ensures Counts(Increment(counts, k), open + multiset{k})
  {
    forall x ensures CountOf(Increment(counts, k), x) == (open + multiset{k})[x] {
      assert CountOf(counts, x) == open[x];
    }
  }

  lemma DecrementCounts(counts: map<Key, nat>, open: multiset<Key>, k: Key)
    requires Counts(counts, open)
    ensures Counts(Decrement(counts, k), Closing(open, k))
  {
    var counts', open' := Decrement(counts, k), Closing(open, k);
    forall x ensures CountOf(counts', x) == open'[x] && (x in counts' ==> counts'[x] > 0) {
      assert CountOf(counts, x) == open[x];
      assert open'[x] == if x == k && open[x] > 0 then open[x] - 1 else open[x];
    }
  }
}
