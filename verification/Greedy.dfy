/**
 * The matching a FIFO pass computes, independent of how a pass is run.
 * Waiters are the indices 0..n of the queue and `m(i, j)` says whether i and j
 * may be paired, i being the older one.
 */
module Greedy {
  import opened Wrappers

  type Relation = (nat, nat) -> bool

  datatype Pairing = Pairing(i: nat, j: nat)

  /** The oldest waiter after `k` that is free and may be paired with i. */
  function FirstPartner(m: Relation, n: nat, i: nat, k: nat, taken: set<nat>): (r: Option<nat>)
    requires k <= n
    ensures r.Some? ==> k <= r.value < n && r.value !in taken && m(i, r.value)
    ensures forall x :: k <= x < (if r.Some? then r.value else n) && x !in taken ==> !m(i, x)
    decreases n - k
  {
    if k == n then None
    else if k !in taken && m(i, k) then Some(k)
    else FirstPartner(m, n, i, k + 1, taken)
  }

  /** Oldest first, each waiter takes the oldest free partner after it. */
  function Pass(m: Relation, n: nat, i: nat, taken: set<nat>): seq<Pairing>
    requires i <= n
    decreases n - i
  {
    if i == n then []
    else if i in taken then Pass(m, n, i + 1, taken)
    else
      match FirstPartner(m, n, i, i + 1, taken)
      case None => Pass(m, n, i + 1, taken)
      case Some(j) => [Pairing(i, j)] + Pass(m, n, i + 1, taken + {i, j})
  }

  function FullPass(m: Relation, n: nat): seq<Pairing> {
    Pass(m, n, 0, {})
  }

  predicate Before(p: Pairing, q: Pairing) {
    p.i < q.i || (p.i == q.i && p.j < q.j)
  }

  predicate Meet(p: Pairing, q: Pairing) {
    p.i == q.i || p.i == q.j || p.j == q.i || p.j == q.j
  }

  predicate Has(p: Pairing, x: nat) {
    p.i == x || p.j == x
  }

  ghost predicate Candidates(m: Relation, n: nat, p: Pairing) {
    p.i < p.j < n && m(p.i, p.j)
  }

  /**
   * The lexicographically greedy matching: pairs that may be paired, no waiter
   * in two of them, and every other possible pair lost a member to a created
   * pair that comes earlier in queue order.
   */
  ghost predicate IsGreedy(m: Relation, n: nat, pairs: set<Pairing>) {
    && (forall p :: p in pairs ==> Candidates(m, n, p))
    && (forall p, q :: p in pairs && q in pairs && p != q ==> !Meet(p, q))
    && (forall p :: Candidates(m, n, p) && p !in pairs ==> exists q :: q in pairs && Meet(p, q) && Before(q, p))
  }

  function Elements(s: seq<Pairing>): set<Pairing> {
    set p | p in s
  }

  /** The greedy matching is unique: IsGreedy says everything about a pass. */
  lemma {:induction false} GreedyIsUnique(m: Relation, n: nat, ps: set<Pairing>, qs: set<Pairing>)
    requires IsGreedy(m, n, ps) && IsGreedy(m, n, qs)
    ensures ps == qs
  {
    forall p | p in ps || p in qs ensures p in ps && p in qs {
      GreedyAgreesAt(m, n, ps, qs, p);
    }
  }

  lemma {:induction false} GreedyAgreesAt(m: Relation, n: nat, ps: set<Pairing>, qs: set<Pairing>, p: Pairing)
    requires IsGreedy(m, n, ps) && IsGreedy(m, n, qs)
    ensures p in ps <==> p in qs
    decreases p.i, p.j
  {
    if p in ps && p !in qs {
      var q :| q in qs && Meet(p, q) && Before(q, p);
      GreedyAgreesAt(m, n, ps, qs, q);
    } else if p in qs && p !in ps {
      var q :| q in ps && Meet(p, q) && Before(q, p);
      GreedyAgreesAt(m, n, ps, qs, q);
    }
  }

  /**
   * What holds of the pairs `ps` a pass creates when it resumes at row i with
   * the waiters in `taken` already gone.
   */
  ghost predicate Resumes(m: Relation, n: nat, i: nat, taken: set<nat>, ps: seq<Pairing>) {
    && (forall p :: p in ps ==> Candidates(m, n, p) && i <= p.i && p.i !in taken && p.j !in taken)
    && (forall x, y :: 0 <= x < y < |ps| ==> ps[x].i < ps[y].i && !Meet(ps[x], ps[y]))
    && (forall p :: Open(m, n, i, taken, p) && p !in ps ==> exists q :: q in ps && Meet(p, q) && Before(q, p))
  }

  /** A pair a resumed pass may still create. */
  ghost predicate Open(m: Relation, n: nat, i: nat, taken: set<nat>, p: Pairing) {
    Candidates(m, n, p) && i <= p.i && p.i !in taken && p.j !in taken
  }

  lemma {:induction false} PassFacts(m: Relation, n: nat, i: nat, taken: set<nat>)
    requires i <= n
    ensures Resumes(m, n, i, taken, Pass(m, n, i, taken))
    decreases n - i
  {
    if i < n && i in taken {
      PassFacts(m, n, i + 1, taken);
    } else if i < n {
      var partner := FirstPartner(m, n, i, i + 1, taken);
      if partner == None {
        PassFacts(m, n, i + 1, taken);
      } else {
        PassFacts(m, n, i + 1, taken + {i, partner.value});
        ConsResumes(m, n, i, taken, partner.value, Pass(m, n, i + 1, taken + {i, partner.value}));
      }
    }
  }

  lemma ConsResumes(m: Relation, n: nat, i: nat, taken: set<nat>, j: nat, rest: seq<Pairing>)
    requires i < j < n && i !in taken && j !in taken && m(i, j)
    requires forall x: nat :: i < x < j && x !in taken ==> !m(i, x)
    requires Resumes(m, n, i + 1, taken + {i, j}, rest)
    ensures Resumes(m, n, i, taken, [Pairing(i, j)] + rest)
  {
    var head := Pairing(i, j);
    var ps := [head] + rest;
    assert ps[0] == head && ps[1..] == rest;
    forall p | p in ps ensures Candidates(m, n, p) && i <= p.i && p.i !in taken && p.j !in taken {
      assert p == head || p in rest;
    }
    forall x, y | 0 <= x < y < |ps| ensures ps[x].i < ps[y].i && !Meet(ps[x], ps[y]) {
      assert ps[y] == rest[y - 1] && rest[y - 1] in rest;
      assert x > 0 ==> ps[x] == rest[x - 1];
    }
    forall p | Open(m, n, i, taken, p) && p !in ps ensures exists q :: q in ps && Meet(p, q) && Before(q, p) {
      ConsBlocks(m, n, i, taken, j, rest, p);
    }
  }

  /** A pair left open by the head and the rest lost a member to one of them. */
  lemma ConsBlocks(m: Relation, n: nat, i: nat, taken: set<nat>, j: nat, rest: seq<Pairing>, p: Pairing)
    requires i < j < n && i !in taken && j !in taken && m(i, j)
    requires forall x: nat :: i < x < j && x !in taken ==> !m(i, x)
    requires Resumes(m, n, i + 1, taken + {i, j}, rest)
    requires Open(m, n, i, taken, p) && p !in [Pairing(i, j)] + rest
    ensures exists q :: q in [Pairing(i, j)] + rest && Meet(p, q) && Before(q, p)
  {
    var head := Pairing(i, j);
    var ps := [head] + rest;
    assert ps[0] == head && forall q :: q in rest ==> q in ps;
    if Meet(p, head) {
      assert Before(head, p);
    } else {
      assert Open(m, n, i + 1, taken + {i, j}, p);
      var q :| q in rest && Meet(p, q) && Before(q, p);
      assert q in ps;
    }
  }

  /** A full pass yields the greedy matching and nothing else, rows in ascending order. */
  lemma FullPassIsGreedy(m: Relation, n: nat)
    ensures IsGreedy(m, n, Elements(FullPass(m, n)))
    ensures forall x, y :: 0 <= x < y < |FullPass(m, n)| ==> FullPass(m, n)[x].i < FullPass(m, n)[y].i
  {
    PassFacts(m, n, 0, {});
    ResumedIsGreedy(m, n, FullPass(m, n));
  }

  lemma ResumedIsGreedy(m: Relation, n: nat, ps: seq<Pairing>)
    requires Resumes(m, n, 0, {}, ps)
    ensures IsGreedy(m, n, Elements(ps))
  {
    forall p, q | p in ps && q in ps && p != q ensures !Meet(p, q) {
      var x :| 0 <= x < |ps| && ps[x] == p;
      var y :| 0 <= y < |ps| && ps[y] == q;
      assert x < y || y < x;
    }
    forall p | Candidates(m, n, p) && p !in ps ensures exists q :: q in Elements(ps) && Meet(p, q) && Before(q, p) {
      assert Open(m, n, 0, {}, p);
    }
  }

  /** Two passes that create the same set of pairs create them in the same order. */
  lemma {:induction false} AscendingIsCanonical(s: seq<Pairing>, t: seq<Pairing>)
    requires Elements(s) == Elements(t)
    requires forall x, y :: 0 <= x < y < |s| ==> s[x].i < s[y].i
    requires forall x, y :: 0 <= x < y < |t| ==> t[x].i < t[y].i
    ensures s == t
  {
    assert s != [] ==> s[0] in Elements(t);
    assert t != [] ==> t[0] in Elements(s);
    if s != [] && t != [] {
      assert s[0] == t[0];
      forall p ensures p in s[1..] <==> p in t[1..] {
        if p in s[1..] {
          assert p in Elements(s) && p != s[0];
          assert p in Elements(t);
        }
        if p in t[1..] {
          assert p in Elements(t) && p != t[0];
          assert p in Elements(s);
        }
      }
      assert Elements(s[1..]) == Elements(t[1..]);
      AscendingIsCanonical(s[1..], t[1..]);
    }
  }

  /** The incremental pass: only pairs with a member in the focus set are tried. */
  function Focused(m: Relation, focus: set<nat>): Relation {
    (i: nat, j: nat) => m(i, j) && (i in focus || j in focus)
  }

  /**
   * The incremental pass creates the same pairs, in the same order, as the full
   * pass exactly when every pair of the full pass touches the focus set.
   */
  lemma IncrementalPassIsFullPass(m: Relation, n: nat, focus: set<nat>)
    ensures FullPass(Focused(m, focus), n) == FullPass(m, n) <==>
              forall p :: p in FullPass(m, n) ==> p.i in focus || p.j in focus
  {
    var f := Focused(m, focus);
    FullPassIsGreedy(m, n);
    FullPassIsGreedy(f, n);
    var ps, qs := FullPass(m, n), FullPass(f, n);
    if forall p :: p in ps ==> p.i in focus || p.j in focus {
      assert IsGreedy(f, n, Elements(ps));
      GreedyIsUnique(f, n, Elements(ps), Elements(qs));
      AscendingIsCanonical(ps, qs);
    }
    if ps == qs {
      forall p | p in ps ensures p.i in focus || p.j in focus {
        assert p in Elements(qs);
        assert Candidates(f, n, p);
      }
    }
  }

  /** The claim in the pass's own comment: enough that no two waiters outside the focus may be paired. */
  lemma QuietOutsideFocusSuffices(m: Relation, n: nat, focus: set<nat>)
    requires forall i: nat, j: nat :: i < j < n && m(i, j) ==> i in focus || j in focus
    ensures FullPass(Focused(m, focus), n) == FullPass(m, n)
  {
    IncrementalPassIsFullPass(m, n, focus);
    PassFacts(m, n, 0, {});
  }
}
