/**
 * What one match pass does: its pairs are the greedy matching of the pairs it
 * may try, the incremental pass equals the whole one under an exact condition,
 * and every candidate it leaves apart is either not matchable or has a wake time.
 */
module PassTheory {
  import opened Wrappers
  import opened Compatibility
  import opened Protocol
  import opened Greedy
  import opened MatchModel

  function MayTryRelation(bd: Board): Relation {
    (i: nat, j: nat) => bd.MayTry(i, j)
  }

  function MayRelation(bd: Board): Relation {
    (i: nat, j: nat) => bd.May(i, j)
  }

  lemma {:induction false} RowIsFirstPartner(bd: Board, i: nat, k: nat, taken: set<nat>, wake: map<SocketId, nat>)
    requires bd.Valid() && i < k <= |bd.waiting|
    ensures ScanRow(bd, i, k, taken, wake).partner == FirstPartner(MayTryRelation(bd), |bd.waiting|, i, k, taken)
    decreases |bd.waiting| - k
  {
    if k < |bd.waiting| {
      RowIsFirstPartner(bd, i, k + 1, taken, wake);
      if bd.BlockedUntil(i, k).Some? {
        RowIsFirstPartner(bd, i, k + 1, taken, Lower(wake, bd.waiting[i].socket, bd.BlockedUntil(i, k).value));
      }
    }
  }

  /** Skipping a held row changes nothing: a held waiter fits nobody. */
  lemma HeldRowHasNoPartner(bd: Board, i: nat, k: nat, taken: set<nat>)
    requires bd.Valid() && i < k <= |bd.waiting| && bd.steps[i] == HELD
    ensures FirstPartner(MayTryRelation(bd), |bd.waiting|, i, k, taken) == None
    decreases |bd.waiting| - k
  {
  }

  lemma {:induction false} ScanIsPass(bd: Board, i: nat, taken: set<nat>, wake: map<SocketId, nat>)
    requires bd.Valid() && i <= |bd.waiting|
    ensures Scan(bd, i, taken, wake).pairs == Pass(MayTryRelation(bd), |bd.waiting|, i, taken)
    decreases |bd.waiting| - i
  {
    if i < |bd.waiting| {
      if i in taken {
        ScanIsPass(bd, i + 1, taken, wake);
      } else if bd.steps[i] == HELD {
        HeldRowHasNoPartner(bd, i, i + 1, taken);
        ScanIsPass(bd, i + 1, taken, wake);
      } else {
        var row := ScanRow(bd, i, i + 1, taken, wake);
        RowIsFirstPartner(bd, i, i + 1, taken, wake);
        ScanIsPass(bd, i + 1, if row.partner == None then taken else taken + {i, row.partner.value}, row.wake);
      }
    }
  }

  /**
   * A pass yields the lexicographically greedy matching of the pairs it may
   * try, and nothing else can be that matching.
   */
  lemma PassYieldsGreedyMatching(bd: Board, wake: map<SocketId, nat>, other: set<Pairing>)
    requires bd.Valid()
    ensures IsGreedy(MayTryRelation(bd), |bd.waiting|, other) <==> other == Elements(Scan(bd, 0, {}, wake).pairs)
  {
    ScanIsPass(bd, 0, {}, wake);
    FullPassIsGreedy(MayTryRelation(bd), |bd.waiting|);
    if IsGreedy(MayTryRelation(bd), |bd.waiting|, other) {
      GreedyIsUnique(MayTryRelation(bd), |bd.waiting|, other, Elements(Scan(bd, 0, {}, wake).pairs));
    }
  }

  function Everyone(bd: Board): Board {
    bd.(focus := None)
  }

  lemma {:induction false} SameRelationSamePass(m: Relation, m': Relation, n: nat, i: nat, taken: set<nat>)
    requires i <= n && forall x: nat, y: nat :: x < n && y < n ==> m(x, y) == m'(x, y)
    ensures Pass(m, n, i, taken) == Pass(m', n, i, taken)
    decreases n - i
  {
    if i < n {
      SameRelationSamePartner(m, m', n, i, i + 1, taken);
      var partner := FirstPartner(m, n, i, i + 1, taken);
      SameRelationSamePass(m, m', n, i + 1, if i in taken || partner == None then taken else taken + {i, partner.value});
    }
  }

  lemma {:induction false} SameRelationSamePartner(m: Relation, m': Relation, n: nat, i: nat, k: nat, taken: set<nat>)
    requires i < n && k <= n && forall x: nat, y: nat :: x < n && y < n ==> m(x, y) == m'(x, y)
    ensures FirstPartner(m, n, i, k, taken) == FirstPartner(m', n, i, k, taken)
    decreases n - k
  {
    if k < n {
      SameRelationSamePartner(m, m', n, i, k + 1, taken);
    }
  }

  /**
   * The dirty or recheck pass creates exactly the pairs of the whole pass, in
   * the same order, if and only if every pair of the whole pass has a member in focus.
   */
  lemma FocusedPassEqualsWholePass(bd: Board, wake: map<SocketId, nat>)
    requires bd.Valid() && bd.focus.Some?
    ensures Scan(bd, 0, {}, wake).pairs == Scan(Everyone(bd), 0, {}, wake).pairs <==>
              forall p :: p in Scan(Everyone(bd), 0, {}, wake).pairs && p.i < |bd.waiting| && p.j < |bd.waiting| ==>
                bd.InFocus(p.i) || bd.InFocus(p.j)
  {
    var n := |bd.waiting|;
    var m := MayRelation(bd);
    var focus := set i: nat | i < n && bd.InFocus(i);
    ScanIsPass(bd, 0, {}, wake);
    ScanIsPass(Everyone(bd), 0, {}, wake);
    SameRelationSamePass(MayTryRelation(bd), Focused(m, focus), n, 0, {});
    SameRelationSamePass(MayTryRelation(Everyone(bd)), m, n, 0, {});
    IncrementalPassIsFullPass(m, n, focus);
    PassFacts(m, n, 0, {});
  }

  /** In particular whenever no two waiters outside the focus may be paired. */
  lemma QuietRestMakesPassesEqual(bd: Board, wake: map<SocketId, nat>)
    requires bd.Valid() && bd.focus.Some?
    requires forall i: nat, j: nat :: i < j < |bd.waiting| && bd.May(i, j) ==> bd.InFocus(i) || bd.InFocus(j)
    ensures Scan(bd, 0, {}, wake).pairs == Scan(Everyone(bd), 0, {}, wake).pairs
  {
    var n := |bd.waiting|;
    ScanIsPass(Everyone(bd), 0, {}, wake);
    SameRelationSamePass(MayTryRelation(Everyone(bd)), MayRelation(bd), n, 0, {});
    PassFacts(MayRelation(bd), n, 0, {});
    forall p | p in Scan(Everyone(bd), 0, {}, wake).pairs && p.i < n && p.j < n ensures bd.InFocus(p.i) || bd.InFocus(p.j) {
      assert Candidates(MayRelation(bd), n, p);
    }
    FocusedPassEqualsWholePass(bd, wake);
  }

  /* ---------------------------------------------------------------- */
  /* Wake times                                                        */
  /* ---------------------------------------------------------------- */

  ghost predicate NoLater(wake': map<SocketId, nat>, wake: map<SocketId, nat>) {
    forall s :: s in wake ==> s in wake' && wake'[s] <= wake[s]
  }

  /** The pair was worth trying but for a block. */
  predicate OnlyBlocked(bd: Board, i: nat, j: nat)
    requires bd.Valid() && i < |bd.waiting| && j < |bd.waiting|
  {
    (bd.InFocus(i) || bd.InFocus(j)) && bd.FitsAt(i, j) && !bd.BannedAt(i, j)
  }

  ghost predicate Covered(bd: Board, wake: map<SocketId, nat>, i: nat, j: nat)
    requires i < |bd.waiting| && j < |bd.waiting|
  {
    && bd.BlockedUntil(i, j).Some?
    && bd.waiting[i].socket in wake && wake[bd.waiting[i].socket] <= bd.BlockedUntil(i, j).value
  }

  /** Where row i stopped looking: at its partner, or at the end of the queue. */
  function RowEnd(bd: Board, i: nat, k: nat, taken: set<nat>, wake: map<SocketId, nat>): (end: nat)
    requires bd.Valid() && i < k <= |bd.waiting|
    ensures k <= end <= |bd.waiting|
  {
    RowIsFirstPartner(bd, i, k, taken, wake);
    ScanRow(bd, i, k, taken, wake).partner.GetOr(|bd.waiting|)
  }

  ghost predicate RowCovered(bd: Board, i: nat, k: nat, end: nat, taken: set<nat>, wake: map<SocketId, nat>)
    requires bd.Valid() && i < |bd.waiting| && end <= |bd.waiting|
  {
    forall j :: k <= j < end && j !in taken && OnlyBlocked(bd, i, j) ==> Covered(bd, wake, i, j)
  }

  lemma {:induction false} RowWakes(bd: Board, i: nat, k: nat, taken: set<nat>, wake: map<SocketId, nat>)
    requires bd.Valid() && i < k <= |bd.waiting|
    ensures NoLater(ScanRow(bd, i, k, taken, wake).wake, wake)
    ensures RowCovered(bd, i, k, RowEnd(bd, i, k, taken, wake), taken, ScanRow(bd, i, k, taken, wake).wake)
    decreases |bd.waiting| - k
  {
    if k < |bd.waiting| {
      if k in taken || !(bd.InFocus(i) || bd.InFocus(k)) || !bd.FitsAt(i, k) || bd.BannedAt(i, k) {
        assert k in taken || !OnlyBlocked(bd, i, k);
        RowWakes(bd, i, k + 1, taken, wake);
      } else if bd.BlockedUntil(i, k).Some? {
        var lowered := Lower(wake, bd.waiting[i].socket, bd.BlockedUntil(i, k).value);
        RowWakes(bd, i, k + 1, taken, lowered);
        assert Covered(bd, lowered, i, k);
      }
    }
  }

  predicate InSome(pairs: seq<Pairing>, x: nat) {
    exists p | p in pairs :: Has(p, x)
  }

  /** Two waiters a pass left apart had no chance, or wait for a block whose lapse one of them is woken for. */
  ghost predicate Settled(bd: Board, result: ScanResult, i: nat, taken: set<nat>)
    requires bd.Valid()
  {
    forall x: nat, y: nat ::
      && i <= x < y < |bd.waiting| && x !in taken && y !in taken
      && !InSome(result.pairs, x) && !InSome(result.pairs, y) && OnlyBlocked(bd, x, y)
      ==> Covered(bd, result.wake, x, y)
  }

  /** Putting the pair (i, j) in front of a settled rest settles row i too. */
  lemma PairSettles(bd: Board, i: nat, j: nat, taken: set<nat>, rest: ScanResult, result: ScanResult)
    requires bd.Valid() && Settled(bd, rest, i + 1, taken + {i, j}) && result == ScanResult([Pairing(i, j)] + rest.pairs, rest.wake)
    ensures Settled(bd, result, i, taken)
  {
    assert result.pairs[0] == Pairing(i, j) && Has(Pairing(i, j), i) && Has(Pairing(i, j), j);
    assert InSome(result.pairs, i) && InSome(result.pairs, j);
    forall x: nat | InSome(rest.pairs, x) ensures InSome(result.pairs, x) {
      var p :| p in rest.pairs && Has(p, x);
      assert p in result.pairs;
    }
  }

  lemma {:induction false} ScanSettles(bd: Board, i: nat, taken: set<nat>, wake: map<SocketId, nat>)
    requires bd.Valid() && i <= |bd.waiting|
    ensures NoLater(Scan(bd, i, taken, wake).wake, wake)
    ensures Settled(bd, Scan(bd, i, taken, wake), i, taken)
    decreases |bd.waiting| - i
  {
    if i < |bd.waiting| {
      if i in taken || bd.steps[i] == HELD {
        ScanSettles(bd, i + 1, taken, wake);
      } else {
        var row := ScanRow(bd, i, i + 1, taken, wake);
        RowWakes(bd, i, i + 1, taken, wake);
        if row.partner == None {
          ScanSettles(bd, i + 1, taken, row.wake);
        } else {
          var j := row.partner.value;
          ScanSettles(bd, i + 1, taken + {i, j}, row.wake);
          PairSettles(bd, i, j, taken, Scan(bd, i + 1, taken + {i, j}, row.wake), Scan(bd, i, taken, wake));
        }
      }
    }
  }
}
