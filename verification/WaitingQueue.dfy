/**
 * The waiting queue as a sequence: oldest first, equal keys in arrival order,
 * one entry a socket. MemoryStore keeps it in place; this is what it must mean.
 */
module WaitingQueue {
  import opened Protocol

  datatype Entry = Entry(socket: SocketId, since: nat)

  predicate Follows(x: Entry, y: Entry) {
    x.socket != y.socket && x.since <= y.since
  }

  /** Sorted by key, and no socket twice. */
  ghost predicate Ordered(q: seq<Entry>) {
    forall i, j :: 0 <= i < j < |q| ==> Follows(q[i], q[j])
  }

  /** The queue is ordered and holds exactly the socket/key pairs of `keys`. */
  ghost predicate Represents(q: seq<Entry>, keys: map<SocketId, nat>) {
    && Ordered(q)
    && (forall e :: e in q <==> e.socket in keys && keys[e.socket] == e.since)
  }

  function Without(q: seq<Entry>, s: SocketId): seq<Entry> {
    if q == [] then []
    else if q[0].socket == s then Without(q[1..], s)
    else [q[0]] + Without(q[1..], s)
  }

  /** The first index whose key is greater than `since`. */
  function Position(q: seq<Entry>, since: nat): (k: nat)
    ensures k <= |q|
    ensures forall i :: 0 <= i < k ==> q[i].since <= since
    ensures k < |q| ==> q[k].since > since
  {
    if q == [] || q[0].since > since then 0 else 1 + Position(q[1..], since)
  }

  lemma {:induction false} PositionIs(q: seq<Entry>, since: nat, k: nat)
    requires k <= |q| && (forall i :: 0 <= i < k ==> q[i].since <= since) && (k < |q| ==> q[k].since > since)
    ensures Position(q, since) == k
  {
    if k > 0 {
      PositionIs(q[1..], since, k - 1);
    }
  }

  function Insert(q: seq<Entry>, e: Entry): seq<Entry> {
    var k := Position(q, e.since);
    q[..k] + [e] + q[k..]
  }

  function Add(q: seq<Entry>, s: SocketId, since: nat): seq<Entry> {
    Insert(Without(q, s), Entry(s, since))
  }

  lemma {:induction false} WithoutMembers(q: seq<Entry>, s: SocketId)
    ensures forall e :: e in Without(q, s) <==> e in q && e.socket != s
    ensures |Without(q, s)| <= |q|
  {
    if q != [] {
      WithoutMembers(q[1..], s);
      assert q == [q[0]] + q[1..];
    }
  }

  lemma ConsOrdered(e: Entry, q: seq<Entry>)
    requires Ordered(q) && forall x :: x in q ==> Follows(e, x)
    ensures Ordered([e] + q)
  {
    var r := [e] + q;
    forall i, j | 0 <= i < j < |r| ensures Follows(r[i], r[j]) {
      assert r[j] == q[j - 1];
      if i > 0 {
        assert r[i] == q[i - 1];
      }
    }
  }

  lemma {:induction false} WithoutOrdered(q: seq<Entry>, s: SocketId)
    requires Ordered(q)
    ensures Ordered(Without(q, s))
  {
    if q != [] {
      var t := q[1..];
      assert forall i :: 0 <= i < |t| ==> t[i] == q[i + 1];
      WithoutOrdered(t, s);
      if q[0].socket != s {
        WithoutMembers(t, s);
        ConsOrdered(q[0], Without(t, s));
      }
    }
  }

  lemma {:induction false} WithoutNothing(q: seq<Entry>, s: SocketId)
    requires forall e :: e in q ==> e.socket != s
    ensures Without(q, s) == q
  {
    if q != [] {
      assert q[0] in q && forall e :: e in q[1..] ==> e in q;
      WithoutNothing(q[1..], s);
    }
  }

  /** Taking the entry at index i out is Without: no other entry has its socket. */
  lemma {:induction false} SpliceIsWithout(q: seq<Entry>, i: nat)
    requires Ordered(q) && i < |q|
    ensures Without(q, q[i].socket) == q[..i] + q[i + 1..]
  {
    var t := q[1..];
    assert forall k :: 0 <= k < |t| ==> t[k] == q[k + 1];
    if i == 0 {
      forall e | e in t ensures e.socket != q[0].socket {
        var k :| 0 <= k < |t| && t[k] == e;
        assert Follows(q[0], q[k + 1]);
      }
      WithoutNothing(t, q[0].socket);
    } else {
      assert Follows(q[0], q[i]);
      SpliceIsWithout(t, i - 1);
      assert q[..i] == [q[0]] + t[..i - 1];
      assert t[i..] == q[i + 1..];
    }
  }

  lemma JoinOrdered(p: seq<Entry>, q: seq<Entry>)
    requires Ordered(p) && Ordered(q) && forall x, y :: x in p && y in q ==> Follows(x, y)
    ensures Ordered(p + q)
  {
    var r := p + q;
    forall i, j | 0 <= i < j < |r| ensures Follows(r[i], r[j]) {
      if i < |p| <= j {
        assert r[i] in p && r[j] in q;
      }
    }
  }

  lemma InsertOrdered(q: seq<Entry>, e: Entry)
    requires Ordered(q) && forall x :: x in q ==> x.socket != e.socket
    ensures Ordered(Insert(q, e))
  {
    var k := Position(q, e.since);
    var before, after := q[..k], q[k..];
    forall x | x in after ensures Follows(e, x) {
      var i :| k <= i < |q| && q[i] == x;
      assert k < i ==> Follows(q[k], q[i]);
    }
    ConsOrdered(e, after);
    forall x, y | x in before && y in [e] + after ensures Follows(x, y) {
      var i :| 0 <= i < k && q[i] == x;
      if y in after {
        var j :| k <= j < |q| && q[j] == y;
        assert Follows(q[i], q[j]);
      }
    }
    JoinOrdered(before, [e] + after);
    assert Insert(q, e) == before + ([e] + after);
  }

  lemma InsertMembers(q: seq<Entry>, e: Entry)
    ensures forall x :: x in Insert(q, e) <==> x in q || x == e
  {
    var k := Position(q, e.since);
    assert q == q[..k] + q[k..];
  }

  lemma WithoutRepresents(q: seq<Entry>, keys: map<SocketId, nat>, s: SocketId)
    requires Represents(q, keys)
    ensures Represents(Without(q, s), keys - {s})
  {
    WithoutMembers(q, s);
    WithoutOrdered(q, s);
  }

  /** Adding or re-scoring keeps the queue ordered and changes exactly one key. */
  lemma AddRepresents(q: seq<Entry>, keys: map<SocketId, nat>, s: SocketId, since: nat)
    requires Represents(q, keys)
    ensures Represents(Add(q, s, since), keys[s := since])
  {
    WithoutRepresents(q, keys, s);
    InsertOrdered(Without(q, s), Entry(s, since));
    InsertMembers(Without(q, s), Entry(s, since));
  }

  /** Equal keys keep arrival order: a newcomer goes behind every entry that is not younger. */
  lemma AddKeepsArrivalOrder(q: seq<Entry>, s: SocketId, since: nat, i: nat)
    requires Ordered(q) && i < |Without(q, s)|
    ensures var k := Position(Without(q, s), since);
      var r := Add(q, s, since);
      && r[k] == Entry(s, since)
      && (Without(q, s)[i].since <= since ==> i < k && r[i] == Without(q, s)[i])
      && (Without(q, s)[i].since > since ==> k <= i && r[i + 1] == Without(q, s)[i])
  {
    var w := Without(q, s);
    var k := Position(w, since);
    WithoutOrdered(q, s);
    if k < i {
      assert Follows(w[k], w[i]);
    }
  }

  datatype Op = Join(socket: SocketId, since: nat) | Leave(socket: SocketId)

  function Apply(q: seq<Entry>, op: Op): seq<Entry> {
    match op
    case Join(s, since) => Add(q, s, since)
    case Leave(s) => Without(q, s)
  }

  function ApplyAll(q: seq<Entry>, ops: seq<Op>): seq<Entry> {
    if ops == [] then q else Apply(ApplyAll(q, ops[..|ops| - 1]), ops[|ops| - 1])
  }

  /** The latest key given to each socket that has not left since. */
  function KeysAfter(keys: map<SocketId, nat>, ops: seq<Op>): map<SocketId, nat> {
    if ops == [] then keys
    else
      var before := KeysAfter(keys, ops[..|ops| - 1]);
      match ops[|ops| - 1]
      case Join(s, since) => before[s := since]
      case Leave(s) => before - {s}
  }

  /** After any sequence of joins, re-scores and leaves the queue is sorted and holds the latest keys. */
  lemma {:induction false} QueueHistory(q: seq<Entry>, keys: map<SocketId, nat>, ops: seq<Op>)
    requires Represents(q, keys)
    ensures Represents(ApplyAll(q, ops), KeysAfter(keys, ops))
  {
    if ops != [] {
      var rest := ops[..|ops| - 1];
      QueueHistory(q, keys, rest);
      match ops[|ops| - 1]
      case Join(s, since) => AddRepresents(ApplyAll(q, rest), KeysAfter(keys, rest), s, since);
      case Leave(s) => WithoutRepresents(ApplyAll(q, rest), KeysAfter(keys, rest), s);
    }
  }
}
