/**
 * The sending side of an association, as far as the stream-scheduler tests depend on it: one FIFO
 * queue per outgoing stream and a rule that says which stream transmits next.
 *
 * This is the environment of the test program, not part of it.  The three rules are those of
 * sections 3.1 (first come, first served), 3.2 (round robin) and 3.4 (priority) of RFC 8260.  The
 * order among streams of equal priority, which the RFC leaves open, is round robin, as the table
 * of the second priority test case demands.
 */
module Scheduler {
  import opened Sequences

  datatype Policy = Fcfs | Prio | Rr

  /** A user message: its stream, its number on that stream, and the moment it was accepted. */
  datatype Msg = Msg(sid: nat, ssn: nat, stamp: nat, len: nat)

  /** The last messages of stream `s`, numbered up to `count`, all accepted before `clock`. */
  ghost predicate ValidQueue(x: seq<Msg>, s: nat, count: nat, clock: nat) {
    && |x| <= count
    && (forall i | 0 <= i < |x| :: x[i].sid == s && x[i].ssn == count - |x| + i && x[i].stamp < clock)
    && (forall i, j | 0 <= i < j < |x| :: x[i].stamp < x[j].stamp)
  }

  /**
   * `ring` lists the streams that have something to send, the one whose turn is next first;
   * `count` says how many messages each stream has accepted since the association began.
   */
  datatype OutQ = OutQ(policy: Policy, value: seq<int>, queues: seq<seq<Msg>>,
                       ring: seq<nat>, count: seq<nat>, clock: nat)
  {
    ghost predicate Valid() {
      && |value| == |queues| == |count|
      && ValidRing()
      && (forall s | 0 <= s < |queues| :: ValidQueue(queues[s], s, count[s], clock))
    }

    /** Exactly the streams with a waiting message are in the ring, each once. */
    ghost predicate ValidRing() {
      && (forall i | 0 <= i < |ring| :: ring[i] < |queues| && queues[ring[i]] != [])
      && (forall i, j | 0 <= i < j < |ring| :: ring[i] != ring[j])
      && (forall s {:trigger s in ring} | 0 <= s < |queues| && queues[s] != [] :: s in ring)
    }

    /** No two waiting messages were accepted at the same moment. */
    ghost predicate Stamped() {
      forall a, b | Holds(a) && Holds(b) && a.stamp == b.stamp :: a == b
    }

    ghost predicate Holds(m: Msg) {
      m.sid < |queues| && m in queues[m.sid]
    }

    ghost predicate Empty() {
      forall s | 0 <= s < |queues| :: queues[s] == []
    }
  }

  /** A fresh association with `n` outgoing streams. */
  function Fresh(n: nat, policy: Policy): (q: OutQ)
    ensures q.Valid() && q.Empty()
  {
    OutQ(policy, seq(n, _ => 0), seq(n, _ => []), [], seq(n, _ => 0), 0)
  }

  function Enqueue(q: OutQ, sid: nat, len: nat): (r: OutQ)
    requires q.Valid() && sid < |q.queues|
    ensures r.Valid() && |r.queues| == |q.queues|
  {
    var m := Msg(sid, q.count[sid], q.clock, len);
    var ring := if q.queues[sid] == [] then q.ring + [sid] else q.ring;
    var r := q.(queues := q.queues[sid := q.queues[sid] + [m]], ring := ring,
                count := q.count[sid := q.count[sid] + 1], clock := q.clock + 1);
    assert r.ValidRing() by {
      forall s | 0 <= s < |r.queues| && r.queues[s] != []
        ensures s in r.ring
      {
        if s == sid && q.queues[sid] == [] {
          assert r.ring[|q.ring|] == s;
        } else {
          assert s in q.ring;
        }
      }
    }
    r
  }

  lemma Lengths(q: OutQ)
    requires q.Valid()
    ensures |q.value| == |q.queues| == |q.count|
  {
  }

  lemma RingMember(q: OutQ, i: nat)
    requires q.Valid() && i < |q.ring|
    ensures q.ring[i] < |q.queues| && q.queues[q.ring[i]] != []
    ensures forall j | 0 <= j < |q.ring| && j != i :: q.ring[j] != q.ring[i]
  {
  }

  lemma WaitingInRing(q: OutQ, s: nat)
    requires q.Valid() && s < |q.queues| && q.queues[s] != []
    ensures s in q.ring
  {
  }

  lemma QueueOf(q: OutQ, s: nat)
    requires q.Valid() && s < |q.queues|
    ensures s < |q.count| && ValidQueue(q.queues[s], s, q.count[s], q.clock)
  {
  }

  /** What a policy compares: the smallest wins, and among equals the one earliest in the ring. */
  function Weight(q: OutQ, s: nat): int
    requires q.Valid() && s < |q.queues| && q.queues[s] != []
  {
    match q.policy
    case Fcfs => q.queues[s][0].stamp
    case Prio => q.value[s]
    case Rr => 0
  }

  function BestFrom(q: OutQ, i: nat): (k: nat)
    requires q.Valid() && i < |q.ring|
    ensures i <= k < |q.ring|
    ensures forall j | i <= j < |q.ring| :: Weight(q, q.ring[k]) <= Weight(q, q.ring[j])
    ensures forall j | i <= j < k :: Weight(q, q.ring[k]) < Weight(q, q.ring[j])
    decreases |q.ring| - i
  {
    if i == |q.ring| - 1 then i
    else
      var k := BestFrom(q, i + 1);
      if Weight(q, q.ring[i]) <= Weight(q, q.ring[k]) then i else k
  }

  /** The message the policy transmits next. */
  function Next(q: OutQ): (m: Msg)
    requires q.Valid() && q.ring != []
    ensures q.Holds(m)
  {
    var s := q.ring[BestFrom(q, 0)];
    assert ValidQueue(q.queues[s], s, q.count[s], q.clock);
    q.queues[s][0]
  }

  /** The queues once the head of the `k`-th stream in the ring has left. */
  ghost predicate Popped(q: OutQ, k: nat, r: OutQ)
    requires q.Valid() && k < |q.ring|
  {
    var s := q.ring[k];
    r == q.(queues := q.queues[s := q.queues[s][1..]],
            ring := q.ring[..k] + q.ring[k + 1..] + if q.queues[s][1..] == [] then [] else [s])
  }

  lemma RemoveAndAppend(a: seq<nat>, k: nat, x: nat, j: nat)
    requires k < |a| && j < |a|
    ensures var b := a[..k] + a[k + 1..] + [x];
            b[j] == if j < k then a[j] else if j < |a| - 1 then a[j + 1] else x
    ensures j < |a| - 1 ==> (a[..k] + a[k + 1..] + [])[j] == if j < k then a[j] else a[j + 1]
  {
  }

  lemma PoppedRing(q: OutQ, k: nat, r: OutQ)
    requires q.Valid() && k < |q.ring| && Popped(q, k, r)
    ensures forall i | 0 <= i < |r.ring| :: r.ring[i] < |r.queues| && r.queues[r.ring[i]] != []
    ensures forall i, j | 0 <= i < j < |r.ring| :: r.ring[i] != r.ring[j]
  {
    var s, n := q.ring[k], |q.ring| - 1;
    forall i | 0 <= i < |r.ring|
      ensures r.ring[i] == if i < k then q.ring[i] else if i < n then q.ring[i + 1] else s
    {
      RemoveAndAppend(q.ring, k, s, i);
    }
  }

  lemma PoppedStaysInRing(q: OutQ, k: nat, r: OutQ, t: nat)
    requires q.Valid() && k < |q.ring| && Popped(q, k, r)
    requires t < |r.queues| && r.queues[t] != []
    ensures t in r.ring
  {
    if t == q.ring[k] {
      assert r.ring[|q.ring| - 1] == t;
    } else {
      assert t in q.ring;
      var i :| 0 <= i < |q.ring| && q.ring[i] == t;
      assert r.ring[if i < k then i else i - 1] == t;
    }
  }

  lemma PopValid(q: OutQ, k: nat, r: OutQ)
    requires q.Valid() && k < |q.ring| && Popped(q, k, r)
    ensures r.Valid()
  {
    var s := q.ring[k];
    assert ValidQueue(q.queues[s], s, q.count[s], q.clock);
    PoppedRing(q, k, r);
    forall t | 0 <= t < |r.queues| && r.queues[t] != []
      ensures t in r.ring
    {
      PoppedStaysInRing(q, k, r, t);
    }
  }

  function Size(queues: seq<seq<Msg>>): nat {
    if queues == [] then 0 else |queues[0]| + Size(queues[1..])
  }

  lemma {:induction false} SizeOfUpdate(queues: seq<seq<Msg>>, s: nat, x: seq<Msg>)
    requires s < |queues|
    ensures Size(queues[s := x]) == Size(queues) - |queues[s]| + |x|
  {
    if s == 0 {
      assert queues[s := x][1..] == queues[1..];
    } else {
      SizeOfUpdate(queues[1..], s - 1, x);
      assert queues[s := x][1..] == queues[1..][s - 1 := x];
    }
  }

  /** The queues once that message has left: its stream goes to the end of the ring. */
  function Pop(q: OutQ): (r: OutQ)
    requires q.Valid() && q.ring != []
    ensures r.Valid()
    ensures Size(r.queues) < Size(q.queues)
  {
    var k := BestFrom(q, 0);
    var s := q.ring[k];
    var rest := q.queues[s][1..];
    var r := q.(queues := q.queues[s := rest],
                ring := q.ring[..k] + q.ring[k + 1..] + if rest == [] then [] else [s]);
    SizeOfUpdate(q.queues, s, rest);
    assert r.Valid() by { PopValid(q, k, r); }
    r
  }

  /** Everything the policy transmits when nothing more is enqueued, in order. */
  function Drain(q: OutQ): seq<Msg>
    requires q.Valid()
    decreases Size(q.queues)
  {
    if q.ring == [] then [] else [Next(q)] + Drain(Pop(q))
  }

  /** One transmission takes exactly the picked message away from its own stream. */
  lemma PopEffect(q: OutQ)
    requires q.Valid() && q.ring != []
    ensures var m, r := Next(q), Pop(q);
            && m.sid in q.ring && m.sid < |q.queues|
            && r == q.(queues := r.queues, ring := r.ring)
            && q.queues[m.sid] == [m] + r.queues[m.sid]
            && r.queues == q.queues[m.sid := r.queues[m.sid]]
  {
    var s := q.ring[BestFrom(q, 0)];
    assert ValidQueue(q.queues[s], s, q.count[s], q.clock);
  }

  lemma PopHolds(q: OutQ, x: Msg)
    requires q.Valid() && q.ring != []
    ensures q.Holds(x) <==> x == Next(q) || Pop(q).Holds(x)
  {
    PopEffect(q);
  }

  lemma NothingWaiting(q: OutQ)
    requires q.Valid()
    ensures q.ring == [] <==> q.Empty()
  {
    forall s | 0 <= s < |q.queues| && q.ring == []
      ensures q.queues[s] == []
    {
      assert s !in q.ring;
    }
    assert q.ring != [] ==> q.queues[q.ring[0]] != [];
  }

  /** Nothing is lost, nothing is invented. */
  lemma {:induction false} DrainIsComplete(q: OutQ, m: Msg)
    requires q.Valid()
    ensures m in Drain(q) <==> q.Holds(m)
    decreases Size(q.queues)
  {
    if q.ring == [] {
      NothingWaiting(q);
    } else {
      DrainIsComplete(Pop(q), m);
      PopHolds(q, m);
    }
  }

  lemma {:induction false} SizeOfEmpty(queues: seq<seq<Msg>>)
    requires forall s | 0 <= s < |queues| :: queues[s] == []
    ensures Size(queues) == 0
  {
    if queues != [] {
      SizeOfEmpty(queues[1..]);
    }
  }

  lemma {:induction false} DrainLength(q: OutQ)
    requires q.Valid()
    ensures |Drain(q)| == Size(q.queues)
    decreases Size(q.queues)
  {
    if q.ring == [] {
      NothingWaiting(q);
      SizeOfEmpty(q.queues);
    } else {
      DrainLength(Pop(q));
      PopEffect(q);
      var s := Next(q).sid;
      SizeOfUpdate(q.queues, s, Pop(q).queues[s]);
    }
  }

  // ---------------------------------------------------------------- first come, first served

  ghost predicate Earlier(a: Msg, b: Msg) {
    a.stamp < b.stamp
  }

  /** What has not been sent has a place in its queue, not the first in the queue that has sent. */
  lemma StillBehind(q: OutQ, x: Msg) returns (i: nat)
    requires q.Valid() && q.ring != [] && Pop(q).Holds(x)
    ensures x.sid < |q.queues| && i < |q.queues[x.sid]| && q.queues[x.sid][i] == x
    ensures x.sid == Next(q).sid ==> i > 0
  {
    hide OutQ.Valid, Pop, Next;
    PopEffect(q);
    var s, rest := x.sid, Pop(q).queues[x.sid];
    var n :| 0 <= n < |rest| && rest[n] == x;
    i := if s == Next(q).sid then n + 1 else n;
  }

  lemma HeadIsOldest(q: OutQ, s: nat, i: nat)
    requires q.Valid() && s < |q.queues| && i < |q.queues[s]|
    ensures q.queues[s][0].stamp <= q.queues[s][i].stamp
    ensures i > 0 ==> q.queues[s][0].stamp < q.queues[s][i].stamp
    ensures q.queues[s][0].sid == s
  {
    hide OutQ.Valid;
    QueueOf(q, s);
  }

  lemma FcfsPicksTheOldest(q: OutQ, x: Msg)
    requires q.Valid() && q.Stamped() && q.policy == Fcfs && q.ring != []
    requires Pop(q).Holds(x)
    ensures Earlier(Next(q), x)
  {
    hide OutQ.Valid, Pop, ValidQueue, BestFrom;
    PopEffect(q);
    var k, s := BestFrom(q, 0), x.sid;
    var i := StillBehind(q, x);
    WaitingInRing(q, s);
    var j :| 0 <= j < |q.ring| && q.ring[j] == s;
    RingMember(q, k);
    assert Weight(q, q.ring[k]) <= Weight(q, q.ring[j]);
    HeadIsOldest(q, s, i);
    assert q.Holds(Next(q)) && q.Holds(x);
    if s == Next(q).sid {
      assert q.queues[s][0] == Next(q);
    }
  }

  lemma PopStamped(q: OutQ)
    requires q.Valid() && q.Stamped() && q.ring != []
    ensures Pop(q).Stamped()
  {
    forall a, b | Pop(q).Holds(a) && Pop(q).Holds(b) && a.stamp == b.stamp
      ensures a == b
    {
      PopHolds(q, a);
      PopHolds(q, b);
    }
  }

  /** First come, first served transmits in the order of acceptance, whatever the streams. */
  lemma {:induction false} FcfsTransmitsInOrderOfArrival(q: OutQ)
    requires q.Valid() && q.Stamped() && q.policy == Fcfs
    ensures SortedBy(Earlier, Drain(q))
    decreases Size(q.queues)
  {
    if q.ring != [] {
      var r := Pop(q);
      PopEffect(q);
      PopStamped(q);
      FcfsTransmitsInOrderOfArrival(r);
      forall x | x in Drain(r)
        ensures Earlier(Next(q), x)
      {
        DrainIsComplete(r, x);
        FcfsPicksTheOldest(q, x);
      }
      SortedCons(Earlier, Next(q), Drain(r));
    }
  }

  // ---------------------------------------------------------------- priority and round robin

  /** The class a stream competes in; round robin puts all streams into one. */
  function Class(q: OutQ, s: nat): int
    requires s < |q.value|
  {
    if q.policy == Prio then q.value[s] else 0
  }

  ghost function Position(ring: seq<nat>, s: nat): (i: nat)
    requires s in ring
    ensures i < |ring| && ring[i] == s
  {
    var i :| 0 <= i < |ring| && ring[i] == s; i
  }

  /** How many messages of its own stream stand before `m` in `q0`. */
  function Round(q0: OutQ, m: Msg): int
    requires m.sid < |q0.queues| && q0.queues[m.sid] != []
  {
    m.ssn - q0.queues[m.sid][0].ssn
  }

  ghost predicate Known(q0: OutQ, m: Msg) {
    && m.sid < |q0.queues| == |q0.value|
    && m.sid in q0.ring
    && q0.queues[m.sid] != []
  }

  /** The closed form: by class, then by round, then by place in the ring. */
  ghost predicate TurnBefore(q0: OutQ, a: Msg, b: Msg) {
    && Known(q0, a) && Known(q0, b)
    && var ca, cb := Class(q0, a.sid), Class(q0, b.sid);
       var ra, rb := Round(q0, a), Round(q0, b);
       var pa, pb := Position(q0.ring, a.sid), Position(q0.ring, b.sid);
       ca < cb || (ca == cb && (ra < rb || (ra == rb && pa < pb)))
  }

  ghost function TurnOrder(q0: OutQ): (Msg, Msg) -> bool {
    (a, b) => TurnBefore(q0, a, b)
  }

  /** `b`'s turn comes before the turn that follows `a`'s on `a`'s stream. */
  ghost predicate WithinARound(q0: OutQ, a: Msg, b: Msg) {
    && Known(q0, a) && Known(q0, b)
    && var ra, rb := Round(q0, a), Round(q0, b);
       rb < ra + 1 || (rb == ra + 1 && Position(q0.ring, b.sid) < Position(q0.ring, a.sid))
  }

  /** The heads of two streams, the first of which is ahead in the ring, are in turn. */
  ghost predicate InTurn(q0: OutQ, a: Msg, b: Msg) {
    && Known(q0, a) && Known(q0, b)
    && (Class(q0, a.sid) == Class(q0, b.sid) ==> TurnBefore(q0, a, b) && WithinARound(q0, a, b))
  }

  /** What stays true of the queues while `q0` is being drained. */
  ghost predicate Draining(q0: OutQ, q: OutQ) {
    && q0.Valid() && q.Valid()
    && q.policy == q0.policy && q.value == q0.value && |q.queues| == |q0.queues|
    && q.count == q0.count
    && (forall s | s in q.ring :: s in q0.ring)
    && (forall i, j | 0 <= i < j < |q.ring| ::
          InTurn(q0, q.queues[q.ring[i]][0], q.queues[q.ring[j]][0]))
  }

  lemma PositionInRing(q: OutQ, i: nat)
    requires q.Valid() && i < |q.ring|
    ensures Position(q.ring, q.ring[i]) == i
  {
  }

  lemma DrainingStarts(q: OutQ)
    requires q.Valid()
    ensures Draining(q, q)
  {
    forall i, j | 0 <= i < j < |q.ring|
      ensures InTurn(q, q.queues[q.ring[i]][0], q.queues[q.ring[j]][0])
    {
      var s, t := q.ring[i], q.ring[j];
      assert ValidQueue(q.queues[s], s, q.count[s], q.clock);
      assert ValidQueue(q.queues[t], t, q.count[t], q.clock);
      PositionInRing(q, i);
      PositionInRing(q, j);
    }
  }

  /** The stream that has just sent rejoins the ring behind every stream of its class. */
  lemma RejoinsInTurn(q0: OutQ, a: Msg, b: Msg, next: Msg)
    requires InTurn(q0, a, b) && next.sid == a.sid && next.ssn == a.ssn + 1
    ensures InTurn(q0, b, next)
  {
  }

  /** The other streams close the gap; the one that sent comes last if it has more. */
  lemma PopRing(q: OutQ, j: nat)
    requires q.Valid() && q.ring != [] && j < |Pop(q).ring|
    ensures var r, k := Pop(q), BestFrom(q, 0);
            if j < |q.ring| - 1 then
              var s := q.ring[if j < k then j else j + 1];
              r.ring[j] == s && r.queues[s] == q.queues[s] != []
            else
              r.ring[j] == q.ring[k] && r.queues[q.ring[k]] != []
  {
    hide OutQ.Valid, BestFrom;
    var r, k := Pop(q), BestFrom(q, 0);
    RemoveAndAppend(q.ring, k, q.ring[k], j);
    RingMember(q, k);
    if j < |q.ring| - 1 {
      RingMember(q, if j < k then j else j + 1);
    }
  }

  lemma LastRejoins(q0: OutQ, q: OutQ, i: nat)
    requires Draining(q0, q) && q.ring != [] && q.policy != Fcfs
    requires i < |q.ring| && i != BestFrom(q, 0)
    requires Pop(q).queues[q.ring[BestFrom(q, 0)]] != []
    ensures InTurn(q0, q.queues[q.ring[i]][0], Pop(q).queues[q.ring[BestFrom(q, 0)]][0])
  {
    var k := BestFrom(q, 0);
    var s, t := q.ring[k], q.ring[i];
    assert ValidQueue(q.queues[s], s, q.count[s], q.clock);
    assert ValidQueue(q.queues[t], t, q.count[t], q.clock);
    if k < i {
      RejoinsInTurn(q0, q.queues[s][0], q.queues[t][0], q.queues[s][1]);
    } else {
      assert InTurn(q0, q.queues[t][0], q.queues[s][0]);
      assert Weight(q, s) < Weight(q, t);
    }
  }

  lemma PairStaysInTurn(q0: OutQ, q: OutQ, i: nat, j: nat)
    requires Draining(q0, q) && q.ring != [] && q.policy != Fcfs
    requires i < j < |Pop(q).ring|
    ensures var r := Pop(q); InTurn(q0, r.queues[r.ring[i]][0], r.queues[r.ring[j]][0])
  {
    PopRing(q, i);
    PopRing(q, j);
    var k := BestFrom(q, 0);
    var i' := if i < k then i else i + 1;
    if j < |q.ring| - 1 {
      var j' := if j < k then j else j + 1;
      assert InTurn(q0, q.queues[q.ring[i']][0], q.queues[q.ring[j']][0]);
    } else {
      LastRejoins(q0, q, i');
    }
  }

  lemma DrainingStep(q0: OutQ, q: OutQ)
    requires Draining(q0, q) && q.ring != [] && q.policy != Fcfs
    ensures Draining(q0, Pop(q))
  {
    var r := Pop(q);
    PopEffect(q);
    forall i, j | 0 <= i < j < |r.ring|
      ensures InTurn(q0, r.queues[r.ring[i]][0], r.queues[r.ring[j]][0])
    {
      PairStaysInTurn(q0, q, i, j);
    }
    forall s | s in r.ring
      ensures s in q0.ring
    {
      assert s in q.ring;
    }
  }

  /** What stays behind is not older than the head of its stream. */
  lemma LeftBehind(q: OutQ, x: Msg)
    requires q.Valid() && q.ring != [] && Pop(q).Holds(x)
    ensures x.sid < |q.queues| && q.queues[x.sid] != []
    ensures x.ssn >= q.queues[x.sid][0].ssn
    ensures x.sid == Next(q).sid ==> x.ssn > Next(q).ssn
  {
    PopEffect(q);
    PopHolds(q, x);
    var t := x.sid;
    assert ValidQueue(q.queues[t], t, q.count[t], q.clock);
    if t == Next(q).sid {
      var i :| 0 <= i < |Pop(q).queues[t]| && Pop(q).queues[t][i] == x;
      assert q.queues[t][i + 1] == x;
    }
  }

  lemma HeadComesFirst(q0: OutQ, q: OutQ, j: nat)
    requires Draining(q0, q) && q.ring != [] && q.policy != Fcfs
    requires j < |q.ring|
    ensures Known(q0, Next(q)) && Next(q).sid == q.ring[BestFrom(q, 0)]
    ensures j != BestFrom(q, 0) ==> TurnBefore(q0, Next(q), q.queues[q.ring[j]][0])
  {
    var k := BestFrom(q, 0);
    var s, t := q.ring[k], q.ring[j];
    assert ValidQueue(q.queues[s], s, q.count[s], q.clock);
    assert ValidQueue(q.queues[t], t, q.count[t], q.clock);
    assert Weight(q, s) <= Weight(q, t);
    assert j < k ==> Weight(q, s) < Weight(q, t);
    assert j > k ==> InTurn(q0, q.queues[s][0], q.queues[t][0]);
  }

  lemma LaterOnItsStream(q0: OutQ, a: Msg, head: Msg, x: Msg)
    requires TurnBefore(q0, a, head) && x.sid == head.sid && x.ssn >= head.ssn
    ensures TurnBefore(q0, a, x)
  {
  }

  /** The head that is picked comes before everything that is left. */
  lemma PickIsFirst(q0: OutQ, q: OutQ, x: Msg)
    requires Draining(q0, q) && q.ring != [] && q.policy != Fcfs
    requires Pop(q).Holds(x)
    ensures TurnBefore(q0, Next(q), x)
  {
    var k, t := BestFrom(q, 0), x.sid;
    PopHolds(q, x);
    assert t in q.ring;
    var j :| 0 <= j < |q.ring| && q.ring[j] == t;
    HeadComesFirst(q0, q, j);
    LeftBehind(q, x);
    if j != k {
      LaterOnItsStream(q0, Next(q), q.queues[t][0], x);
    }
  }

  /**
   * Draining in priority order or round robin: ascending class, round robin inside each class, for
   * any number of streams, any values and any queue lengths.
   */
  lemma {:induction false} DrainFollowsTurns(q0: OutQ, q: OutQ)
    requires Draining(q0, q) && q.policy != Fcfs
    ensures SortedBy(TurnOrder(q0), Drain(q))
    decreases Size(q.queues)
  {
    if q.ring != [] {
      var r := Pop(q);
      DrainingStep(q0, q);
      DrainFollowsTurns(q0, r);
      forall x | x in Drain(r)
        ensures TurnBefore(q0, Next(q), x)
      {
        DrainIsComplete(r, x);
        PickIsFirst(q0, q, x);
      }
      SortedCons(TurnOrder(q0), Next(q), Drain(r));
    }
  }
}
