/**
 * The transmission orders in closed form, for the traffic of the conformance tests: `streams`
 * streams numbered from 1, `each` messages on every one of them, handed over stream by stream while
 * nothing is transmitted.  The four tables of expected stream numbers are the instances with three
 * streams and three messages.
 */
module SchedOrder {
  import opened Sequences
  import opened Scheduler

  /** What one send call hands to the association. */
  datatype Submission = Submission(sid: nat, len: nat)

  function Block(sid: nat, each: nat, len: nat): seq<Submission> {
    seq(each, _ => Submission(sid, len))
  }

  /** Stream by stream, as the nested send loop produces it. */
  function StreamMajor(streams: nat, each: nat, len: nat): (s: seq<Submission>)
    ensures |s| == Times(streams, each)
  {
    if streams == 0 then [] else
      StreamMajor(streams - 1, each, len) + Block(streams, each, len)
  }

  ghost predicate FitsStreams(q: OutQ, subs: seq<Submission>) {
    forall i | 0 <= i < |subs| :: subs[i].sid < |q.queues|
  }

  function EnqueueAll(q: OutQ, subs: seq<Submission>): (r: OutQ)
    requires q.Valid() && forall i | 0 <= i < |subs| :: subs[i].sid < |q.queues|
    ensures r.Valid() && |r.queues| == |q.queues|
    ensures r.policy == q.policy && r.value == q.value
  {
    if subs == [] then q
    else
      var last := subs[|subs| - 1];
      Enqueue(EnqueueAll(q, subs[..|subs| - 1]), last.sid, last.len)
  }

  lemma {:induction false} EnqueueAllSplit(q: OutQ, a: seq<Submission>, b: seq<Submission>)
    requires q.Valid() && FitsStreams(q, a) && FitsStreams(q, b)
    ensures FitsStreams(q, a + b)
    ensures EnqueueAll(q, a + b) == EnqueueAll(EnqueueAll(q, a), b)
  {
    hide OutQ.Valid, Enqueue;
    if b == [] {
      assert a + b == a;
    } else {
      var b' := b[..|b| - 1];
      EnqueueAllSplit(q, a, b');
      assert (a + b)[..|a + b| - 1] == a + b';
      assert (a + b)[|a + b| - 1] == b[|b| - 1];
    }
  }

  /** What waits is the new message, stamped with the clock, or an older one. */
  lemma HeldBefore(q: OutQ, sid: nat, len: nat, a: Msg)
    requires q.Valid() && sid < |q.queues| && Enqueue(q, sid, len).Holds(a)
    ensures sid < |q.count|
    ensures a == Msg(sid, q.count[sid], q.clock, len) || (q.Holds(a) && a.stamp < q.clock)
  {
    QueueOf(q, sid);
    QueueOf(q, a.sid);
    hide OutQ.Valid;
  }

  lemma EnqueueStamped(q: OutQ, sid: nat, len: nat)
    requires q.Valid() && q.Stamped() && sid < |q.queues|
    ensures Enqueue(q, sid, len).Stamped()
  {
    var r := Enqueue(q, sid, len);
    forall a, b | r.Holds(a) && r.Holds(b) && a.stamp == b.stamp
      ensures a == b
    {
      HeldBefore(q, sid, len, a);
      HeldBefore(q, sid, len, b);
    }
  }

  /** However messages were accepted, no two carry the same stamp. */
  lemma {:induction false} AcceptedStamped(q: OutQ, subs: seq<Submission>)
    requires q.Valid() && q.Stamped() && FitsStreams(q, subs)
    ensures EnqueueAll(q, subs).Stamped()
  {
    hide OutQ.Valid, OutQ.Stamped, Enqueue;
    if subs != [] {
      var n := |subs| - 1;
      AcceptedStamped(q, subs[..n]);
      EnqueueStamped(EnqueueAll(q, subs[..n]), subs[n].sid, subs[n].len);
    }
  }

  /** The `c`-th message (from 0) of stream `s` when `each` messages go to streams 1, 2, ... in turn. */
  ghost function Nth(q0: OutQ, each: nat, len: nat, s: nat, c: nat): Msg
    requires 1 <= s
  {
    Msg(s, (if s < |q0.count| then q0.count[s] else 0) + c, q0.clock + Times(s - 1, each) + c, len)
  }

  function FromOne(n: nat): (r: seq<nat>)
    ensures |r| == n
    ensures forall i | 0 <= i < n :: r[i] == i + 1
  {
    if n == 0 then [] else FromOne(n - 1) + [n]
  }

  ghost predicate Idle(q: OutQ) {
    q.Valid() && q.Empty() && q.ring == []
  }

  /** `each` messages on one stream, numbered from `ssn` and accepted from `clock` on. */
  function Run(sid: nat, ssn: nat, clock: nat, each: nat, len: nat): (r: seq<Msg>)
    ensures |r| == each
    ensures forall k | 0 <= k < each :: r[k] == Msg(sid, ssn + k, clock + k, len)
  {
    if each == 0 then [] else
      Run(sid, ssn, clock, each - 1, len) + [Msg(sid, ssn + each - 1, clock + each - 1, len)]
  }

  /** `q` with a run of `each` messages on the idle stream `sid`. */
  function WithRun(q: OutQ, sid: nat, each: nat, len: nat): OutQ
    requires sid < |q.queues| == |q.count|
  {
    q.(queues := q.queues[sid := Run(sid, q.count[sid], q.clock, each, len)],
       ring := if each == 0 then q.ring else q.ring + [sid],
       count := q.count[sid := q.count[sid] + each],
       clock := q.clock + each)
  }

  lemma RunGrows(q: OutQ, sid: nat, each: nat, len: nat)
    requires q.Valid() && sid < |q.queues| && q.queues[sid] == []
    requires WithRun(q, sid, each, len).Valid()
    ensures Enqueue(WithRun(q, sid, each, len), sid, len) == WithRun(q, sid, each + 1, len)
  {
    hide OutQ.Valid;
    Lengths(q);
    var n := each + 1;
    var p := WithRun(q, sid, each, len);
    var run := Run(sid, q.count[sid], q.clock, n, len);
    assert run == p.queues[sid] + [Msg(sid, p.count[sid], p.clock, len)];
    assert p.queues[sid := run] == q.queues[sid := run];
    assert p.count[sid := q.count[sid] + n] == q.count[sid := q.count[sid] + n];
  }

  lemma {:induction false} EnqueueBlock(q: OutQ, sid: nat, each: nat, len: nat)
    requires q.Valid() && sid < |q.queues| && q.queues[sid] == []
    ensures FitsStreams(q, Block(sid, each, len))
    ensures EnqueueAll(q, Block(sid, each, len)) == WithRun(q, sid, each, len)
  {
    if each == 0 {
      assert q.queues[sid := []] == q.queues && q.count[sid := q.count[sid]] == q.count;
    } else {
      EnqueueBlock(q, sid, each - 1, len);
      assert Block(sid, each, len)[..each - 1] == Block(sid, each - 1, len);
      RunGrows(q, sid, each - 1, len);
    }
  }

  /** The queues after the whole send loop. */
  ghost predicate Loaded(q0: OutQ, q: OutQ, streams: nat, each: nat, len: nat) {
    && streams < |q.queues| == |q0.queues| == |q0.count| == |q.count|
    && q.ring == FromOne(if each == 0 then 0 else streams)
    && (forall s | 1 <= s <= streams ::
          q.queues[s] == Run(s, q0.count[s], q0.clock + Times(s - 1, each), each, len))
    && (forall s | 0 <= s < |q.queues| && (s == 0 || s > streams) ::
          q.queues[s] == [] && q.count[s] == q0.count[s])
    && q.clock == q0.clock + Times(streams, each)
  }

  lemma LoadedStep(q0: OutQ, q: OutQ, r: OutQ, s: nat, each: nat, len: nat)
    requires 1 <= s && Loaded(q0, q, s - 1, each, len) && s < |q.queues|
    requires r == WithRun(q, s, each, len)
    ensures Loaded(q0, r, s, each, len)
  {
  }

  lemma {:induction false} LoopLoads(q0: OutQ, streams: nat, each: nat, len: nat)
    requires Idle(q0) && streams < |q0.queues|
    ensures FitsStreams(q0, StreamMajor(streams, each, len))
    ensures Loaded(q0, EnqueueAll(q0, StreamMajor(streams, each, len)), streams, each, len)
  {
    if streams > 0 {
      LoopLoads(q0, streams - 1, each, len);
      var a, b := StreamMajor(streams - 1, each, len), Block(streams, each, len);
      var q := EnqueueAll(q0, a);
      EnqueueBlock(q, streams, each, len);
      EnqueueAllSplit(q0, a, b);
      LoadedStep(q0, q, EnqueueAll(q0, StreamMajor(streams, each, len)), streams, each, len);
    }
  }

  /** The waiting messages are exactly the `streams` times `each` that were sent. */
  lemma LoadedHolds(q0: OutQ, q: OutQ, streams: nat, each: nat, len: nat, m: Msg) returns (s: nat, c: nat)
    requires Loaded(q0, q, streams, each, len) && q.Holds(m)
    ensures 1 <= s <= streams && c < each && m == Nth(q0, each, len, s, c)
  {
    s := m.sid;
    assert 1 <= s <= streams;
    var c' :| 0 <= c' < |q.queues[s]| && q.queues[s][c'] == m;
    c := c';
  }

  lemma NthIsHeld(q0: OutQ, q: OutQ, streams: nat, each: nat, len: nat, s: nat, c: nat)
    requires Loaded(q0, q, streams, each, len)
    requires 1 <= s <= streams && c < each
    ensures q.Holds(Nth(q0, each, len, s, c))
  {
    assert q.queues[s][c] == Nth(q0, each, len, s, c);
  }

  lemma TurnOrderAsymmetric(q0: OutQ)
    ensures Asymmetric(TurnOrder(q0))
  {
  }

  /** In a loaded queue the turn of a message is its value, then its round, then its stream. */
  lemma LoadedTurns(q0: OutQ, q: OutQ, streams: nat, each: nat, len: nat, s: nat, c: nat, t: nat, d: nat)
    requires Loaded(q0, q, streams, each, len) && q.Valid()
    requires 1 <= s <= streams && c < each && 1 <= t <= streams && d < each
    ensures TurnBefore(q, Nth(q0, each, len, s, c), Nth(q0, each, len, t, d)) <==>
              || Class(q, s) < Class(q, t)
              || (Class(q, s) == Class(q, t) && (c < d || (c == d && s < t)))
  {
    var a, b := Nth(q0, each, len, s, c), Nth(q0, each, len, t, d);
    assert q.queues[s][0] == Nth(q0, each, len, s, 0) && q.queues[t][0] == Nth(q0, each, len, t, 0);
    assert q.ring[s - 1] == s && q.ring[t - 1] == t;
    assert Position(q.ring, s) == s - 1 && Position(q.ring, t) == t - 1;
  }

  /** The message at each place of a transmission order, given by stream and number. */
  datatype Place = Place(stream: nat, nth: nat)

  ghost function NthAt(q0: OutQ, each: nat, len: nat, p: Place): Msg
    requires 1 <= p.stream
  {
    Nth(q0, each, len, p.stream, p.nth)
  }

  ghost predicate Arranges(places: seq<Place>, streams: nat, each: nat) {
    && (forall i | 0 <= i < |places| :: 1 <= places[i].stream <= streams && places[i].nth < each)
    && (forall s, c | 1 <= s <= streams && 0 <= c < each :: Place(s, c) in places)
  }

  ghost function Messages(q0: OutQ, each: nat, len: nat, places: seq<Place>): (e: seq<Msg>)
    requires forall i | 0 <= i < |places| :: 1 <= places[i].stream
    ensures |e| == |places|
    ensures forall i | 0 <= i < |e| :: e[i] == NthAt(q0, each, len, places[i])
  {
    if places == [] then []
    else [NthAt(q0, each, len, places[0])] + Messages(q0, each, len, places[1..])
  }

  lemma ArrangedMembers(q0: OutQ, q: OutQ, streams: nat, each: nat, len: nat, places: seq<Place>, m: Msg)
    requires Loaded(q0, q, streams, each, len) && q.Valid() && Arranges(places, streams, each)
    ensures m in Messages(q0, each, len, places) <==> m in Drain(q)
  {
    hide OutQ.Valid, Drain, Loaded;
    DrainIsComplete(q, m);
    var e := Messages(q0, each, len, places);
    if m in e {
      var i :| 0 <= i < |e| && e[i] == m;
      NthIsHeld(q0, q, streams, each, len, places[i].stream, places[i].nth);
    }
    if q.Holds(m) {
      var s, c := LoadedHolds(q0, q, streams, each, len, m);
      assert Place(s, c) in places;
      var i :| 0 <= i < |places| && places[i] == Place(s, c);
      assert e[i] == m;
    }
  }

  /** The order in which first come, first served takes the places. */
  ghost predicate FcfsBefore(a: Place, b: Place) {
    a.stream < b.stream || (a.stream == b.stream && a.nth < b.nth)
  }

  /** The order by class, round and stream. */
  ghost predicate TurnPlaceBefore(q: OutQ, a: Place, b: Place)
    requires a.stream < |q.value| && b.stream < |q.value|
  {
    || Class(q, a.stream) < Class(q, b.stream)
    || (Class(q, a.stream) == Class(q, b.stream)
        && (a.nth < b.nth || (a.nth == b.nth && a.stream < b.stream)))
  }

  /** Any arrangement of the places in turn order is what priority or round robin transmits. */
  lemma DrainInTurns(q0: OutQ, q: OutQ, streams: nat, each: nat, len: nat, places: seq<Place>)
    requires Loaded(q0, q, streams, each, len) && q.Valid() && q.policy != Fcfs
    requires Arranges(places, streams, each)
    requires forall i, j | 0 <= i < j < |places| :: TurnPlaceBefore(q, places[i], places[j])
    ensures Drain(q) == Messages(q0, each, len, places)
  {
    var e := Messages(q0, each, len, places);
    forall i, j | 0 <= i < j < |e|
      ensures TurnBefore(q, e[i], e[j])
    {
      assert TurnPlaceBefore(q, places[i], places[j]);
      LoadedTurns(q0, q, streams, each, len, places[i].stream, places[i].nth, places[j].stream, places[j].nth);
    }
    DrainingStarts(q);
    DrainFollowsTurns(q, q);
    TurnOrderAsymmetric(q);
    forall m
      ensures m in e <==> m in Drain(q)
    {
      ArrangedMembers(q0, q, streams, each, len, places, m);
    }
    SortedUnique(TurnOrder(q), e, Drain(q));
  }

  lemma LoadedStamps(q0: OutQ, each: nat, len: nat, s: nat, c: nat, t: nat, d: nat)
    requires 1 <= s && 1 <= t && c < each && d < each
    requires FcfsBefore(Place(s, c), Place(t, d))
    ensures Earlier(Nth(q0, each, len, s, c), Nth(q0, each, len, t, d))
  {
    TimesIsProduct(s - 1, each);
    TimesIsProduct(t - 1, each);
    MulMonotone(s, t - 1, each);
    assert s * each == (s - 1) * each + each;
  }

  lemma LoadedStamped(q0: OutQ, q: OutQ, streams: nat, each: nat, len: nat)
    requires Loaded(q0, q, streams, each, len)
    ensures q.Stamped()
  {
    forall a, b | q.Holds(a) && q.Holds(b) && a.stamp == b.stamp
      ensures a == b
    {
      var s, c := LoadedHolds(q0, q, streams, each, len, a);
      var t, d := LoadedHolds(q0, q, streams, each, len, b);
      if FcfsBefore(Place(s, c), Place(t, d)) {
        LoadedStamps(q0, each, len, s, c, t, d);
      } else if FcfsBefore(Place(t, d), Place(s, c)) {
        LoadedStamps(q0, each, len, t, d, s, c);
      }
    }
  }

  lemma DrainInOrder(q0: OutQ, q: OutQ, streams: nat, each: nat, len: nat, places: seq<Place>)
    requires Loaded(q0, q, streams, each, len) && q.Valid() && q.policy == Fcfs
    requires Arranges(places, streams, each)
    requires forall i, j | 0 <= i < j < |places| :: FcfsBefore(places[i], places[j])
    ensures Drain(q) == Messages(q0, each, len, places)
  {
    var e := Messages(q0, each, len, places);
    forall i, j | 0 <= i < j < |e|
      ensures Earlier(e[i], e[j])
    {
      LoadedStamps(q0, each, len, places[i].stream, places[i].nth, places[j].stream, places[j].nth);
    }
    LoadedStamped(q0, q, streams, each, len);
    FcfsTransmitsInOrderOfArrival(q);
    forall m
      ensures m in e <==> m in Drain(q)
    {
      ArrangedMembers(q0, q, streams, each, len, places, m);
    }
    SortedUnique(Earlier, e, Drain(q));
  }
}
