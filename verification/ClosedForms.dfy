/** Position by position: which stream, and which of its messages, leaves at each step. */
module ClosedForms {
  import opened Sequences
  import opened Scheduler
  import opened SchedOrder

  function Sids(msgs: seq<Msg>): (s: seq<nat>)
    ensures |s| == |msgs|
    ensures forall i | 0 <= i < |s| :: s[i] == msgs[i].sid
  {
    if msgs == [] then [] else [msgs[0].sid] + Sids(msgs[1..])
  }

  lemma {:induction false} StreamsFit(q0: OutQ, streams: nat, each: nat, len: nat)
    requires streams < |q0.queues|
    ensures FitsStreams(q0, StreamMajor(streams, each, len))
  {
    if streams > 0 {
      StreamsFit(q0, streams - 1, each, len);
    }
  }

  /** The queues when the nested send loop has run with transmission held back. */
  function Filled(q0: OutQ, streams: nat, each: nat, len: nat): (q: OutQ)
    requires q0.Valid() && streams < |q0.queues|
    ensures q.Valid() && q.policy == q0.policy && q.value == q0.value && |q.queues| == |q0.queues|
  {
    StreamsFit(q0, streams, each, len);
    EnqueueAll(q0, StreamMajor(streams, each, len))
  }

  /** What leaves them afterwards. */
  function Released(q0: OutQ, streams: nat, each: nat, len: nat): (d: seq<Msg>)
    requires q0.Valid() && streams < |q0.queues|
  {
    Drain(Filled(q0, streams, each, len))
  }

  /** Messages 0 to `width - 1` of one stream. */
  function Row(s: nat, width: nat): (p: seq<Place>)
    ensures |p| == width
    ensures forall c | 0 <= c < width :: p[c] == Place(s, c)
  {
    if width == 0 then [] else Row(s, width - 1) + [Place(s, width - 1)]
  }

  /** Message `c` of streams 1 to `height`. */
  function Column(height: nat, c: nat): (p: seq<Place>)
    ensures |p| == height
    ensures forall i | 0 <= i < height :: p[i] == Place(i + 1, c)
  {
    if height == 0 then [] else Column(height - 1, c) + [Place(height, c)]
  }

  function RowsFirst(streams: nat, each: nat): (p: seq<Place>)
    ensures |p| == Times(streams, each)
  {
    if streams == 0 then [] else RowsFirst(streams - 1, each) + Row(streams, each)
  }

  function ColumnsFirst(streams: nat, each: nat): (p: seq<Place>)
    ensures |p| == Times(each, streams)
  {
    if each == 0 then [] else ColumnsFirst(streams, each - 1) + Column(streams, each - 1)
  }

  function LastRowFirst(streams: nat, each: nat): (p: seq<Place>)
    ensures |p| == Times(streams, each)
  {
    if streams == 0 then [] else Row(streams, each) + LastRowFirst(streams - 1, each)
  }

  // Each of the three lists holds every place, in its own order.

  ghost predicate RoundBefore(a: Place, b: Place) {
    a.nth < b.nth || (a.nth == b.nth && a.stream < b.stream)
  }

  ghost predicate LastStreamBefore(a: Place, b: Place) {
    b.stream < a.stream || (a.stream == b.stream && a.nth < b.nth)
  }

  lemma {:induction false} RowsFirstArranges(streams: nat, each: nat)
    ensures Arranges(RowsFirst(streams, each), streams, each)
    ensures SortedBy(FcfsBefore, RowsFirst(streams, each))
  {
    if streams > 0 {
      RowsFirstArranges(streams - 1, each);
      var a, b := RowsFirst(streams - 1, each), Row(streams, each);
      forall s, c | 1 <= s <= streams && 0 <= c < each
        ensures Place(s, c) in a + b
      {
        assert s == streams ==> b[c] == Place(s, c);
        assert s < streams ==> Place(s, c) in a;
      }
    }
  }

  lemma {:induction false} ColumnsFirstArranges(streams: nat, each: nat)
    ensures Arranges(ColumnsFirst(streams, each), streams, each)
    ensures SortedBy(RoundBefore, ColumnsFirst(streams, each))
  {
    if each > 0 {
      ColumnsFirstArranges(streams, each - 1);
      var a, b := ColumnsFirst(streams, each - 1), Column(streams, each - 1);
      forall s, c | 1 <= s <= streams && 0 <= c < each
        ensures Place(s, c) in a + b
      {
        assert c == each - 1 ==> b[s - 1] == Place(s, c);
        assert c < each - 1 ==> Place(s, c) in a;
      }
    }
  }

  lemma {:induction false} LastRowFirstArranges(streams: nat, each: nat)
    ensures Arranges(LastRowFirst(streams, each), streams, each)
    ensures SortedBy(LastStreamBefore, LastRowFirst(streams, each))
  {
    if streams > 0 {
      LastRowFirstArranges(streams - 1, each);
      var a, b := Row(streams, each), LastRowFirst(streams - 1, each);
      forall s, c | 1 <= s <= streams && 0 <= c < each
        ensures Place(s, c) in a + b
      {
        assert s == streams ==> a[c] == Place(s, c);
        assert s < streams ==> Place(s, c) in b;
      }
    }
  }

  // What stands at position i, without recursion.

  function FcfsPlace(i: nat, each: nat): (p: Place)
    requires each > 0
    ensures 1 <= p.stream
  {
    Place(i / each + 1, i % each)
  }

  function RoundRobinPlace(i: nat, streams: nat): (p: Place)
    requires streams > 0
    ensures 1 <= p.stream
  {
    Place(i % streams + 1, i / streams)
  }

  function FallingPlace(i: nat, streams: nat, each: nat): (p: Place)
    requires each > 0 && i / each < streams
    ensures 1 <= p.stream
  {
    Place(streams - i / each, i % each)
  }

  lemma {:induction false} RowsFirstAt(streams: nat, each: nat, i: nat)
    requires i < |RowsFirst(streams, each)|
    ensures each > 0
    ensures RowsFirst(streams, each)[i] == FcfsPlace(i, each)
  {
    var above := Times(streams - 1, each);
    if i < above {
      RowsFirstAt(streams - 1, each, i);
    } else {
      RowIndex(streams - 1, i - above, each);
    }
  }

  lemma {:induction false} ColumnsFirstAt(streams: nat, each: nat, i: nat)
    requires i < |ColumnsFirst(streams, each)|
    ensures streams > 0
    ensures ColumnsFirst(streams, each)[i] == RoundRobinPlace(i, streams)
  {
    var before := Times(each - 1, streams);
    if i < before {
      ColumnsFirstAt(streams, each - 1, i);
    } else {
      RowIndex(each - 1, i - before, streams);
    }
  }

  lemma OneRowDown(i: nat, each: nat)
    requires 0 < each <= i
    ensures i / each == (i - each) / each + 1 && i % each == (i - each) % each
  {
    var j := i - each;
    MulMonotone(0, each, j / each);
    assert i == (j / each + 1) * each + j % each;
    RowMajor(j / each + 1, j % each, each);
  }

  lemma {:induction false} LastRowFirstAt(streams: nat, each: nat, i: nat)
    requires i < |LastRowFirst(streams, each)|
    ensures each > 0 && i / each < streams
    ensures LastRowFirst(streams, each)[i] == FallingPlace(i, streams, each)
  {
    if i >= each {
      LastRowFirstAt(streams - 1, each, i - each);
      OneRowDown(i, each);
    } else {
      RowMajor(0, i, each);
    }
  }

  lemma ReleasedFcfs(q0: OutQ, streams: nat, each: nat, len: nat)
    requires Idle(q0) && q0.policy == Fcfs && streams < |q0.queues|
    ensures forall p | p in RowsFirst(streams, each) :: 1 <= p.stream
    ensures Released(q0, streams, each, len) == Messages(q0, each, len, RowsFirst(streams, each))
  {
    hide OutQ.Valid, EnqueueAll, Drain, StreamMajor, Messages;
    LoopLoads(q0, streams, each, len);
    RowsFirstArranges(streams, each);
    DrainInOrder(q0, Filled(q0, streams, each, len), streams, each, len, RowsFirst(streams, each));
  }

  /** First come, first served: position i carries message i % each of stream i / each + 1. */
  lemma FcfsClosedForm(q0: OutQ, streams: nat, each: nat, len: nat, i: nat)
    requires Idle(q0) && q0.policy == Fcfs && streams < |q0.queues|
    requires i < streams * each
    ensures var d := Released(q0, streams, each, len);
            && |d| == streams * each
            && each > 0
            && d[i] == NthAt(q0, each, len, FcfsPlace(i, each))
  {
    hide OutQ.Valid, Released;
    TimesIsProduct(streams, each);
    ReleasedFcfs(q0, streams, each, len);
    RowsFirstAt(streams, each, i);
  }

  /** Every stream competes in the same class: round robin, or priority with equal values. */
  ghost predicate OneClass(q: OutQ, streams: nat) {
    && streams < |q.value|
    && q.policy != Fcfs
    && (forall s | 1 <= s <= streams :: Class(q, s) == Class(q, 1))
  }

  lemma ReleasedRoundRobin(q0: OutQ, streams: nat, each: nat, len: nat)
    requires Idle(q0) && streams < |q0.queues| && OneClass(q0, streams)
    ensures forall p | p in ColumnsFirst(streams, each) :: 1 <= p.stream
    ensures Released(q0, streams, each, len) == Messages(q0, each, len, ColumnsFirst(streams, each))
  {
    hide OutQ.Valid, EnqueueAll, Drain, StreamMajor, Messages;
    LoopLoads(q0, streams, each, len);
    ColumnsFirstArranges(streams, each);
    var q, p := Filled(q0, streams, each, len), ColumnsFirst(streams, each);
    forall i, j | 0 <= i < j < |p|
      ensures p[i].stream < |q.value| && p[j].stream < |q.value| && TurnPlaceBefore(q, p[i], p[j])
    {
      assert RoundBefore(p[i], p[j]);
      assert Class(q0, p[i].stream) == Class(q0, p[j].stream);
    }
    DrainInTurns(q0, q, streams, each, len, p);
  }

  /** Round robin: position i carries message i / streams of stream i % streams + 1. */
  lemma RoundRobinClosedForm(q0: OutQ, streams: nat, each: nat, len: nat, i: nat)
    requires Idle(q0) && streams < |q0.queues| && OneClass(q0, streams)
    requires i < each * streams
    ensures var d := Released(q0, streams, each, len);
            && |d| == each * streams
            && streams > 0
            && d[i] == NthAt(q0, each, len, RoundRobinPlace(i, streams))
  {
    hide OutQ.Valid, Released;
    TimesIsProduct(each, streams);
    ReleasedRoundRobin(q0, streams, each, len);
    ColumnsFirstAt(streams, each, i);
  }

  ghost predicate ValuesFall(q: OutQ, streams: nat) {
    && streams < |q.value|
    && q.policy == Prio
    && (forall s, t | 1 <= s < t <= streams :: q.value[t] < q.value[s])
  }

  lemma ReleasedFalling(q0: OutQ, streams: nat, each: nat, len: nat)
    requires Idle(q0) && streams < |q0.queues| && ValuesFall(q0, streams)
    ensures forall p | p in LastRowFirst(streams, each) :: 1 <= p.stream
    ensures Released(q0, streams, each, len) == Messages(q0, each, len, LastRowFirst(streams, each))
  {
    hide OutQ.Valid, EnqueueAll, Drain, StreamMajor, Messages;
    LoopLoads(q0, streams, each, len);
    LastRowFirstArranges(streams, each);
    var q, p := Filled(q0, streams, each, len), LastRowFirst(streams, each);
    forall i, j | 0 <= i < j < |p|
      ensures p[i].stream < |q.value| && p[j].stream < |q.value| && TurnPlaceBefore(q, p[i], p[j])
    {
      assert LastStreamBefore(p[i], p[j]);
    }
    DrainInTurns(q0, q, streams, each, len, p);
  }

  /** Values that fall with the stream number: the blocks leave in reverse. */
  lemma FallingValuesClosedForm(q0: OutQ, streams: nat, each: nat, len: nat, i: nat)
    requires Idle(q0) && streams < |q0.queues| && ValuesFall(q0, streams)
    requires i < streams * each
    ensures var d := Released(q0, streams, each, len);
            && |d| == streams * each
            && each > 0 && i / each < streams
            && d[i] == NthAt(q0, each, len, FallingPlace(i, streams, each))
  {
    hide OutQ.Valid, Released;
    TimesIsProduct(streams, each);
    ReleasedFalling(q0, streams, each, len);
    LastRowFirstAt(streams, each, i);
  }

  // ---------------------------------------------------------------- the four tables

  const FCFS_SIDS: seq<nat> := [1, 1, 1, 2, 2, 2, 3, 3, 3]
  const RR_SIDS: seq<nat> := [1, 2, 3, 1, 2, 3, 1, 2, 3]
  const PRIO_A_SIDS: seq<nat> := [3, 3, 3, 2, 2, 2, 1, 1, 1]
  const PRIO_B_SIDS: seq<nat> := [3, 3, 3, 1, 2, 1, 2, 1, 2]

  function StreamsOf(places: seq<Place>): (s: seq<nat>)
    ensures |s| == |places|
    ensures forall i | 0 <= i < |s| :: s[i] == places[i].stream
  {
    if places == [] then [] else [places[0].stream] + StreamsOf(places[1..])
  }

  lemma SidsOfMessages(q0: OutQ, each: nat, len: nat, places: seq<Place>)
    requires forall i | 0 <= i < |places| :: 1 <= places[i].stream
    ensures Sids(Messages(q0, each, len, places)) == StreamsOf(places)
  {
  }

  lemma StreamsOfRows()
    ensures StreamsOf(RowsFirst(3, 3)) == FCFS_SIDS
  {
    assert RowsFirst(3, 3) == Row(1, 3) + Row(2, 3) + Row(3, 3);
  }

  lemma StreamsOfColumns()
    ensures StreamsOf(ColumnsFirst(3, 3)) == RR_SIDS
  {
    assert ColumnsFirst(3, 3) == Column(3, 0) + Column(3, 1) + Column(3, 2);
  }

  lemma StreamsOfLastRowFirst()
    ensures StreamsOf(LastRowFirst(3, 3)) == PRIO_A_SIDS
  {
    assert LastRowFirst(3, 3) == Row(3, 3) + Row(2, 3) + Row(1, 3);
  }

  lemma FcfsTable(q0: OutQ, len: nat)
    requires Idle(q0) && q0.policy == Fcfs && |q0.queues| > 3
    ensures Sids(Released(q0, 3, 3, len)) == FCFS_SIDS
  {
    hide OutQ.Valid, Released, RowsFirst, Sids, StreamsOf, Messages;
    ReleasedFcfs(q0, 3, 3, len);
    SidsOfMessages(q0, 3, len, RowsFirst(3, 3));
    StreamsOfRows();
  }

  lemma RoundRobinTable(q0: OutQ, len: nat)
    requires Idle(q0) && q0.policy == Rr && |q0.queues| > 3
    ensures Sids(Released(q0, 3, 3, len)) == RR_SIDS
  {
    assert OneClass(q0, 3);
    hide OutQ.Valid, Released, ColumnsFirst, Sids, StreamsOf, Messages;
    ReleasedRoundRobin(q0, 3, 3, len);
    SidsOfMessages(q0, 3, len, ColumnsFirst(3, 3));
    StreamsOfColumns();
  }

  lemma PriorityTableA(q0: OutQ, len: nat)
    requires Idle(q0) && |q0.queues| > 3 && ValuesFall(q0, 3)
    ensures Sids(Released(q0, 3, 3, len)) == PRIO_A_SIDS
  {
    hide OutQ.Valid, Released, LastRowFirst, Sids, StreamsOf, Messages;
    ReleasedFalling(q0, 3, 3, len);
    SidsOfMessages(q0, 3, len, LastRowFirst(3, 3));
    StreamsOfLastRowFirst();
  }

  const TABLE_B: seq<Place> := [Place(3, 0), Place(3, 1), Place(3, 2), Place(1, 0), Place(2, 0),
                                Place(1, 1), Place(2, 1), Place(1, 2), Place(2, 2)]

  lemma StreamsOfTableB()
    ensures StreamsOf(TABLE_B) == PRIO_B_SIDS
  {
  }

  lemma TableBInTurn(q: OutQ)
    requires q.policy == Prio && 3 < |q.value| && q.value[1] == q.value[2] > q.value[3]
    ensures forall i, j | 0 <= i < j < |TABLE_B| :: TurnPlaceBefore(q, TABLE_B[i], TABLE_B[j])
  {
  }

  lemma TableBArranges()
    ensures Arranges(TABLE_B, 3, 3)
  {
    var p := TABLE_B;
    forall s, c | 1 <= s <= 3 && 0 <= c < 3
      ensures Place(s, c) in p
    {
      assert s == 1 || s == 2 || s == 3;
    }
    assert p[3] == Place(1, 0) && p[5] == Place(1, 1) && p[7] == Place(1, 2);
    assert p[4] == Place(2, 0) && p[6] == Place(2, 1) && p[8] == Place(2, 2);
    assert p[0] == Place(3, 0) && p[1] == Place(3, 1) && p[2] == Place(3, 2);
  }

  /** Stream 3 alone in the better class, then streams 1 and 2 by turns. */
  lemma PriorityTableB(q0: OutQ, len: nat)
    requires Idle(q0) && q0.policy == Prio && 3 < |q0.queues| == |q0.value|
    requires q0.value[1] == q0.value[2] > q0.value[3]
    ensures Sids(Released(q0, 3, 3, len)) == PRIO_B_SIDS
  {
    hide OutQ.Valid, EnqueueAll, Drain, StreamMajor, Sids, StreamsOf, Messages;
    LoopLoads(q0, 3, 3, len);
    TableBArranges();
    var q := Filled(q0, 3, 3, len);
    TableBInTurn(q);
    DrainInTurns(q0, q, 3, 3, len, TABLE_B);
    SidsOfMessages(q0, 3, len, TABLE_B);
    StreamsOfTableB();
  }

  ghost predicate EqualValues(q: OutQ) {
    forall s, t | 0 <= s < |q.value| && 0 <= t < |q.value| :: q.value[s] == q.value[t]
  }

  lemma PolicyKeepsValid(q: OutQ)
    requires q.Valid()
    ensures q.(policy := Rr).Valid()
  {
  }

  lemma SamePop(q: OutQ)
    requires q.Valid() && q.policy == Prio && q.ring != []
    requires q.(policy := Rr).Valid() && BestFrom(q, 0) == BestFrom(q.(policy := Rr), 0)
    ensures Next(q) == Next(q.(policy := Rr))
    ensures Pop(q).(policy := Rr) == Pop(q.(policy := Rr))
    ensures Pop(q).policy == Prio && Pop(q).value == q.value
  {
  }

  lemma {:induction false} SamePick(q: OutQ, i: nat)
    requires q.Valid() && q.policy == Prio && i < |q.ring| && EqualValues(q)
    requires q.(policy := Rr).Valid()
    ensures BestFrom(q, i) == i == BestFrom(q.(policy := Rr), i)
    decreases |q.ring| - i
  {
    assert Weight(q, q.ring[BestFrom(q, i)]) == Weight(q, q.ring[i]);
  }

  /**
   * Priority with equal values cannot be told from round robin, whatever the queues hold.
   */
  lemma {:induction false} EqualValuesAreRoundRobin(q: OutQ)
    requires q.Valid() && q.policy == Prio && EqualValues(q)
    ensures q.(policy := Rr).Valid()
    ensures Drain(q) == Drain(q.(policy := Rr))
    decreases Size(q.queues)
  {
    if q.ring != [] {
      PolicyKeepsValid(q);
      SamePick(q, 0);
      SamePop(q);
      EqualValuesAreRoundRobin(Pop(q));
    }
  }
}
