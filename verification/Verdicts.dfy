/**
 * What each check function decides, as a property of the data received and not of the order in
 * which the counters are touched.
 */
module Verdicts {
  import opened Server

  ghost predicate AllRecv(d: seq<Event>) {
    forall i | 0 <= i < |d| :: d[i].Recv?
  }

  function Sum(d: seq<Event>): int
    requires forall i | 0 <= i < |d| :: d[i].Recv?
    decreases |d|
  {
    if d == [] then 0 else Sum(d[..|d| - 1]) + d[|d| - 1].len
  }

  lemma FoldLast(check: Check, cb: Cb, d: seq<Event>)
    requires AllRecv(d) && d != [] && InTable(check, cb, |d|)
    ensures InTable(check, Fold(check, cb, d[..|d| - 1]), 1)
    ensures Fold(check, cb, d) == Step(check, Fold(check, cb, d[..|d| - 1]), d[|d| - 1])
  {
    OrderIndex(check, cb, d[..|d| - 1]);
  }

  /** Pieces that are not empty make every later prefix longer. */
  ghost predicate Positive(d: seq<Event>) {
    forall i | 0 <= i < |d| :: d[i].Recv? && d[i].len > 0
  }

  lemma {:induction false} PrefixSumsIncrease(d: seq<Event>, j: nat, k: nat)
    requires Positive(d) && j < k <= |d|
    ensures Sum(d[..j]) < Sum(d[..k])
  {
    assert d[..k][..k - 1] == d[..k - 1];
    if j < k - 1 {
      PrefixSumsIncrease(d, j, k - 1);
    }
  }

  // ---------------------------------------------------------------- the order table

  /** The streams received so far are the first entries of the table. */
  ghost predicate IsTablePrefix(sids: seq<nat>, d: seq<Event>)
    requires AllRecv(d)
  {
    |d| <= |sids| && forall i | 0 <= i < |d| :: d[i].sid == sids[i]
  }

  /**
   * The verdict is 0 exactly when what came is a prefix of the table: one wrong stream is never
   * forgiven, a missing tail never noticed.
   */
  lemma {:induction false} OrderVerdict(sids: seq<nat>, d: seq<Event>)
    requires AllRecv(d) && |d| <= |sids|
    ensures Fold(Order(sids), Start(0), d).cb1 == 0 <==> IsTablePrefix(sids, d)
    ensures Fold(Order(sids), Start(0), d).cb1 in {0, 1}
  {
    if d != [] {
      var n := |d| - 1;
      OrderVerdict(sids, d[..n]);
      FoldLast(Order(sids), Start(0), d);
      OrderIndex(Order(sids), Start(0), d[..n]);
      assert forall i | 0 <= i < n :: d[..n][i] == d[i];
    }
  }

  /** With as many messages as the table has entries, the verdict is 0 only for the table itself. */
  lemma OrderVerdictComplete(sids: seq<nat>, d: seq<Event>)
    requires AllRecv(d) && |d| == |sids|
    ensures Fold(Order(sids), Start(0), d).cb1 == 0 <==> forall i | 0 <= i < |sids| :: d[i].sid == sids[i]
  {
    OrderVerdict(sids, d);
  }

  // ---------------------------------------------------------------- performance counters

  /** The message counter starts the clock on the first delivery and reports once, on the target. */
  lemma {:induction false} CountReportsOnce(target: int, cb1: int, d: seq<Event>)
    requires AllRecv(d) && target > 1
    ensures var cb := Fold(Count(target), Start(cb1), d);
            && cb.cb0 == |d|
            && cb.reports == (if |d| >= target then [target] else [])
            && cb.cb1 == cb1
            && (d != [] ==> cb.cb3 == d[0].now)
  {
    if d != [] {
      CountReportsOnce(target, cb1, d[..|d| - 1]);
      FoldLast(Count(target), Start(cb1), d);
    }
  }

  /** Some prefix of at least two pieces adds up to the target. */
  ghost predicate Hits(target: int, d: seq<Event>, from: nat)
    requires AllRecv(d)
  {
    exists k :: from <= k <= |d| && Sum(d[..k]) == target
  }

  ghost predicate Clocked(d: seq<Event>) {
    forall i | 0 <= i < |d| :: d[i].Recv? && d[i].now != 0
  }

  lemma HitsGrows(target: int, d: seq<Event>, from: nat)
    requires Positive(d) && d != []
    ensures var e := d[..|d| - 1];
            && (Hits(target, d, from) <==> Hits(target, e, from) || (from <= |d| && Sum(d) == target))
            && !(Hits(target, e, from) && Sum(d) == target)
  {
    var n := |d| - 1;
    var e := d[..n];
    assert d[..|d|] == d;
    forall k | 0 <= k <= n
      ensures d[..k] == e[..k] && Sum(d[..k]) < Sum(d)
    {
      PrefixSumsIncrease(d, k, |d|);
    }
    if Hits(target, e, from) {
      var k :| from <= k <= |e| && Sum(e[..k]) == target;
      assert Sum(d[..k]) == target;
    }
    if Hits(target, d, from) && Sum(d) != target {
      var k :| from <= k <= |d| && Sum(d[..k]) == target;
      assert Sum(e[..k]) == target;
    }
    assert from <= |d| && Sum(d) == target ==> Sum(d[..|d|]) == target;
  }

  /**
   * The byte counter reports once if some prefix of two pieces or more adds up to the target, and
   * never otherwise: the first delivery only starts the clock.
   */
  lemma {:induction false} BytesReportOnce(target: int, cb1: int, d: seq<Event>)
    requires Positive(d) && Clocked(d)
    ensures var cb := Fold(Bytes(target), Start(cb1), d);
            && cb.cb0 == Sum(d)
            && cb.cb3 == (if d == [] then 0 else d[0].now)
            && cb.reports == (if Hits(target, d, 2) then [target] else [])
            && cb.cb1 == cb1
  {
    if d != [] {
      var n := |d| - 1;
      var e := d[..n];
      BytesReportOnce(target, cb1, e);
      FoldLast(Bytes(target), Start(cb1), d);
      HitsGrows(target, d, 2);
    }
  }

  /** The tally is the number of bytes received; it never objects and never reports. */
  lemma {:induction false} TallyAddsUp(verdict: int, d: seq<Event>)
    requires AllRecv(d)
    ensures var cb := Fold(Tally, Start(verdict), d);
            cb.cb0 == Sum(d) && cb.cb1 == verdict && cb.reports == []
  {
    if d != [] {
      TallyAddsUp(verdict, d[..|d| - 1]);
      FoldLast(Tally, Start(verdict), d);
    }
  }

  /** When everything sent arrives, in however many pieces, the report comes on the last one. */
  lemma BytesReportOnTheLast(target: int, cb1: int, d: seq<Event>)
    requires Positive(d) && Clocked(d) && |d| >= 2 && Sum(d) == target
    ensures Fold(Bytes(target), Start(cb1), d).reports == [target]
    ensures Fold(Bytes(target), Start(cb1), d[..|d| - 1]).reports == []
  {
    BytesReportOnce(target, cb1, d);
    BytesReportOnce(target, cb1, d[..|d| - 1]);
    HitsGrows(target, d, 2);
  }

  // ---------------------------------------------------------------- the running-total latch

  /**
   * The latch: the verdict becomes 0 exactly when some prefix of the deliveries hits the target,
   * and then stays 0 whatever follows.
   */
  lemma {:induction false} TotalVerdict(target: int, d: seq<Event>)
    requires Positive(d)
    ensures var cb := Fold(Total(target), Start(1), d);
            cb.cb3 == Sum(d) && cb.cb1 == if Hits(target, d, 1) then 0 else 1
  {
    if d != [] {
      TotalVerdict(target, d[..|d| - 1]);
      FoldLast(Total(target), Start(1), d);
      HitsGrows(target, d, 1);
    }
  }

  /**
   * For any way of cutting what was sent into pieces: as long as no more than the target arrives,
   * the verdict is 0 if and only if all of it arrived.
   */
  lemma TotalVerdictExact(target: int, d: seq<Event>)
    requires Positive(d) && d != [] && Sum(d) <= target
    ensures Fold(Total(target), Start(1), d).cb1 == 0 <==> Sum(d) == target
  {
    TotalVerdict(target, d);
    HitsGrows(target, d, 1);
    if Hits(target, d[..|d| - 1], 1) {
      var e := d[..|d| - 1];
      var k :| 1 <= k <= |e| && Sum(e[..k]) == target;
      assert d[..k] == e[..k] && d[..|d|] == d;
      PrefixSumsIncrease(d, k, |d|);
    }
  }

  /** Too much is not noticed: a duplicate after the last message leaves the verdict at 0. */
  lemma OverdeliveryPasses(target: int, d: seq<Event>, extra: seq<Event>)
    requires Positive(d) && Positive(extra) && Positive(d + extra)
    requires d != [] && Sum(d) == target
    ensures Fold(Total(target), Start(1), d + extra).cb1 == 0
  {
    TotalVerdict(target, d + extra);
    assert (d + extra)[..|d|] == d;
    assert Hits(target, d + extra, 1);
  }

  // ---------------------------------------------------------------- overwriting checks

  /** Only the latest message counts. */
  lemma LastLengthVerdict(length: int, d: seq<Event>)
    requires AllRecv(d)
    ensures Fold(LastLength(length), Start(1), d).cb1
         == Flag(d == [] || d[|d| - 1].len != length)
  {
    if d != [] {
      FoldLast(LastLength(length), Start(1), d);
    }
  }

  /** One unit if one message came, two units in all if more did. */
  lemma {:induction false} FirstThenBothVerdict(unit: int, d: seq<Event>)
    requires AllRecv(d)
    ensures var cb := Fold(FirstThenBoth(unit), Start(1), d);
            && cb.cb3 == |d| && cb.cb4 == Sum(d)
            && cb.cb1 == Flag(d == [] || Sum(d) != if |d| == 1 then unit else 2 * unit)
  {
    if d != [] {
      FirstThenBothVerdict(unit, d[..|d| - 1]);
      FoldLast(FirstThenBoth(unit), Start(1), d);
    }
  }

  function FourTarget(n: nat): int {
    if n == 1 then 1 else if n == 2 then 2 else if n == 3 then 1002 else 2002
  }

  /** Only the first four messages count, and of those only how many there are and their sum. */
  lemma {:induction false} FourTotalsVerdict(d: seq<Event>)
    requires AllRecv(d)
    ensures var cb := Fold(FourTotals, Start(1), d);
            && cb.cb3 == |d|
            && cb.cb4 == Sum(d)
            && cb.cb1 == (var n := if |d| <= 4 then |d| else 4;
                          Flag(n == 0 || Sum(d[..n]) != FourTarget(n)))
  {
    if d != [] {
      var e := d[..|d| - 1];
      FourTotalsVerdict(e);
      FoldLast(FourTotals, Start(1), d);
      assert d[..|d|] == d && e[..|e|] == e;
      assert |d| > 4 ==> e[..4] == d[..4];
    }
  }

  /** The messages of the eviction script are 1 or 1000 bytes long. */
  ghost predicate SmallOrLarge(d: seq<Event>) {
    forall i | 0 <= i < |d| :: d[i].Recv? && (d[i].len == 1 || d[i].len == 1000)
  }

  function Those(d: seq<Event>, len: int): seq<Event> {
    if d == [] then []
    else Those(d[..|d| - 1], len)
         + if d[|d| - 1].Recv? && d[|d| - 1].len == len then [d[|d| - 1]] else []
  }

  lemma {:induction false} SumBySize(d: seq<Event>)
    requires SmallOrLarge(d)
    ensures |d| == |Those(d, 1)| + |Those(d, 1000)|
    ensures Sum(d) == |Those(d, 1)| + 1000 * |Those(d, 1000)|
  {
    if d != [] {
      SumBySize(d[..|d| - 1]);
    }
  }

  /** The fourth total is met by exactly two of each. */
  lemma FourMeansTwoOfEach(d: seq<Event>)
    requires SmallOrLarge(d) && |d| == 4
    ensures Sum(d) == 2002 <==> |Those(d, 1)| == 2 && |Those(d, 1000)| == 2
  {
    SumBySize(d);
  }
}
