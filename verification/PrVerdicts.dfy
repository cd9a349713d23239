/**
 * What the verdict of each case says, for a client that closes only when nothing else can move:
 * which losses are possible at all, and whether the check function notices the ones that are missing.
 */
module PrVerdicts {
  import opened Sequences
  import opened Server
  import opened Verdicts
  import opened PrClient
  import opened PrWorld
  import opened PrInvariant
  import opened PrTheorems
  import opened PrProgress
  import opened PrPrograms

  /** The messages a case can lose. */
  function Losable(c: nat): set<nat>
    requires c < CASES
  {
    if Cases(c).test.Threaded? then {0, 2, 3} else {0}
  }

  lemma CaseMsgs(p: Plan, c: nat, id: nat)
    requires IsCase(p, c)
    ensures |Msgs(Cases(c))| == if Cases(c).test.Threaded? then 7
                                else if Cases(c).test in {LapseThree, EvictThree} then 3 else 2
    ensures id < |Msgs(Cases(c))| ==> p.MsgOf(id) == Msgs(Cases(c))[id]
  {
    hide BodyOps;
    CasesFit(p, c);
  }

  /** The other messages have no limit of their own and yield to none of the case. */
  lemma OthersStay(c: nat, id: nat, other: nat)
    requires c < CASES && id < |Msgs(Cases(c))| && other < |Msgs(Cases(c))|
    ensures id !in Losable(c) ==>
      Msgs(Cases(c))[id].policy !in {Lifetime, Retransmissions}
      && !Yields(Msgs(Cases(c))[id], Msgs(Cases(c))[other])
  {
  }

  lemma SameMsgs(p: Plan, c: nat)
    requires IsCase(p, c)
    ensures Sends(p.body) == Msgs(Cases(c))
  {
    CasesFit(p, c);
  }

  /** Only those can be given up, for whatever reason. */
  lemma OnlyLosable(p: Plan, c: nat, accepted: nat, l: Loss)
    requires IsCase(p, c) && l.id < accepted <= |Msgs(Cases(c))| && Justified(p, accepted, l)
    ensures l.id in Losable(c)
  {
    assert c < CASES;
    hide Plan.MsgOf, IsCase, Sends, Cases, Msgs, Losable, Yields;
    CaseMsgs(p, c, l.id);
    SameMsgs(p, c);
    if l.reason.Displaced? {
      CaseMsgs(p, c, l.reason.winner);
      OthersStay(c, l.id, l.reason.winner);
    } else {
      OthersStay(c, l.id, 0);
    }
  }

  lemma {:induction false} DistinctIn(s: seq<nat>, all: set<nat>)
    requires forall x :: multiset(s)[x] <= 1
    requires forall x | x in s :: x in all
    ensures |s| <= |all|
    ensures |s| == |all| ==> forall x | x in all :: x in s
  {
    if s != [] {
      var n := |s| - 1;
      assert s == s[..n] + [s[n]];
      assert multiset(s) == multiset(s[..n]) + multiset{s[n]};
      forall x
        ensures multiset(s[..n])[x] <= 1
        ensures x in s[..n] ==> x in all - {s[n]}
      {
        assert multiset(s)[x] <= 1;
        assert x in s[..n] ==> x in multiset(s[..n]);
      }
      DistinctIn(s[..n], all - {s[n]});
    }
  }

  lemma LastCounts(p: Plan, ids: seq<nat>)
    requires ids != []
    ensures ByteCount(p, ids) == ByteCount(p, ids[..|ids| - 1]) + p.MsgOf(ids[|ids| - 1]).len
  {
  }

  /** Bytes lost: every losable message of a case has the same length. */
  lemma {:induction false} LostBytes(p: Plan, ids: seq<nat>, len: nat)
    requires forall id | id in ids :: p.MsgOf(id).len == len
    ensures ByteCount(p, ids) == len * |ids|
  {
    hide Plan.MsgOf;
    if ids != [] {
      LastCounts(p, ids);
      LostBytes(p, ids[..|ids| - 1], len);
    }
  }

  lemma {:induction false} BytesRead(p: Plan, read: seq<nat>, seen: seq<Event>)
    requires |seen| == |read|
    requires forall i | 0 <= i < |read| :: seen[i].Recv? && seen[i].len == p.MsgOf(read[i]).len
    ensures AllRecv(seen) && Sum(seen) == ByteCount(p, read)
  {
    hide Plan.MsgOf;
    if read != [] {
      LastCounts(p, read);
      BytesRead(p, read[..|read| - 1], seen[..|seen| - 1]);
    }
  }

  /** The state a patient client leaves behind: each message read or given up, once. */
  ghost predicate Over(p: Plan, w: World) {
    && multiset(w.read) + multiset(Ids(w.gone)) == multiset(UpTo(|Sends(p.body)|))
    && Explained(p, |Sends(p.body)|, w.gone)
    && Counted(p, w.read, w.seen, w.cb)
  }

  lemma SettledIsOver(p: Plan, w: World)
    requires Inv(p, w) && Settled(p, w)
    ensures Over(p, w)
  {
    hide Filtering, Commanded, Roomed, Explained, Counted, Ids, UpTo;
    assert w.read + [] == w.read;
  }

  lemma PatientRunsAreOver(p: Plan, schedule: seq<Choice>)
    requires p.Good() && p.Restores() && !p.check.Order? && Patient(p, schedule)
    ensures var w := After(p, Init(p), schedule); w.exited ==> Over(p, w)
  {
    hide After, Init, Plan.Good, Patient, Settled, Over, Inv;
    EveryRunKeepsInvariant(p, schedule);
    PatientRunsSettle(p, schedule);
    if After(p, Init(p), schedule).exited {
      SettledIsOver(p, After(p, Init(p), schedule));
    }
  }

  lemma OnceInRange(n: nat, x: int)
    ensures multiset(UpTo(n))[x] == if 0 <= x < n then 1 else 0
  {
    if x >= 0 {
      OnceEach(n, x);
    } else {
      assert x !in UpTo(n);
    }
  }

  lemma OncePerMessage(p: Plan, c: nat, w: World, x: int)
    requires IsCase(p, c) && Over(p, w)
    ensures multiset(w.read)[x] + multiset(Ids(w.gone))[x] == if 0 <= x < |Msgs(Cases(c))| then 1 else 0
  {
    assert c < CASES;
    hide IsCase, Msgs, Counted, Explained, Ids, Sends, Cases, UpTo;
    SameMsgs(p, c);
    OnceInRange(|Msgs(Cases(c))|, x);
    assert (multiset(w.read) + multiset(Ids(w.gone)))[x] == multiset(UpTo(|Msgs(Cases(c))|))[x];
  }

  lemma LossIsLosable(p: Plan, c: nat, w: World, id: nat)
    requires IsCase(p, c) && Over(p, w) && id in Ids(w.gone)
    ensures id in Losable(c)
  {
    assert c < CASES;
    hide IsCase, Msgs, Losable, Counted, Justified, Ids, Sends, Cases, UpTo;
    SameMsgs(p, c);
    IdsCount(w.gone);
    OncePerMessage(p, c, w, id);
    assert id in multiset(Ids(w.gone));
    var i :| 0 <= i < |w.gone| && Ids(w.gone)[i] == id;
    assert Justified(p, |Msgs(Cases(c))|, w.gone[i]);
    OnlyLosable(p, c, |Msgs(Cases(c))|, w.gone[i]);
  }

  lemma ReadCount(p: Plan, c: nat, w: World)
    requires IsCase(p, c) && Over(p, w)
    ensures |w.read| + |w.gone| == |Msgs(Cases(c))|
  {
    assert c < CASES;
    hide IsCase, Msgs, Counted, Explained, Ids, Sends, Cases;
    SameMsgs(p, c);
    IdsCount(w.gone);
    assert |multiset(w.read) + multiset(Ids(w.gone))| == |multiset(UpTo(|Msgs(Cases(c))|))|;
  }

  lemma LossesOf(p: Plan, c: nat, w: World)
    requires IsCase(p, c) && Over(p, w)
    ensures forall id | id in Ids(w.gone) :: id in Losable(c)
    ensures |w.gone| <= |Losable(c)|
    ensures |w.gone| == |Losable(c)| ==> forall id | id in Losable(c) :: id in Ids(w.gone)
    ensures |w.read| == |Msgs(Cases(c))| - |w.gone|
    ensures forall x :: multiset(w.read)[x] + multiset(Ids(w.gone))[x] == if 0 <= x < |Msgs(Cases(c))| then 1 else 0
  {
    assert c < CASES;
    hide IsCase, Over, Msgs, Losable, Ids, Cases;
    IdsCount(w.gone);
    forall x
      ensures multiset(w.read)[x] + multiset(Ids(w.gone))[x] == if 0 <= x < |Msgs(Cases(c))| then 1 else 0
    {
      OncePerMessage(p, c, w, x);
    }
    forall id | id in Ids(w.gone)
      ensures id in Losable(c)
    {
      LossIsLosable(p, c, w, id);
    }
    DistinctIn(Ids(w.gone), Losable(c));
    ReadCount(p, c, w);
  }

  /** Length of a losable message, and of all messages together. */
  function LosableLen(c: nat): nat
    requires c < CASES
  {
    match Cases(c).test
    case LapseThree => 100
    case Threaded(_) => 1
    case _ => Cases(c).length
  }

  function AllLen(c: nat): nat
    requires c < CASES
  {
    match Cases(c).test
    case LapseThree => 300
    case EvictThree => 6500
    case Threaded(_) => 2005
    case _ => Cases(c).length + 1000
  }

  lemma {:induction false} BytesOfFirst(p: Plan, n: nat)
    ensures ByteCount(p, UpTo(n)) == if n == 0 then 0 else ByteCount(p, UpTo(n - 1)) + p.MsgOf(n - 1).len
  {
    hide Plan.MsgOf;
    if n > 0 {
      LastCounts(p, UpTo(n));
      assert UpTo(n)[..n - 1] == UpTo(n - 1);
    } else {
      assert UpTo(0) == [];
    }
  }

  lemma BytesOfThree(p: Plan)
    ensures ByteCount(p, UpTo(2)) == p.MsgOf(0).len + p.MsgOf(1).len
    ensures ByteCount(p, UpTo(3)) == p.MsgOf(0).len + p.MsgOf(1).len + p.MsgOf(2).len
  {
    hide Plan.MsgOf, ByteCount, UpTo;
    BytesOfFirst(p, 0);
    BytesOfFirst(p, 1);
    BytesOfFirst(p, 2);
    BytesOfFirst(p, 3);
  }

  lemma BytesOfSeven(p: Plan)
    ensures ByteCount(p, UpTo(7)) == p.MsgOf(0).len + p.MsgOf(1).len + p.MsgOf(2).len + p.MsgOf(3).len
                                     + p.MsgOf(4).len + p.MsgOf(5).len + p.MsgOf(6).len
  {
    hide Plan.MsgOf, ByteCount, UpTo;
    BytesOfThree(p);
    BytesOfFirst(p, 4);
    BytesOfFirst(p, 5);
    BytesOfFirst(p, 6);
    BytesOfFirst(p, 7);
  }

  lemma AllBytes(p: Plan, c: nat)
    requires IsCase(p, c)
    ensures ByteCount(p, UpTo(|Msgs(Cases(c))|)) == AllLen(c)
  {
    assert c < CASES;
    hide Plan.MsgOf, IsCase, ByteCount, UpTo;
    CaseMsgs(p, c, 0);
    CaseMsgs(p, c, 1);
    CaseMsgs(p, c, 2);
    if Cases(c).test.Threaded? {
      BytesOfSeven(p);
      CaseMsgs(p, c, 3);
      CaseMsgs(p, c, 4);
      CaseMsgs(p, c, 5);
      CaseMsgs(p, c, 6);
    } else {
      BytesOfThree(p);
    }
  }

  lemma CheckOf(p: Plan, c: nat)
    requires IsCase(p, c)
    ensures p.check == Cases(c).check
  {
  }

  lemma LosableLength(p: Plan, c: nat, id: nat)
    requires IsCase(p, c) && id in Losable(c)
    ensures p.MsgOf(id).len == LosableLen(c)
  {
    assert c < CASES;
    hide IsCase, Plan.MsgOf;
    CaseMsgs(p, c, id);
  }

  lemma ReadAndLost(p: Plan, a: seq<nat>, b: seq<nat>, all: seq<nat>)
    requires multiset(a) + multiset(b) == multiset(all)
    ensures ByteCount(p, a) + ByteCount(p, b) == ByteCount(p, all)
  {
    hide Load;
    var q := p.(cost := (n: nat) => n);
    LoadSplit(q, a, b);
    assert multiset(a + b) == multiset(all);
    assert |a + b| == |multiset(a + b)| == |all|;
    LoadOfPart(q, a + b, all);
  }

  /** How much was read follows from how many messages were given up. */
  lemma SumOf(p: Plan, c: nat, w: World)
    requires IsCase(p, c) && Over(p, w)
    ensures AllRecv(w.seen) && |w.seen| == |Msgs(Cases(c))| - |w.gone|
    ensures Sum(w.seen) == AllLen(c) - LosableLen(c) * |w.gone|
    ensures w.cb == Fold(Cases(c).check, Start(1), w.seen)
  {
    assert c < CASES;
    hide IsCase, Msgs, Cases, Sends, Losable, LosableLen, AllLen, Ids, Fold, Plan.MsgOf, UpTo, ByteCount, Explained;
    LossesOf(p, c, w);
    SameMsgs(p, c);
    IdsCount(w.gone);
    CheckOf(p, c);
    forall id | id in Ids(w.gone)
      ensures p.MsgOf(id).len == LosableLen(c)
    {
      LosableLength(p, c, id);
    }
    LostBytes(p, Ids(w.gone), LosableLen(c));
    BytesRead(p, w.read, w.seen);
    AllBytes(p, c);
    ReadAndLost(p, w.read, Ids(w.gone), UpTo(|Msgs(Cases(c))|));
  }

  // ---------------------------------------------------------------- the verdicts

  /** Everything that may be given up was. */
  ghost predicate AllGivenUp(c: nat, w: World)
    requires c < CASES
  {
    |w.gone| == |Losable(c)|
  }

  /** The cases that add up. */
  lemma ThreeMessages(c: nat)
    requires c < CASES && Cases(c).check.FirstThenBoth?
    ensures |Msgs(Cases(c))| == 3 && |Losable(c)| == 1 && LosableLen(c) > 0
    ensures AllLen(c) - LosableLen(c) == 2 * Cases(c).check.unit
  {
  }

  /** With at most one of `n` messages lost, the sum tells whether it was. */
  lemma SumTells(sum: int, all: int, len: int, lost: nat, unit: int)
    requires lost <= 1 && len > 0 && all - len == 2 * unit && sum == all - len * lost
    ensures sum == 2 * unit <==> lost == 1
  {
    assert lost == 0 ==> len * lost == 0;
    assert lost == 1 ==> len * lost == len;
  }

  /** The checks that add up notice a message that should have been given up, in any order. */
  lemma FirstThenBothNotices(p: Plan, c: nat, w: World)
    requires IsCase(p, c) && Over(p, w) && Cases(c).check.FirstThenBoth?
    ensures w.cb.cb1 == 0 <==> AllGivenUp(c, w)
  {
    assert c < CASES;
    hide IsCase, Fold, Ids, Sum, Explained, Counted, Over, Msgs, Cases, Losable, LosableLen, AllLen;
    SumOf(p, c, w);
    LossesOf(p, c, w);
    ThreeMessages(c);
    SumTells(Sum(w.seen), AllLen(c), LosableLen(c), |w.gone|, Cases(c).check.unit);
    FirstThenBothVerdict(Cases(c).check.unit, w.seen);
  }

  /** The cases that look at the latest length only. */
  lemma TwoMessages(c: nat)
    requires c < CASES && Cases(c).check.LastLength?
    ensures Cases(c).check == LastLength(1000)
    ensures var m := Msgs(Cases(c));
            && |m| == 2 && m[0].len != 1000 && m[1].len == 1000
            && |Losable(c)| == 1 && LosableLen(c) == m[0].len && AllLen(c) == m[0].len + 1000
  {
  }

  /** The cases with the four totals. */
  lemma SevenMessages(c: nat)
    requires c < CASES && (Cases(c).check.FourTotals? || Cases(c).test.Threaded?)
    ensures Cases(c).check == FourTotals && Cases(c).test.Threaded?
    ensures var m := Msgs(Cases(c));
            && |m| == 7 && (forall i | 0 <= i < 5 :: m[i].len == 1) && m[5].len == 1000 && m[6].len == 1000
            && |Losable(c)| == 3 && LosableLen(c) == 1 && AllLen(c) == 2005
  {
  }

  lemma FourTotalsPass(p: Plan, c: nat, w: World)
    requires IsCase(p, c) && Over(p, w) && AllGivenUp(c, w) && Cases(c).check.FourTotals?
    ensures w.cb.cb1 == 0
  {
    assert c < CASES;
    hide IsCase, Fold, Ids, Explained, Over, Msgs, Sum, Cases, Losable, LosableLen, AllLen;
    SumOf(p, c, w);
    SevenMessages(c);
    assert w.seen[..4] == w.seen;
    FourTotalsVerdict(w.seen);
  }

  /** The check of the latest length sees the message that cannot be given up. */
  lemma LastLengthPasses(p: Plan, c: nat, w: World)
    requires IsCase(p, c) && Over(p, w) && AllGivenUp(c, w) && Cases(c).check.LastLength?
    ensures w.cb.cb1 == 0
  {
    assert c < CASES;
    hide IsCase, Fold, Ids, Explained, Over, Msgs, Cases, Losable, LosableLen, AllLen;
    SumOf(p, c, w);
    TwoMessages(c);
    assert |w.seen| == 1 && Sum(w.seen) == 1000;
    assert w.seen[..0] == [];
    LastLengthVerdict(1000, w.seen);
  }

  /** Once everything that may be given up was, every case passes, in any order of delivery. */
  lemma GivenUpPasses(p: Plan, c: nat, w: World)
    requires IsCase(p, c) && Over(p, w) && AllGivenUp(c, w)
    ensures w.cb.cb1 == 0
  {
    assert c < CASES;
    hide IsCase, Over, AllGivenUp;
    match Cases(c).check {
      case FirstThenBoth(_) => FirstThenBothNotices(p, c, w);
      case FourTotals => FourTotalsPass(p, c, w);
      case LastLength(_) => LastLengthPasses(p, c, w);
    }
  }

  /** In order of sending, what was read is increasing. */
  ghost predicate ReadInOrder(w: World) {
    Increasing(w.read)
  }

  lemma LensOf(p: Plan, c: nat, w: World, i: nat)
    requires IsCase(p, c) && Over(p, w) && i < |w.read|
    ensures |w.seen| == |w.read| && w.read[i] < |Msgs(Cases(c))|
    ensures w.seen[i].Recv? && w.seen[i].len == Msgs(Cases(c))[w.read[i]].len
  {
    assert c < CASES;
    hide IsCase, Msgs, Cases, Fold, Ids, Explained, UpTo, Sends, Plan.MsgOf;
    LossesOf(p, c, w);
    assert w.read[i] in multiset(w.read);
    CaseMsgs(p, c, w.read[i]);
  }

  /** In any order: the verdict says whether the message that cannot be given up came last. */
  lemma LastLengthLooksAtTheLast(p: Plan, c: nat, w: World)
    requires IsCase(p, c) && Over(p, w) && Cases(c).check.LastLength?
    ensures |w.read| == 2 - |w.gone| > 0
    ensures w.cb.cb1 == 0 <==> w.read[|w.read| - 1] == 1
  {
    assert c < CASES;
    hide IsCase, Fold, Ids, Explained, Over, Sum, Losable, Cases, Msgs, LosableLen, AllLen;
    SumOf(p, c, w);
    LossesOf(p, c, w);
    TwoMessages(c);
    LensOf(p, c, w, |w.read| - 1);
    LastLengthVerdict(1000, w.seen);
  }

  lemma BoundedRead(p: Plan, c: nat, w: World)
    requires IsCase(p, c) && Over(p, w)
    ensures forall k | 0 <= k < |w.read| :: w.read[k] < |Msgs(Cases(c))|
  {
    assert c < CASES;
    hide IsCase, Over, Msgs, Cases;
    forall k | 0 <= k < |w.read|
      ensures w.read[k] < |Msgs(Cases(c))|
    {
      LensOf(p, c, w, k);
    }
  }

  /**
   * In order, the check of the latest length passes whatever happens: the message that cannot be
   * given up always comes last, and no one looks at what came before.
   */
  lemma LastLengthNeverNotices(p: Plan, c: nat, w: World)
    requires IsCase(p, c) && Over(p, w) && ReadInOrder(w) && Cases(c).check.LastLength?
    ensures w.cb.cb1 == 0
  {
    assert c < CASES;
    hide IsCase, Over, Cases, Losable;
    LastLengthLooksAtTheLast(p, c, w);
    if |w.read| == 1 {
      TwoMessages(c);
      LastLengthPasses(p, c, w);
    } else {
      TwoMessages(c);
      BoundedRead(p, c, w);
      assert w.read[0] < w.read[1] < 2;
    }
  }

  lemma {:induction false} IncreasingBound(s: seq<nat>, n: nat, i: nat)
    requires Increasing(s) && i < |s| && forall k | 0 <= k < |s| :: s[k] < n
    ensures s[i] + (|s| - i) <= n
    decreases |s| - i
  {
    if i + 1 < |s| {
      IncreasingBound(s, n, i + 1);
    }
  }

  lemma SumOfFour(d: seq<Event>)
    requires AllRecv(d) && |d| == 4
    ensures Sum(d) == d[0].len + d[1].len + d[2].len + d[3].len
    ensures Sum(d[..1]) == d[0].len && Sum(d[..2]) == d[0].len + d[1].len
    ensures Sum(d[..3]) == d[0].len + d[1].len + d[2].len
  {
    assert d[..3][..2] == d[..2] && d[..2][..1] == d[..1] && d[..1][..0] == [];
    assert Sum(d[..1]) == Sum([]) + d[0].len;
  }

  /** Five or more in order: no more than one large message among the first four. */
  lemma FirstFourSmall(p: Plan, c: nat, w: World)
    requires IsCase(p, c) && Over(p, w) && ReadInOrder(w) && Cases(c).test.Threaded? && |w.read| >= 5
    ensures |w.seen| == |w.read| && AllRecv(w.seen) && Sum(w.seen[..4]) <= 1003
  {
    assert c < CASES;
    hide IsCase, Over, Fold, Sum, Cases, Msgs, Losable, AllLen, LosableLen;
    SumOf(p, c, w);
    SevenMessages(c);
    LensOf(p, c, w, 0);
    LensOf(p, c, w, 1);
    LensOf(p, c, w, 2);
    LensOf(p, c, w, 3);
    BoundedRead(p, c, w);
    IncreasingBound(w.read, 7, 0);
    IncreasingBound(w.read, 7, 1);
    IncreasingBound(w.read, 7, 2);
    IncreasingBound(w.read, 7, 3);
    SumOfFour(w.seen[..4]);
  }

  /** In order, the check of the four totals notices every message that should have been given up. */
  lemma FourTotalsNotices(p: Plan, c: nat, w: World)
    requires IsCase(p, c) && Over(p, w) && ReadInOrder(w) && Cases(c).check.FourTotals?
    ensures w.cb.cb1 == 0 <==> AllGivenUp(c, w)
  {
    assert c < CASES;
    hide IsCase, Over, Fold, Sum, Ids, Msgs, Cases, Losable, AllLen, LosableLen;
    SumOf(p, c, w);
    LossesOf(p, c, w);
    SevenMessages(c);
    if AllGivenUp(c, w) {
      FourTotalsPass(p, c, w);
    } else {
      FirstFourSmall(p, c, w);
      FourTotalsVerdict(w.seen);
    }
  }

  lemma Twice(s: seq<nat>, i: nat, j: nat)
    requires i < j < |s| && s[i] == s[j]
    ensures multiset(s)[s[i]] >= 2
  {
    var a, b := s[..j], s[j + 1..];
    assert s == a + [s[j]] + b;
    assert a[i] == s[i] && s[i] in multiset(a);
  }

  lemma ReadOnce(p: Plan, c: nat, w: World, i: nat, j: nat)
    requires IsCase(p, c) && Over(p, w) && i < j < |w.read|
    ensures w.read[i] != w.read[j]
  {
    assert c < CASES;
    hide IsCase, Over, Cases, Msgs, Ids;
    OncePerMessage(p, c, w, w.read[i]);
    if w.read[i] == w.read[j] {
      Twice(w.read, i, j);
    }
  }

  /** One of the seven messages is as long as its kind. */
  lemma LargeOrSmall(p: Plan, c: nat, w: World, i: nat)
    requires IsCase(p, c) && Over(p, w) && Cases(c).check.FourTotals? && i < |w.read|
    ensures |w.seen| == |w.read| && w.seen[i].Recv? && w.read[i] < 7
    ensures w.seen[i].len == if w.read[i] == 5 || w.read[i] == 6 then 1000 else 1
  {
    assert c < CASES;
    hide IsCase, Over, Cases, Msgs;
    SevenMessages(c);
    LensOf(p, c, w, i);
  }

  /**
   * In any order: the four totals return 0 if and only if both large messages are among the first
   * four that are read.
   */
  lemma FourTotalsExact(p: Plan, c: nat, w: World)
    requires IsCase(p, c) && Over(p, w) && Cases(c).check.FourTotals?
    ensures |w.read| == 7 - |w.gone| >= 4
    ensures w.cb.cb1 == 0 <==> 5 in w.read[..4] && 6 in w.read[..4]
  {
    assert c < CASES;
    hide IsCase, Over, Fold, Sum, Cases, Msgs, Losable, AllLen, LosableLen, Ids;
    SumOf(p, c, w);
    LossesOf(p, c, w);
    SevenMessages(c);
    LargeOrSmall(p, c, w, 0);
    LargeOrSmall(p, c, w, 1);
    LargeOrSmall(p, c, w, 2);
    LargeOrSmall(p, c, w, 3);
    ReadOnce(p, c, w, 0, 1);
    ReadOnce(p, c, w, 0, 2);
    ReadOnce(p, c, w, 0, 3);
    ReadOnce(p, c, w, 1, 2);
    ReadOnce(p, c, w, 1, 3);
    ReadOnce(p, c, w, 2, 3);
    SumOfFour(w.seen[..4]);
    FourTotalsVerdict(w.seen);
    assert w.read[..4] == [w.read[0], w.read[1], w.read[2], w.read[3]];
  }

  lemma SurvivorsRead(p: Plan, c: nat, w: World)
    requires IsCase(p, c) && Over(p, w) && ReadInOrder(w) && Cases(c).test.Threaded? && AllGivenUp(c, w)
    ensures w.read == [1, 4, 5, 6]
  {
    assert c < CASES;
    hide IsCase, Over, Msgs, Ids;
    LossesOf(p, c, w);
    CaseMsgs(p, c, 0);
    BoundedRead(p, c, w);
    assert |w.read| == 4;
    assert forall x | x in {0, 2, 3} :: x in multiset(Ids(w.gone));
    forall k | 0 <= k < 4
      ensures w.read[k] in {1, 4, 5, 6}
    {
      assert w.read[k] in multiset(w.read);
      assert w.read[k] < 7;
    }
    assert w.read[0] < w.read[1] < w.read[2] < w.read[3];
  }

  /** The script's own numbers: with all three given up, the running totals are 1, 2, 1002, 2002. */
  lemma FourRunningTotals(p: Plan, c: nat, w: World)
    requires IsCase(p, c) && Over(p, w) && ReadInOrder(w) && Cases(c).test.Threaded? && AllGivenUp(c, w)
    ensures w.read == [1, 4, 5, 6]
    ensures |w.seen| == 4 && AllRecv(w.seen)
    ensures Sum(w.seen[..1]) == 1 && Sum(w.seen[..2]) == 2 && Sum(w.seen[..3]) == 1002 && Sum(w.seen) == 2002
  {
    assert c < CASES;
    hide IsCase, Over, Fold, Sum;
    SurvivorsRead(p, c, w);
    SumOf(p, c, w);
    LensOf(p, c, w, 0);
    LensOf(p, c, w, 1);
    LensOf(p, c, w, 2);
    LensOf(p, c, w, 3);
    SumOfFour(w.seen);
    CaseMsgs(p, c, 0);
  }

  lemma GoneAreLosable(p: Plan, c: nat, w: World)
    requires IsCase(p, c) && Over(p, w)
    ensures forall l | l in w.gone :: l.id in Losable(c)
  {
    assert c < CASES;
    hide IsCase, Over, Losable, Ids;
    LossesOf(p, c, w);
    IdsCount(w.gone);
    forall l | l in w.gone
      ensures l.id in Losable(c)
    {
      var i :| 0 <= i < |w.gone| && w.gone[i] == l;
      assert Ids(w.gone)[i] == l.id;
    }
  }

  lemma QueuedRead(w: World)
    requires Queued(w)
    ensures ReadInOrder(w)
  {
    var all := w.read + Unread(w.inbox) + w.buffer;
    hide Unread;
    forall i, j | 0 <= i < j < |w.read|
      ensures w.read[i] < w.read[j]
    {
      assert all[i] == w.read[i] && all[j] == w.read[j];
    }
  }

  /**
   * Case by case, for every schedule in which the client closes only when nothing else can move:
   * the messages given up are among those the test means to be given up, and when all of those
   * were, the server returns 0.  Two totals notice one that was not; four totals look at what was
   * read first, so that they notice it in order of sending; the latest length alone does not.
   */
  lemma VerdictOfEveryCase(p: Plan, c: nat, schedule: seq<Choice>)
    requires IsCase(p, c)
    ensures p.Good() && !p.check.Order?
    ensures var w := After(p, Init(p), schedule);
            w.exited && Patient(p, schedule) ==>
              && (forall l | l in w.gone :: l.id in Losable(c))
              && (AllGivenUp(c, w) ==> w.cb.cb1 == 0)
              && (Cases(c).check.FirstThenBoth? ==> (w.cb.cb1 == 0 <==> AllGivenUp(c, w)))
              && (Cases(c).check.FourTotals? ==>
                    |w.read| >= 4 && (w.cb.cb1 == 0 <==> 5 in w.read[..4] && 6 in w.read[..4]))
              && (InOrder(schedule) && Cases(c).check.FourTotals? ==> (w.cb.cb1 == 0 <==> AllGivenUp(c, w)))
              && (InOrder(schedule) && Cases(c).check.LastLength? ==> w.cb.cb1 == 0)
  {
    assert c < CASES;
    hide IsCase, Over, AllGivenUp, After, Patient, InOrder, Plan.Good, Init, Cases, Losable, ReadInOrder;
    CasesFit(p, c);
    NoTable(p);
    var w := After(p, Init(p), schedule);
    if w.exited && Patient(p, schedule) {
      PatientRunsAreOver(p, schedule);
      GoneAreLosable(p, c, w);
      if AllGivenUp(c, w) {
        GivenUpPasses(p, c, w);
      }
      if Cases(c).check.FirstThenBoth? {
        FirstThenBothNotices(p, c, w);
      }
      if Cases(c).check.FourTotals? {
        FourTotalsExact(p, c, w);
      }
      if InOrder(schedule) {
        InOrderRunsQueue(p, schedule);
        QueuedRead(w);
        if Cases(c).check.FourTotals? {
          FourTotalsNotices(p, c, w);
        } else if Cases(c).check.LastLength? {
          LastLengthNeverNotices(p, c, w);
        }
      }
    }
  }
}
