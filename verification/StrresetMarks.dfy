/**
 * What each reset test does between its messages: every request and every rule, with the number of
 * messages sent before it and the filter in force at that moment.
 */
module StrresetMarks {
  import opened StrresetClient

  /** A call that is neither a send nor a sleep, `sent` messages in, behind `filter`. */
  datatype Mark = Mark(op: Op, sent: nat, filter: Filter)

  const CLEAR := Filter(false, false)

  function Marks(ops: seq<Op>): seq<Mark> {
    if ops == [] then []
    else
      var before, op := ops[..|ops| - 1], ops[|ops| - 1];
      Marks(before) + if op.Send? || op.Pause? then [] else [Mark(op, Sent(before), FilterAfter(before))]
  }

  function Resets(ops: seq<Op>): seq<Kind> {
    if ops == [] then []
    else Resets(ops[..|ops| - 1]) + if ops[|ops| - 1].Reset? then [ops[|ops| - 1].kind] else []
  }

  function Requests(marks: seq<Mark>): seq<Kind> {
    if marks == [] then []
    else Requests(marks[..|marks| - 1])
         + if marks[|marks| - 1].op.Reset? then [marks[|marks| - 1].op.kind] else []
  }

  lemma {:induction false} ResetsAreMarked(ops: seq<Op>)
    ensures Resets(ops) == Requests(Marks(ops))
  {
    if ops != [] {
      var before, op := ops[..|ops| - 1], ops[|ops| - 1];
      ResetsAreMarked(before);
      if op.Send? || op.Pause? {
        assert Marks(ops) == Marks(before);
      } else {
        assert Marks(ops)[..|Marks(before)|] == Marks(before);
      }
    }
  }

  /** Every call that is neither a send nor a sleep has its mark. */
  lemma {:induction false} MarkedAt(ops: seq<Op>, i: nat)
    requires i < |ops| && !ops[i].Send? && !ops[i].Pause?
    ensures |Marks(ops[..i])| < |Marks(ops)|
    ensures Marks(ops)[|Marks(ops[..i])|] == Mark(ops[i], Sent(ops[..i]), FilterAfter(ops[..i]))
  {
    var n := |ops| - 1;
    if i < n {
      MarkedAt(ops[..n], i);
      assert ops[..n][..i] == ops[..i];
    }
  }

  /** What a sequence of calls amounts to. */
  ghost predicate Comes(ops: seq<Op>, marks: seq<Mark>, sent: nat, filter: Filter) {
    Marks(ops) == marks && Sent(ops) == sent && FilterAfter(ops) == filter
  }

  lemma ComesNext(a: seq<Op>, m: seq<Mark>, n: nat, f: Filter, op: Op)
    requires Comes(a, m, n, f)
    ensures Comes(a + [op], m + if op.Send? || op.Pause? then [] else [Mark(op, n, f)],
                  n + if op.Send? then 1 else 0, Filtered(f, op))
  {
    assert (a + [op])[..|a|] == a;
  }

  lemma {:induction false} ComesSends(a: seq<Op>, m: seq<Mark>, n: nat, f: Filter, count: nat, len: nat)
    requires Comes(a, m, n, f)
    ensures Comes(a + SendOps(count, len), m, n + count, f)
  {
    hide Comes;
    if count == 0 {
      assert a + SendOps(0, len) == a;
    } else {
      ComesSends(a, m, n, f, count - 1, len);
      ComesNext(a + SendOps(count - 1, len), m, n + count - 1, f, Send(len));
      assert a + SendOps(count, len) == a + SendOps(count - 1, len) + [Send(len)];
      assert m + [] == m;
    }
  }

  lemma ComesReset(a: seq<Op>, m: seq<Mark>, n: nat, f: Filter, kind: Kind)
    requires Comes(a, m, n, f)
    ensures Comes(a + ResetOps(kind), m + [Mark(Reset(kind), n, f)], n, f)
  {
    hide Comes;
    ComesNext(a, m, n, f, Reset(kind));
    ComesNext(a + [Reset(kind)], m + [Mark(Reset(kind), n, f)], n, f, Pause(3));
    assert a + ResetOps(kind) == a + [Reset(kind)] + [Pause(3)];
    assert m + [Mark(Reset(kind), n, f)] + [] == m + [Mark(Reset(kind), n, f)];
  }

  lemma ComesPause(a: seq<Op>, m: seq<Mark>, n: nat, f: Filter, seconds: nat)
    requires Comes(a, m, n, f)
    ensures Comes(a + [Pause(seconds)], m, n, f)
  {
    ComesNext(a, m, n, f, Pause(seconds));
    assert m + [] == m;
  }

  lemma ComesSend(a: seq<Op>, m: seq<Mark>, n: nat, f: Filter, len: nat)
    requires Comes(a, m, n, f)
    ensures Comes(a + [Send(len)], m, n + 1, f)
  {
    ComesNext(a, m, n, f, Send(len));
    assert m + [] == m;
  }

  /** The filter a drop mode stands for: 1 holds back DATA chunks, 2 everything. */
  function Behind(drop: nat): Filter {
    Filter(drop == 1, drop == 2)
  }

  /** The marks of installing that filter, and of removing it. */
  function Installed(drop: nat, sent: nat): seq<Mark> {
    if drop == 1 then [Mark(DropData, sent, CLEAR)]
    else if drop == 2 then [Mark(DropAll, sent, CLEAR)]
    else []
  }

  function Removed(drop: nat, sent: nat): seq<Mark> {
    if drop == 0 then [] else [Mark(FlushRules, sent, Behind(drop))]
  }

  lemma ComesClose(a: seq<Op>, m: seq<Mark>, n: nat, drop: nat)
    requires Comes(a, m, n, CLEAR)
    ensures Comes(a + CloseOps(drop), m + Installed(drop, n), n, Behind(drop))
  {
    hide Comes;
    ComesNext(a, m, n, CLEAR, DropData);
    ComesNext(a, m, n, CLEAR, DropAll);
    assert m + [] == m && a + [] == a;
  }

  lemma ComesReopen(a: seq<Op>, m: seq<Mark>, n: nat, drop: nat)
    requires Comes(a, m, n, Behind(drop))
    ensures Comes(a + ReopenOps(drop), m + Removed(drop, n), n, CLEAR)
  {
    hide Comes;
    ComesNext(a, m, n, Behind(drop), FlushRules);
    ComesPause(a + [FlushRules], m + [Mark(FlushRules, n, Behind(drop))], n, CLEAR, 10);
    assert a + [FlushRules, Pause(10)] == a + [FlushRules] + [Pause(10)];
    assert m + [] == m && a + [] == a;
  }

  lemma ComesFromNothing()
    ensures Comes([], [], 0, CLEAR)
  {
  }

  /** The wrap tests ask once, when the loop has run, for the reset they are named after. */
  lemma WrapMarks(kind: Kind, count: nat, len: nat)
    ensures Comes(WrapOps(kind, count, len), [Mark(Reset(kind), count, CLEAR)], count + 1, CLEAR)
  {
    hide Comes, SendOps, ResetOps;
    var a := SendOps(count, len);
    ComesFromNothing();
    ComesSends([], [], 0, CLEAR, count, len);
    assert [] + a == a;
    ComesPause(a, [], count, CLEAR, 5);
    ComesReset(a + [Pause(5)], [], count, CLEAR, kind);
    var b, m := a + [Pause(5)] + ResetOps(kind), [] + [Mark(Reset(kind), count, CLEAR)];
    ComesPause(b, m, count, CLEAR, 5);
    ComesSend(b + [Pause(5)], m, count, CLEAR, len);
    assert WrapOps(kind, count, len) == b + [Pause(5)] + [Send(len)];
    assert m == [Mark(Reset(kind), count, CLEAR)];
  }

  /** Two stream resets behind the rule, after all messages but the last, which is sent behind it. */
  lemma TwiceMarks(drop: nat, count: nat, len: nat)
    ensures Comes(TwiceOps(drop, count, len),
                  Installed(drop, 0)
                  + [Mark(Reset(Outgoing), count, Behind(drop)), Mark(Reset(Outgoing), count, Behind(drop))]
                  + Removed(drop, count + 1),
                  count + 1, CLEAR)
  {
    hide Comes, SendOps, ResetOps, CloseOps, ReopenOps, Installed, Removed, Behind;
    var f, r, i := Behind(drop), Mark(Reset(Outgoing), count, Behind(drop)), Installed(drop, 0);
    ComesFromNothing();
    ComesClose([], [], 0, drop);
    assert [] + CloseOps(drop) == CloseOps(drop) && [] + i == i;
    var a := CloseOps(drop) + SendOps(count, len);
    ComesSends(CloseOps(drop), i, 0, f, count, len);
    ComesReset(a, i, count, f, Outgoing);
    var b := a + ResetOps(Outgoing);
    ComesPause(b, i + [r], count, f, 10);
    ComesReset(b + [Pause(10)], i + [r], count, f, Outgoing);
    var c := b + [Pause(10)] + ResetOps(Outgoing);
    ComesSend(c, i + [r] + [r], count, f, len);
    ComesReopen(c + [Send(len)], i + [r] + [r], count + 1, drop);
    assert i + [r] + [r] == i + [r, r];
  }

  /** Three association resets after the same number of messages, the last with the rule gone. */
  lemma ThriceMarks(drop: nat, count: nat, len: nat)
    ensures Comes(ThriceOps(drop, count, len),
                  Installed(drop, 0)
                  + [Mark(Reset(Association), count, Behind(drop)), Mark(Reset(Association), count, Behind(drop))]
                  + Removed(drop, count)
                  + [Mark(Reset(Association), count, CLEAR)],
                  count + 1, CLEAR)
  {
    hide Comes, SendOps, ResetOps, CloseOps, ReopenOps, Installed, Removed, Behind;
    var f, r, i := Behind(drop), Mark(Reset(Association), count, Behind(drop)), Installed(drop, 0);
    ComesFromNothing();
    ComesClose([], [], 0, drop);
    assert [] + CloseOps(drop) == CloseOps(drop) && [] + i == i;
    var a := CloseOps(drop) + SendOps(count, len);
    ComesSends(CloseOps(drop), i, 0, f, count, len);
    ComesReset(a, i, count, f, Association);
    var b := a + ResetOps(Association);
    ComesPause(b, i + [r], count, f, 10);
    ComesReset(b + [Pause(10)], i + [r], count, f, Association);
    var c := b + [Pause(10)] + ResetOps(Association);
    ComesReopen(c, i + [r] + [r], count, drop);
    var d, m := c + ReopenOps(drop), i + [r] + [r] + Removed(drop, count);
    ComesPause(d, m, count, CLEAR, 10);
    ComesReset(d + [Pause(10)], m, count, CLEAR, Association);
    ComesSend(d + [Pause(10)] + ResetOps(Association), m + [Mark(Reset(Association), count, CLEAR)], count, CLEAR, len);
    assert i + [r] + [r] == i + [r, r];
  }

  /** The rule after the loop, one association reset behind it, and four messages before it goes. */
  lemma BehindMarks(drop: nat, count: nat, len: nat)
    ensures Comes(BehindOps(drop, count, len),
                  Installed(drop, count) + [Mark(Reset(Association), count, Behind(drop))]
                  + Removed(drop, count + 4),
                  count + 4, CLEAR)
  {
    hide Comes, SendOps, ResetOps, CloseOps, ReopenOps, Installed, Removed, Behind;
    var f, r, i := Behind(drop), Mark(Reset(Association), count, Behind(drop)), Installed(drop, count);
    ComesFromNothing();
    var a := SendOps(count, len);
    ComesSends([], [], 0, CLEAR, count, len);
    assert [] + a == a;
    ComesPause(a, [], count, CLEAR, 5);
    ComesClose(a + [Pause(5)], [], count, drop);
    var b := a + [Pause(5)] + CloseOps(drop);
    assert [] + i == i;
    ComesReset(b, i, count, f, Association);
    var c := b + ResetOps(Association);
    ComesSends(c, i + [r], count, f, 4, len);
    ComesPause(c + SendOps(4, len), i + [r], count + 4, f, 5);
    ComesReopen(c + SendOps(4, len) + [Pause(5)], i + [r], count + 4, drop);
  }

  // ---------------------------------------------------------------- the rows of the table

  const DATA := Filter(true, false)
  const ALL := Filter(false, true)

  /** What each row asks for, after how many messages, behind which filter. */
  function RowMarks(c: nat): seq<Mark>
    requires c < CASES
  {
    match c
    case 0 => [Mark(Reset(Outgoing), 70000, CLEAR)]
    case 1 => [Mark(Reset(Association), 70000, CLEAR)]
    case 2 => [Mark(Reset(Outgoing), 70000, CLEAR)]
    case 3 => [Mark(Reset(Association), 70000, CLEAR)]
    case 4 =>
      [Mark(DropData, 0, CLEAR), Mark(Reset(Outgoing), 10, DATA), Mark(Reset(Outgoing), 10, DATA),
       Mark(FlushRules, 11, DATA)]
    case 5 =>
      [Mark(DropData, 0, CLEAR), Mark(Reset(Association), 10, DATA), Mark(Reset(Association), 10, DATA),
       Mark(FlushRules, 10, DATA), Mark(Reset(Association), 10, CLEAR)]
    case _ =>
      [Mark(DropAll, 10, CLEAR), Mark(Reset(Association), 10, ALL), Mark(FlushRules, 14, ALL)]
  }

  lemma ComesMarks(ops: seq<Op>)
    ensures forall m, n, f | Comes(ops, m, n, f) :: Marks(ops) == m
  {
  }

  /** Row by row: these requests and rules, and no others. */
  lemma EveryRowMarks(c: nat)
    requires c < CASES
    ensures Marks(BodyOps(Cases(c))) == RowMarks(c)
  {
    hide Comes, WrapOps, TwiceOps, ThriceOps, BehindOps, Marks;
    var k := Cases(c);
    match k.test {
      case Wrap(kind, count) => WrapMarks(kind, count, k.len);
      case Twice => TwiceMarks(k.drop, 10, k.len);
      case Thrice => ThriceMarks(k.drop, 10, k.len);
      case Behind => BehindMarks(k.drop, 10, k.len);
    }
    ComesMarks(BodyOps(k));
  }

  lemma {:induction false} MarksOfPrefix(ops: seq<Op>, i: nat)
    requires i <= |ops|
    ensures Marks(ops[..i]) <= Marks(ops)
  {
    if i < |ops| {
      MarksOfPrefix(ops[..|ops| - 1], i);
      assert ops[..|ops| - 1][..i] == ops[..i];
    } else {
      assert ops[..i] == ops;
    }
  }

  lemma NoRequests()
    ensures Requests([]) == []
  {
  }

  lemma RequestsStep(marks: seq<Mark>, j: nat)
    requires j < |marks|
    ensures Requests(marks[..j + 1])
         == Requests(marks[..j]) + if marks[j].op.Reset? then [marks[j].op.kind] else []
  {
    assert marks[..j + 1][..j] == marks[..j];
  }

  /** The requests of a row among its first `j` marks. */
  lemma RowRequests(c: nat)
    requires c < CASES
    ensures var m := RowMarks(c);
            && Requests(m) == (match c
                               case 4 => [Outgoing, Outgoing]
                               case 5 => [Association, Association, Association]
                               case _ => [if c in {0, 2} then Outgoing else Association])
            && forall j | 0 <= j < |m| && m[j].op.Reset? ::
                 |Requests(m[..j])| == if c == 5 && j == 4 then 2 else if (c == 4 || c == 5) && j == 2 then 1 else 0
  {
    hide Requests;
    var m := RowMarks(c);
    assert m[..|m|] == m && m[..0] == [];
    NoRequests();
    RequestsStep(m, 0);
    if |m| > 1 {
      RequestsStep(m, 1);
      RequestsStep(m, 2);
    }
    if |m| > 3 {
      RequestsStep(m, 3);
    }
    if |m| > 4 {
      RequestsStep(m, 4);
    }
  }

  /**
   * At every request of a row the same messages have been sent, all but the last or all but the
   * last four, and the rule in force is the row's: none in the wrap tests, DATA chunks held back
   * where two requests are made in a row, everything in the last row; the third request of row 5
   * comes when the rule is gone.
   */
  lemma EveryRequest(c: nat, i: nat)
    requires c < CASES && i < |BodyOps(Cases(c))| && BodyOps(Cases(c))[i].Reset?
    ensures var ops := BodyOps(Cases(c));
            && ops[i].kind == (if c in {0, 2, 4} then Outgoing else Association)
            && Sent(ops[..i]) == (if c <= 3 then 70000 else 10)
            && FilterAfter(ops[..i])
               == (if c <= 3 || |Resets(ops[..i])| == 2 then CLEAR else if c <= 5 then DATA else ALL)
  {
    hide BodyOps, Cases, Sent, FilterAfter, Marks, Resets, Requests;
    var ops := BodyOps(Cases(c));
    EveryRowMarks(c);
    MarkedAt(ops, i);
    MarksOfPrefix(ops, i);
    ResetsAreMarked(ops[..i]);
    RowRequests(c);
    assert Marks(ops[..i]) == RowMarks(c)[..|Marks(ops[..i])|];
  }

  /** Which resets a row asks for, in order. */
  lemma EveryRowAsks(c: nat)
    requires c < CASES
    ensures Resets(BodyOps(Cases(c)))
         == match c
            case 4 => [Outgoing, Outgoing]
            case 5 => [Association, Association, Association]
            case _ => [if c in {0, 2} then Outgoing else Association]
  {
    hide BodyOps, Cases, Marks, Resets, Requests;
    EveryRowMarks(c);
    ResetsAreMarked(BodyOps(Cases(c)));
    RowRequests(c);
  }
}
