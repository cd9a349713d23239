/**
 * The reset program: its case table and its sending process.  Every case sends a run of equal
 * messages on stream 1, asks for stream or association resets in between, possibly behind a
 * packet filter, and sends some more.
 */
module StrresetClient {
  import opened Server

  datatype Kind = Outgoing | Association

  /** A call the client makes. */
  datatype Op =
    | EnableReset
    | Command(cmd: nat)
    | AwaitAck
    | Send(len: nat)               // one message on stream 1
    | Reset(kind: Kind)            // the outcome is printed and ignored
    | DropData                     // append a rule that drops outgoing DATA chunks
    | DropAll                      // append a rule that drops every outgoing SCTP packet
    | FlushRules
    | Pause(seconds: nat)          // nothing is assumed of a sleep

  datatype Test = Wrap(kind: Kind, count: nat) | Twice | Thrice | Behind

  datatype Case = Case(drop: nat, len: nat, test: Test)
  {
    /** How many messages the case's check function expects. */
    function Expected(): nat {
      match test
      case Wrap(_, _) => 70001
      case Behind => 14
      case _ => 11
    }

    function Check(): Check {
      Total(Expected() * len)
    }
  }

  /** The rows with an initialiser. */
  const CASES := 7

  const LOOP := 70000

  function Cases(i: nat): Case
    requires i < CASES
  {
    match i
    case 0 => Case(1, 100, Wrap(Outgoing, LOOP))
    case 1 => Case(0, 100, Wrap(Association, LOOP))
    case 2 => Case(0, 6000, Wrap(Outgoing, LOOP))
    case 3 => Case(0, 6000, Wrap(Association, LOOP))
    case 4 => Case(1, 100, Twice)
    case 5 => Case(1, 100, Thrice)
    case _ => Case(2, 100, Behind)
  }

  // ---------------------------------------------------------------- the calls of each test

  function SendOps(count: nat, len: nat): seq<Op> {
    if count == 0 then [] else SendOps(count - 1, len) + [Send(len)]
  }

  function ResetOps(kind: Kind): seq<Op> {
    [Reset(kind), Pause(3)]
  }

  function CloseOps(drop: nat): seq<Op> {
    if drop == 1 then [DropData] else if drop == 2 then [DropAll] else []
  }

  function ReopenOps(drop: nat): seq<Op> {
    if drop == 0 then [] else [FlushRules, Pause(10)]
  }

  function WrapOps(kind: Kind, count: nat, len: nat): seq<Op> {
    SendOps(count, len) + [Pause(5)] + ResetOps(kind) + [Pause(5), Send(len)]
  }

  function TwiceOps(drop: nat, count: nat, len: nat): seq<Op> {
    CloseOps(drop) + SendOps(count, len) + ResetOps(Outgoing) + [Pause(10)] + ResetOps(Outgoing)
    + [Send(len)] + ReopenOps(drop)
  }

  function ThriceOps(drop: nat, count: nat, len: nat): seq<Op> {
    CloseOps(drop) + SendOps(count, len) + ResetOps(Association) + [Pause(10)] + ResetOps(Association)
    + ReopenOps(drop) + [Pause(10)] + ResetOps(Association) + [Send(len)]
  }

  function BehindOps(drop: nat, count: nat, len: nat): seq<Op> {
    SendOps(count, len) + [Pause(5)] + CloseOps(drop) + ResetOps(Association) + SendOps(4, len)
    + [Pause(5)] + ReopenOps(drop)
  }

  function BodyOps(c: Case): seq<Op> {
    match c.test
    case Wrap(kind, count) => WrapOps(kind, count, c.len)
    case Twice => TwiceOps(c.drop, 10, c.len)
    case Thrice => ThriceOps(c.drop, 10, c.len)
    case Behind => BehindOps(c.drop, 10, c.len)
  }

  const OPENING: seq<Op> := [EnableReset, Command(SET_STRRESET), AwaitAck]
  const CLOSING: seq<Op> := [Command(CLOSE_ASOC), AwaitAck]

  function ScriptOf(body: seq<Op>): seq<Op> {
    OPENING + body + CLOSING
  }

  lemma FourSends(len: nat)
    ensures SendOps(4, len) == [Send(len), Send(len), Send(len), Send(len)]
  {
    assert SendOps(0, len) == [];
    assert SendOps(1, len) == SendOps(0, len) + [Send(len)];
    assert SendOps(2, len) == SendOps(1, len) + [Send(len)];
    assert SendOps(3, len) == SendOps(2, len) + [Send(len)];
  }

  // ---------------------------------------------------------------- the process

  class Client {
    var c: nat
    var log: seq<Op>               // the library calls so far

    constructor (c: nat)
      ensures this.c == c && log == []
    {
      this.c := c;
      log := [];
    }

    method Do(op: Op)
      modifies this`log
      ensures log == old(log) + [op]
    {
      log := log + [op];
    }

    method SendRun(count: nat)
      requires c < CASES
      modifies this`log
      ensures log == old(log) + SendOps(count, Cases(c).len)
    {
      for i := 0 to count
        invariant log == old(log) + SendOps(i, Cases(c).len)
      {
        Do(Send(Cases(c).len));
      }
    }

    method SetReset(kind: Kind)
      modifies this`log
      ensures log == old(log) + ResetOps(kind)
    {
      Do(Reset(kind));
      Do(Pause(3));
    }

    method CloseStreams()
      requires c < CASES
      modifies this`log
      ensures log == old(log) + CloseOps(Cases(c).drop)
    {
      if Cases(c).drop == 0 {
        return;
      }
      if Cases(c).drop == 1 {
        Do(DropData);
      } else if Cases(c).drop == 2 {
        Do(DropAll);
      }
    }

    method ReopenStreams()
      requires c < CASES
      modifies this`log
      ensures log == old(log) + ReopenOps(Cases(c).drop)
    {
      if Cases(c).drop == 0 {
        return;
      }
      Do(FlushRules);
      Do(Pause(10));
    }

    method TestWrap(kind: Kind, count: nat)
      requires c < CASES
      modifies this`log
      ensures log == old(log) + WrapOps(kind, count, Cases(c).len)
    {
      hide SendOps, Cases;
      SendRun(count);
      Do(Pause(5));
      SetReset(kind);
      Do(Pause(5));
      Do(Send(Cases(c).len));
    }

    method TestTwice(count: nat)
      requires c < CASES
      modifies this`log
      ensures log == old(log) + TwiceOps(Cases(c).drop, count, Cases(c).len)
    {
      hide SendOps, Cases, ResetOps, CloseOps, ReopenOps;
      CloseStreams();
      SendRun(count);
      SetReset(Outgoing);
      Do(Pause(10));
      SetReset(Outgoing);
      Do(Send(Cases(c).len));
      ReopenStreams();
    }

    method TestThrice(count: nat)
      requires c < CASES
      modifies this`log
      ensures log == old(log) + ThriceOps(Cases(c).drop, count, Cases(c).len)
    {
      hide SendOps, Cases, ResetOps, CloseOps, ReopenOps;
      CloseStreams();
      SendRun(count);
      SetReset(Association);
      Do(Pause(10));
      SetReset(Association);
      ReopenStreams();
      Do(Pause(10));
      SetReset(Association);
      Do(Send(Cases(c).len));
    }

    method TestBehind(count: nat)
      requires c < CASES
      modifies this`log
      ensures log == old(log) + BehindOps(Cases(c).drop, count, Cases(c).len)
    {
      hide Cases, ResetOps, CloseOps, ReopenOps;
      SendRun(count);
      Do(Pause(5));
      CloseStreams();
      SetReset(Association);
      ghost var before := log;
      Do(Send(Cases(c).len));
      Do(Send(Cases(c).len));
      Do(Send(Cases(c).len));
      Do(Send(Cases(c).len));
      FourSends(Cases(c).len);
      assert log == before + SendOps(4, Cases(c).len);
      Do(Pause(5));
      ReopenStreams();
    }

    method SendCommand(cmd: nat)
      modifies this`log
      ensures log == old(log) + [Command(cmd), AwaitAck]
    {
      Do(Command(cmd));
      Do(AwaitAck);
    }

    method DoClient()
      requires c < CASES && log == []
      modifies this`log
      ensures log == ScriptOf(BodyOps(Cases(c)))
    {
      hide Cases, WrapOps, TwiceOps, ThriceOps, BehindOps;
      Do(EnableReset);
      SendCommand(SET_STRRESET);
      match Cases(c).test {
        case Wrap(kind, count) => TestWrap(kind, count);
        case Twice => TestTwice(10);
        case Thrice => TestThrice(10);
        case Behind => TestBehind(10);
      }
      SendCommand(CLOSE_ASOC);
    }
  }

  // ---------------------------------------------------------------- what a script amounts to

  /** Messages sent by the calls. */
  function Sent(ops: seq<Op>): nat {
    if ops == [] then 0
    else Sent(ops[..|ops| - 1]) + if ops[|ops| - 1].Send? then 1 else 0
  }

  datatype Filter = Filter(data: bool, all: bool)
  {
    predicate Clear() {
      !data && !all
    }
  }

  function Filtered(f: Filter, op: Op): Filter {
    match op
    case DropData => f.(data := true)
    case DropAll => f.(all := true)
    case FlushRules => Filter(false, false)
    case _ => f
  }

  /** The filter in force after the calls. */
  function FilterAfter(ops: seq<Op>): Filter {
    if ops == [] then Filter(false, false)
    else Filtered(FilterAfter(ops[..|ops| - 1]), ops[|ops| - 1])
  }

  predicate Plain(op: Op) {
    op.Send? || op.Reset? || op.Pause?
  }

  lemma {:induction false} FilterUntouched(a: seq<Op>, b: seq<Op>)
    requires forall op | op in b :: Plain(op)
    ensures FilterAfter(a + b) == FilterAfter(a)
  {
    if b == [] {
      assert a + b == a;
    } else {
      assert b[|b| - 1] in b;
      FilterUntouched(a, b[..|b| - 1]);
      assert (a + b)[..|a + b| - 1] == a + b[..|b| - 1];
    }
  }

  lemma {:induction false} SentSplit(a: seq<Op>, b: seq<Op>)
    ensures Sent(a + b) == Sent(a) + Sent(b)
  {
    if b == [] {
      assert a + b == a;
    } else {
      SentSplit(a, b[..|b| - 1]);
      assert (a + b)[..|a + b| - 1] == a + b[..|b| - 1];
    }
  }

  /** A call of the body: sends of one length, resets, rules and sleeps. */
  predicate InBody(op: Op, len: nat) {
    match op
    case EnableReset => false
    case Command(_) => false
    case AwaitAck => false
    case Send(l) => l == len
    case _ => true
  }

  ghost predicate AllInBody(ops: seq<Op>, len: nat) {
    forall op | op in ops :: InBody(op, len)
  }

  lemma {:induction false} SendRunShape(count: nat, len: nat)
    ensures Sent(SendOps(count, len)) == count
    ensures forall op | op in SendOps(count, len) :: op == Send(len)
  {
    if count > 0 {
      SendRunShape(count - 1, len);
      SentSplit(SendOps(count - 1, len), [Send(len)]);
      assert [Send(len)][..0] == [];
    }
  }

  /** What is needed of a piece of a body to reason about the whole. */
  ghost predicate Piece(ops: seq<Op>, sent: nat, len: nat) {
    Sent(ops) == sent && AllInBody(ops, len)
  }

  lemma Pieces(a: seq<Op>, m: nat, b: seq<Op>, n: nat, len: nat)
    requires Piece(a, m, len) && Piece(b, n, len)
    ensures Piece(a + b, m + n, len)
  {
    SentSplit(a, b);
  }

  lemma PieceRun(count: nat, len: nat)
    ensures Piece(SendOps(count, len), count, len)
    ensures forall op | op in SendOps(count, len) :: Plain(op)
  {
    SendRunShape(count, len);
  }

  lemma PieceOne(op: Op, len: nat)
    requires InBody(op, len)
    ensures Piece([op], if op.Send? then 1 else 0, len)
  {
    assert [op][..0] == [];
  }

  lemma PieceReset(kind: Kind, len: nat)
    ensures Piece(ResetOps(kind), 0, len)
  {
    PieceOne(Reset(kind), len);
    PieceOne(Pause(3), len);
    Pieces([Reset(kind)], 0, [Pause(3)], 0, len);
    assert ResetOps(kind) == [Reset(kind)] + [Pause(3)];
  }

  lemma PieceFilters(drop: nat, len: nat)
    ensures Piece(CloseOps(drop), 0, len) && Piece(ReopenOps(drop), 0, len)
  {
    PieceOne(DropData, len);
    PieceOne(DropAll, len);
    PieceOne(FlushRules, len);
    PieceOne(Pause(10), len);
    Pieces([FlushRules], 0, [Pause(10)], 0, len);
    assert ReopenOps(drop) == if drop == 0 then [] else [FlushRules] + [Pause(10)];
  }

  lemma WrapIsPlain(kind: Kind, count: nat, len: nat)
    ensures forall op | op in WrapOps(kind, count, len) :: Plain(op)
  {
    PieceRun(count, len);
  }

  /** The wrap tests send one message more than the loop and never touch the filter. */
  lemma WrapShape(kind: Kind, count: nat, len: nat)
    ensures Piece(WrapOps(kind, count, len), count + 1, len)
    ensures FilterAfter(WrapOps(kind, count, len)).Clear()
  {
    hide SendOps, ResetOps, Piece;
    PieceRun(count, len);
    PieceOne(Pause(5), len);
    PieceReset(kind, len);
    PieceOne(Send(len), len);
    var a := SendOps(count, len) + [Pause(5)];
    Pieces(SendOps(count, len), count, [Pause(5)], 0, len);
    Pieces(a, count, ResetOps(kind), 0, len);
    Pieces([Pause(5)], 0, [Send(len)], 1, len);
    assert [Pause(5), Send(len)] == [Pause(5)] + [Send(len)];
    Pieces(a + ResetOps(kind), count, [Pause(5), Send(len)], 1, len);
    WrapIsPlain(kind, count, len);
    FilterUntouched([], WrapOps(kind, count, len));
    assert [] + WrapOps(kind, count, len) == WrapOps(kind, count, len);
  }

  lemma FlushClears(a: seq<Op>)
    ensures FilterAfter(a + [FlushRules, Pause(10)]).Clear()
  {
    var b := a + [FlushRules];
    assert b[..|b| - 1] == a;
    assert (a + [FlushRules, Pause(10)])[..|a| + 1] == b;
  }

  /** Removing the rules at the end leaves none, whatever was installed before. */
  lemma ReopenClears(drop: nat, a: seq<Op>, b: seq<Op>)
    requires drop == 0 ==> forall op | op in a :: Plain(op)
    requires forall op | op in b :: Plain(op)
    ensures FilterAfter(a + ReopenOps(drop) + b).Clear()
  {
    FilterUntouched(a + ReopenOps(drop), b);
    if drop == 0 {
      FilterUntouched([], a);
      assert [] + a == a && a + ReopenOps(drop) == a;
    } else {
      FlushClears(a);
    }
  }

  lemma TwiceShape(drop: nat, count: nat, len: nat)
    ensures Piece(TwiceOps(drop, count, len), count + 1, len)
    ensures FilterAfter(TwiceOps(drop, count, len)).Clear()
  {
    var a := CloseOps(drop) + SendOps(count, len) + ResetOps(Outgoing) + [Pause(10)] + ResetOps(Outgoing) + [Send(len)];
    assert drop == 0 ==> forall op | op in a :: Plain(op) by {
      PieceRun(count, len);
    }
    ReopenClears(drop, a, []);
    assert a + ReopenOps(drop) + [] == TwiceOps(drop, count, len);
    hide SendOps, ResetOps, CloseOps, ReopenOps, Piece, FilterAfter;
    PieceFilters(drop, len);
    PieceRun(count, len);
    PieceReset(Outgoing, len);
    PieceOne(Pause(10), len);
    PieceOne(Send(len), len);
    var s := CloseOps(drop) + SendOps(count, len);
    Pieces(CloseOps(drop), 0, SendOps(count, len), count, len);
    Pieces(s, count, ResetOps(Outgoing), 0, len);
    Pieces(s + ResetOps(Outgoing), count, [Pause(10)], 0, len);
    Pieces(s + ResetOps(Outgoing) + [Pause(10)], count, ResetOps(Outgoing), 0, len);
    Pieces(s + ResetOps(Outgoing) + [Pause(10)] + ResetOps(Outgoing), count, [Send(len)], 1, len);
    Pieces(a, count + 1, ReopenOps(drop), 0, len);
  }

  lemma ThricePieces(drop: nat, count: nat, len: nat)
    ensures Piece(ThriceOps(drop, count, len), count + 1, len)
  {
    hide SendOps, ResetOps, CloseOps, ReopenOps, Piece, FilterAfter;
    var a := CloseOps(drop) + SendOps(count, len) + ResetOps(Association) + [Pause(10)] + ResetOps(Association);
    var b := [Pause(10)] + ResetOps(Association) + [Send(len)];
    PieceFilters(drop, len);
    PieceRun(count, len);
    PieceReset(Association, len);
    PieceOne(Pause(10), len);
    PieceOne(Send(len), len);
    var s := CloseOps(drop) + SendOps(count, len);
    Pieces(CloseOps(drop), 0, SendOps(count, len), count, len);
    Pieces(s, count, ResetOps(Association), 0, len);
    Pieces(s + ResetOps(Association), count, [Pause(10)], 0, len);
    Pieces(s + ResetOps(Association) + [Pause(10)], count, ResetOps(Association), 0, len);
    Pieces([Pause(10)], 0, ResetOps(Association), 0, len);
    Pieces([Pause(10)] + ResetOps(Association), 0, [Send(len)], 1, len);
    Pieces(a, count, ReopenOps(drop), 0, len);
    Pieces(a + ReopenOps(drop), count, b, 1, len);
    assert a + ReopenOps(drop) + b == ThriceOps(drop, count, len);
  }

  lemma ThriceShape(drop: nat, count: nat, len: nat)
    ensures Piece(ThriceOps(drop, count, len), count + 1, len)
    ensures FilterAfter(ThriceOps(drop, count, len)).Clear()
  {
    var a := CloseOps(drop) + SendOps(count, len) + ResetOps(Association) + [Pause(10)] + ResetOps(Association);
    var b := [Pause(10)] + ResetOps(Association) + [Send(len)];
    assert drop == 0 ==> forall op | op in a :: Plain(op) by {
      PieceRun(count, len);
    }
    ReopenClears(drop, a, b);
    assert a + ReopenOps(drop) + b == ThriceOps(drop, count, len);
    ThricePieces(drop, count, len);
  }

  lemma BehindShape(drop: nat, count: nat, len: nat)
    ensures Piece(BehindOps(drop, count, len), count + 4, len)
    ensures FilterAfter(BehindOps(drop, count, len)).Clear()
  {
    var a := SendOps(count, len) + [Pause(5)] + CloseOps(drop) + ResetOps(Association) + SendOps(4, len) + [Pause(5)];
    assert drop == 0 ==> forall op | op in a :: Plain(op) by {
      PieceRun(count, len);
      PieceRun(4, len);
    }
    ReopenClears(drop, a, []);
    assert a + ReopenOps(drop) + [] == BehindOps(drop, count, len);
    hide SendOps, ResetOps, CloseOps, ReopenOps, Piece, FilterAfter;
    PieceFilters(drop, len);
    PieceRun(count, len);
    PieceRun(4, len);
    PieceReset(Association, len);
    PieceOne(Pause(5), len);
    var s := SendOps(count, len) + [Pause(5)];
    Pieces(SendOps(count, len), count, [Pause(5)], 0, len);
    Pieces(s, count, CloseOps(drop), 0, len);
    Pieces(s + CloseOps(drop), count, ResetOps(Association), 0, len);
    Pieces(s + CloseOps(drop) + ResetOps(Association), count, SendOps(4, len), 4, len);
    Pieces(s + CloseOps(drop) + ResetOps(Association) + SendOps(4, len), count + 4, [Pause(5)], 0, len);
    Pieces(a, count + 4, ReopenOps(drop), 0, len);
  }

  /**
   * Every row sends exactly the bytes its check function waits for, a number that a signed 32-bit
   * integer holds, in messages no command is mistaken for, and leaves no rule behind.
   */
  lemma CasesMeetTheirTargets(c: nat)
    requires c < CASES
    ensures var k := Cases(c);
            && Piece(BodyOps(k), k.Expected(), k.len)
            && FilterAfter(BodyOps(k)).Clear()
            && k.Check() == Total(Sent(BodyOps(k)) * k.len)
            && k.Check().target < 0x8000_0000
            && k.len > 0 && !IsCommand(k.len) && k.len != ACK
  {
    hide WrapOps, TwiceOps, ThriceOps, BehindOps, FilterAfter, Sent, SendOps;
    var k := Cases(c);
    match k.test {
      case Wrap(kind, count) => WrapShape(kind, count, k.len);
      case Twice => TwiceShape(k.drop, 10, k.len);
      case Thrice => ThriceShape(k.drop, 10, k.len);
      case Behind => BehindShape(k.drop, 10, k.len);
    }
  }
}
