/**
 * The partial-reliability program: its case table and its sending process.  Two of its tests start
 * a second thread that removes the packet filter while the first may be blocked in a send.
 */
module PrClient {
  import opened Server

  /** How long the stack keeps trying to deliver a message. */
  datatype Policy = Reliable | Lifetime | Retransmissions | Priority

  datatype Msg = Msg(sid: nat, len: nat, policy: Policy, value: int, unordered: bool)

  /** A call the client makes. */
  datatype Op =
    | EnablePartial
    | SetSendBuffer(size: nat)
    | DropData                     // append a rule that drops outgoing DATA chunks
    | FlushRules
    | Send(msg: Msg)
    | Spawn                        // start the cleaning thread
    | Join                         // wait for it to end
    | Pause(seconds: nat)
    | Command(cmd: nat)
    | AwaitAck

  datatype Test = Lapse | LapseUnordered | LapseThree | Evict | EvictUnordered | EvictThree
                | Threaded(spread: bool)

  datatype Case = Case(drop: nat, policy: Policy, value: int, length: nat, test: Test, check: Check)

  /** The rows with an initialiser. */
  const CASES := 11

  const SNDBUF := 2500

  function Cases(i: nat): Case
    requires i < CASES
  {
    match i
    case 0 => Case(1, Lifetime, 5000, 1024, Lapse, LastLength(1000))
    case 1 => Case(1, Lifetime, 5000, 1024, LapseUnordered, LastLength(1000))
    case 2 => Case(1, Lifetime, 5000, 1024, LapseThree, FirstThenBoth(100))
    case 3 => Case(1, Retransmissions, 2, 1024, Lapse, LastLength(1000))
    case 4 => Case(1, Retransmissions, 2, 1024, LapseUnordered, LastLength(1000))
    case 5 => Case(1, Retransmissions, 2, 1024, LapseThree, FirstThenBoth(100))
    case 6 => Case(1, Priority, 2, 4500, Evict, LastLength(1000))
    case 7 => Case(1, Priority, 2, 4500, EvictUnordered, LastLength(1000))
    case 8 => Case(1, Priority, 2, 4500, EvictThree, FirstThenBoth(1000))
    case 9 => Case(1, Priority, 2, 500, Threaded(false), FourTotals)
    case _ => Case(1, Priority, 2, 500, Threaded(true), FourTotals)
  }

  // ---------------------------------------------------------------- the calls of each test

  function CloseOps(drop: nat): seq<Op> {
    if drop == 0 then [] else [DropData]
  }

  function ReopenOps(drop: nat): seq<Op> {
    if drop == 0 then [] else [FlushRules, Pause(10)]
  }

  /** What the cleaning thread does. */
  function CleanOps(drop: nat): seq<Op> {
    [Pause(3)] + ReopenOps(drop)
  }

  function LapseOps(c: Case, unordered: bool): seq<Op> {
    CloseOps(c.drop)
    + [Send(Msg(1, c.length, c.policy, c.value, unordered)), Pause(10), Send(Msg(1, 1000, Reliable, 0, unordered))]
    + ReopenOps(c.drop)
  }

  function LapseThreeOps(c: Case): seq<Op> {
    CloseOps(c.drop)
    + [Send(Msg(1, 100, c.policy, c.value, true)), Pause(10), Send(Msg(1, 100, Reliable, 0, true)),
       Send(Msg(1, 100, Reliable, 0, false))]
    + ReopenOps(c.drop)
  }

  function EvictOps(c: Case, unordered: bool): seq<Op> {
    [SetSendBuffer(SNDBUF)] + CloseOps(c.drop)
    + [Send(Msg(1, c.length, c.policy, c.value, unordered)), Send(Msg(1, 1000, c.policy, c.value - 1, unordered))]
    + ReopenOps(c.drop)
  }

  function EvictThreeOps(c: Case): seq<Op> {
    [SetSendBuffer(SNDBUF)] + CloseOps(c.drop)
    + [Send(Msg(1, c.length, c.policy, c.value, true)), Send(Msg(1, 1000, c.policy, c.value - 1, true)),
       Send(Msg(1, 1000, c.policy, c.value - 1, false))]
    + ReopenOps(c.drop)
  }

  /** Five small messages, on one stream or on five, then two large ones beside the other thread. */
  function ThreadedOps(c: Case, spread: bool): seq<Op> {
    [SetSendBuffer(SNDBUF)] + CloseOps(c.drop)
    + [Send(Msg(if spread then 0 else 1, 1, c.policy, c.value, true)),
       Send(Msg(1, 1, c.policy, c.value - 1, true)),
       Send(Msg(if spread then 2 else 1, 1, c.policy, c.value, true)),
       Send(Msg(if spread then 3 else 1, 1, c.policy, c.value, true)),
       Send(Msg(if spread then 4 else 1, 1, c.policy, c.value - 1, true)),
       Pause(10), Spawn,
       Send(Msg(if spread then 2 else 1, 1000, c.policy, c.value - 1, true)),
       Send(Msg(if spread then 3 else 1, 1000, c.policy, c.value - 1, false)),
       Join, Pause(3)]
  }

  function BodyOps(c: Case): seq<Op> {
    match c.test
    case Lapse => LapseOps(c, false)
    case LapseUnordered => LapseOps(c, true)
    case LapseThree => LapseThreeOps(c)
    case Evict => EvictOps(c, false)
    case EvictUnordered => EvictOps(c, true)
    case EvictThree => EvictThreeOps(c)
    case Threaded(spread) => ThreadedOps(c, spread)
  }

  const CLOSING: seq<Op> := [Pause(5), Command(CLOSE_ASOC), AwaitAck]

  function ScriptOf(body: seq<Op>): seq<Op> {
    [EnablePartial] + body + CLOSING
  }

  // ---------------------------------------------------------------- the process

  class Client {
    var c: nat
    var log: seq<Op>               // the library calls of the main thread

    constructor (c: nat)
      ensures this.c == c && log == []
    {
      this.c := c;
      log := [];
    }

    method Do(op: Op)
      modifies this`log
      ensures log == old(log) + [op]
    {
      log := log + [op];
    }

    method SendMsg(len: nat, sid: nat, policy: Policy, unordered: bool, value: int)
      modifies this`log
      ensures log == old(log) + [Send(Msg(sid, len, policy, value, unordered))]
    {
      Do(Send(Msg(sid, len, policy, value, unordered)));
    }

    method CloseStreams()
      requires c < CASES
      modifies this`log
      ensures log == old(log) + CloseOps(Cases(c).drop)
    {
      if Cases(c).drop == 0 {
        return;
      }
      Do(DropData);
    }

    method ReopenStreams()
      requires c < CASES
      modifies this`log
      ensures log == old(log) + ReopenOps(Cases(c).drop)
    {
      if Cases(c).drop == 0 {
        return;
      }
      Do(FlushRules);
      Do(Pause(10));
    }

    method TestLapse(unordered: bool)
      requires c < CASES
      modifies this`log
      ensures log == old(log) + LapseOps(Cases(c), unordered)
    {
      hide Cases, CloseOps, ReopenOps;
      CloseStreams();
      SendMsg(Cases(c).length, 1, Cases(c).policy, unordered, Cases(c).value);
      Do(Pause(10));
      SendMsg(1000, 1, Reliable, unordered, 0);
      ReopenStreams();
    }

    method TestLapseThree()
      requires c < CASES
      modifies this`log
      ensures log == old(log) + LapseThreeOps(Cases(c))
    {
      hide Cases, CloseOps, ReopenOps;
      CloseStreams();
      SendMsg(100, 1, Cases(c).policy, true, Cases(c).value);
      Do(Pause(10));
      SendMsg(100, 1, Reliable, true, 0);
      SendMsg(100, 1, Reliable, false, 0);
      ReopenStreams();
    }

    method TestEvict(unordered: bool)
      requires c < CASES
      modifies this`log
      ensures log == old(log) + EvictOps(Cases(c), unordered)
    {
      hide Cases, CloseOps, ReopenOps;
      Do(SetSendBuffer(SNDBUF));
      CloseStreams();
      SendMsg(Cases(c).length, 1, Cases(c).policy, unordered, Cases(c).value);
      SendMsg(1000, 1, Cases(c).policy, unordered, Cases(c).value - 1);
      ReopenStreams();
    }

    method TestEvictThree()
      requires c < CASES
      modifies this`log
      ensures log == old(log) + EvictThreeOps(Cases(c))
    {
      hide Cases, CloseOps, ReopenOps;
      Do(SetSendBuffer(SNDBUF));
      CloseStreams();
      SendMsg(Cases(c).length, 1, Cases(c).policy, true, Cases(c).value);
      SendMsg(1000, 1, Cases(c).policy, true, Cases(c).value - 1);
      SendMsg(1000, 1, Cases(c).policy, false, Cases(c).value - 1);
      ReopenStreams();
    }

    method TestThreaded()
      requires c < CASES
      modifies this`log
      ensures log == old(log) + ThreadedOps(Cases(c), false)
    {
      hide Cases, CloseOps;
      var k := Cases(c);
      Do(SetSendBuffer(SNDBUF));
      CloseStreams();
      ghost var corked := log;
      SendMsg(1, 1, k.policy, true, k.value);
      SendMsg(1, 1, k.policy, true, k.value - 1);
      SendMsg(1, 1, k.policy, true, k.value);
      SendMsg(1, 1, k.policy, true, k.value);
      SendMsg(1, 1, k.policy, true, k.value - 1);
      assert log == corked
                    + [Send(Msg(1, 1, k.policy, k.value, true)), Send(Msg(1, 1, k.policy, k.value - 1, true)),
                       Send(Msg(1, 1, k.policy, k.value, true)), Send(Msg(1, 1, k.policy, k.value, true)),
                       Send(Msg(1, 1, k.policy, k.value - 1, true))];
      Do(Pause(10));
      Do(Spawn);
      SendMsg(1000, 1, k.policy, true, k.value - 1);
      SendMsg(1000, 1, k.policy, false, k.value - 1);
      Do(Join);
      Do(Pause(3));
    }

    method TestThreadedSpread()
      requires c < CASES
      modifies this`log
      ensures log == old(log) + ThreadedOps(Cases(c), true)
    {
      hide Cases, CloseOps;
      var k := Cases(c);
      Do(SetSendBuffer(SNDBUF));
      CloseStreams();
      ghost var corked := log;
      SendMsg(1, 0, k.policy, true, k.value);
      SendMsg(1, 1, k.policy, true, k.value - 1);
      SendMsg(1, 2, k.policy, true, k.value);
      SendMsg(1, 3, k.policy, true, k.value);
      SendMsg(1, 4, k.policy, true, k.value - 1);
      assert log == corked
                    + [Send(Msg(0, 1, k.policy, k.value, true)), Send(Msg(1, 1, k.policy, k.value - 1, true)),
                       Send(Msg(2, 1, k.policy, k.value, true)), Send(Msg(3, 1, k.policy, k.value, true)),
                       Send(Msg(4, 1, k.policy, k.value - 1, true))];
      Do(Pause(10));
      Do(Spawn);
      SendMsg(1000, 2, k.policy, true, k.value - 1);
      SendMsg(1000, 3, k.policy, false, k.value - 1);
      Do(Join);
      Do(Pause(3));
    }

    /** The thread started by the two threaded tests; its calls are not part of `log`. */
    method Cleanup() returns (calls: seq<Op>)
      requires c < CASES
      ensures calls == CleanOps(Cases(c).drop)
    {
      calls := [Pause(3)];
      if Cases(c).drop == 0 {
        return;
      }
      calls := calls + [FlushRules];
      calls := calls + [Pause(10)];
    }

    method DoClient()
      requires c < CASES && log == []
      modifies this`log
      ensures log == ScriptOf(BodyOps(Cases(c)))
    {
      hide Cases, LapseOps, LapseThreeOps, EvictOps, EvictThreeOps, ThreadedOps;
      Do(EnablePartial);
      match Cases(c).test {
        case Lapse => TestLapse(false);
        case LapseUnordered => TestLapse(true);
        case LapseThree => TestLapseThree();
        case Evict => TestEvict(false);
        case EvictUnordered => TestEvict(true);
        case EvictThree => TestEvictThree();
        case Threaded(spread) =>
          if spread {
            TestThreadedSpread();
          } else {
            TestThreaded();
          }
      }
      Do(Pause(5));
      Do(Command(CLOSE_ASOC));
      Do(AwaitAck);
    }
  }
}
