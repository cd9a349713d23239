/**
 * The scheduler program's case table and the sequence of library calls each case makes.
 */
module NdataCases {
  import opened Scheduler
  import opened ClosedForms
  import Server

  /** A call the client makes, in the order it makes them. */
  datatype Op =
    | SetPolicy(policy: Policy)
    | SetValue(stream: nat, value: int)
    | EnableReset
    | Command(cmd: nat)
    | AwaitAck
    | DropInput                    // append a rule that drops every incoming SCTP packet
    | ResetStreams
    | FlushRules
    | Send(sid: nat, len: nat, unordered: bool)
    | Settle                       // a sleep long enough for the queues to drain

  datatype Values = NoValues | Falling | Paired | Stress
  datatype Traffic = Conformance | Steady(repeats: nat, length: nat, noOrder: bool)
                   | Mixed(repeats: nat) | Fuzz(repeats: nat) | Switching(repeats: nat)

  datatype Case = Case(policy: Policy, cork: bool, values: Values, traffic: Traffic, check: Server.Check)

  const CASES := 21

  const PERF := Steady(10000, 1024, false)
  const PERF_X := Steady(10000, 1024, true)
  const STRESS := Steady(1000, 10240, false)
  const SMALL := Steady(1000, 64, false)

  const MIXED := Mixed(10000)
  const FUZZ := Fuzz(10000)
  const SWITCHING := Switching(10000)

  const COUNT := Server.Count(1000000)
  const STRESS_BYTES := Server.Bytes(1024000000)
  const SMALL_BYTES := Server.Bytes(6400000)

  function Cases(i: nat): Case
    requires i < CASES
  {
    match i
    case 0 => Case(Prio, true, Falling, Conformance, Server.Order(PRIO_A_SIDS))
    case 1 => Case(Prio, true, Paired, Conformance, Server.Order(PRIO_B_SIDS))
    case 2 => Case(Prio, false, Stress, PERF, COUNT)
    case 3 => Case(Prio, false, Stress, STRESS, STRESS_BYTES)
    case 4 => Case(Prio, false, Stress, SMALL, SMALL_BYTES)
    case 5 => Case(Prio, false, Stress, FUZZ, Server.Tally)
    case 6 => Case(Prio, false, Stress, SWITCHING, Server.Tally)
    case 7 => Case(Rr, true, NoValues, Conformance, Server.Order(RR_SIDS))
    case 8 => Case(Rr, false, NoValues, PERF, COUNT)
    case 9 => Case(Rr, false, Stress, STRESS, STRESS_BYTES)
    case 10 => Case(Rr, false, Stress, SMALL, SMALL_BYTES)
    case 11 => Case(Rr, false, Stress, FUZZ, Server.Tally)
    case 12 => Case(Rr, false, Stress, SWITCHING, Server.Tally)
    case 13 => Case(Fcfs, true, NoValues, Conformance, Server.Order(FCFS_SIDS))
    case 14 => Case(Fcfs, false, NoValues, PERF, COUNT)
    case 15 => Case(Fcfs, false, Stress, STRESS, STRESS_BYTES)
    case 16 => Case(Fcfs, false, Stress, SMALL, SMALL_BYTES)
    case 17 => Case(Fcfs, false, Stress, FUZZ, Server.Tally)
    case 18 => Case(Fcfs, false, Stress, FUZZ, Server.Tally)
    case 19 => Case(Fcfs, false, NoValues, PERF_X, COUNT)
    case _ => Case(Fcfs, false, NoValues, MIXED, COUNT)
  }

  // ---------------------------------------------------------------- the calls of each loop

  function PairedValue(stream: nat): int
    requires stream <= 10
  {
    (10 - stream) / 8 + 8
  }

  /** Streams `lo` to `hi - 1`. */
  function ValueOps(v: Values, lo: nat, hi: nat): seq<Op>
    requires lo <= hi <= 10
    decreases hi
  {
    if lo == hi then []
    else ValueOps(v, lo, hi - 1)
         + [SetValue(hi - 1, if v == Paired then PairedValue(hi - 1) else 10 - (hi - 1))]
  }

  function SetupOps(c: Case): seq<Op> {
    [SetPolicy(c.policy)] + match c.values
                            case NoValues => []
                            case Stress => ValueOps(Stress, 0, 10)
                            case v => ValueOps(v, 1, 4)
  }

  /** `each` equal sends on one stream. */
  function RunOps(sid: nat, each: nat, len: nat, unordered: bool): seq<Op> {
    if each == 0 then [] else RunOps(sid, each - 1, len, unordered) + [Send(sid, len, unordered)]
  }

  /** That for streams `lo` to `hi - 1`. */
  function SweepOps(lo: nat, hi: nat, each: nat, len: nat, unordered: bool): seq<Op>
    requires lo <= hi
    decreases hi
  {
    if lo == hi then []
    else SweepOps(lo, hi - 1, each, len, unordered) + RunOps(hi - 1, each, len, unordered)
  }

  /** `repeats` sweeps over `streams` streams, `each` messages on every one. */
  function SteadyOps(repeats: nat, streams: nat, each: nat, len: nat, unordered: bool): seq<Op> {
    if repeats == 0 then []
    else SteadyOps(repeats - 1, streams, each, len, unordered) + SweepOps(0, streams, each, len, unordered)
  }

  /** An ordered and an unordered send by turns. */
  function PairOps(sid: nat, each: nat, len: nat): seq<Op> {
    if each == 0 then [] else PairOps(sid, each - 1, len) + [Send(sid, len, false), Send(sid, len, true)]
  }

  function PairSweepOps(hi: nat, each: nat, len: nat): seq<Op> {
    if hi == 0 then [] else PairSweepOps(hi - 1, each, len) + PairOps(hi - 1, each, len)
  }

  function MixedOps(repeats: nat, streams: nat, each: nat, len: nat): seq<Op> {
    if repeats == 0 then []
    else MixedOps(repeats - 1, streams, each, len) + PairSweepOps(streams, each, len)
  }

  /** The numbers the random generator returns, by position. */
  type Draws = nat -> nat

  function FuzzRunOps(rnd: Draws, at: nat, span: nat, sid: nat, each: nat): seq<Op>
    requires span > 0
  {
    if each == 0 then []
    else FuzzRunOps(rnd, at, span, sid, each - 1) + [Send(sid, rnd(at + each - 1) % span + 20, false)]
  }

  function FuzzSweepOps(rnd: Draws, at: nat, span: nat, hi: nat): seq<Op>
    requires span > 0
  {
    if hi == 0 then []
    else FuzzSweepOps(rnd, at, span, hi - 1) + FuzzRunOps(rnd, at + 10 * (hi - 1), span, hi - 1, 10)
  }

  function FuzzOps(rnd: Draws, at: nat, repeats: nat): seq<Op> {
    if repeats == 0 then []
    else FuzzOps(rnd, at, repeats - 1) + FuzzSweepOps(rnd, at + 100 * (repeats - 1), 1500, 10)
  }

  /** The case index drawn in round `r` of the switching loop. */
  function Switched(rnd: Draws, at: nat, r: nat): (c: nat)
    ensures c < CASES
  {
    rnd(at + 101 * r) % CASES
  }

  function SwitchingOps(rnd: Draws, at: nat, repeats: nat): seq<Op> {
    if repeats == 0 then []
    else
      var r := repeats - 1;
      SwitchingOps(rnd, at, r)
      + SetupOps(Cases(Switched(rnd, at, r)))
      + FuzzSweepOps(rnd, at + 101 * r + 1, 3000, 10)
  }

  function TrafficOps(t: Traffic, rnd: Draws, at: nat): seq<Op> {
    match t
    case Conformance => SweepOps(1, 4, 3, 1024, false)
    case Steady(repeats, len, unordered) => SteadyOps(repeats, 10, 10, len, unordered) + [Settle]
    case Mixed(repeats) => MixedOps(repeats, 10, 5, 1024) + [Settle]
    case Fuzz(repeats) => FuzzOps(rnd, at, repeats) + [Settle]
    case Switching(repeats) => SwitchingOps(rnd, at, repeats) + [Settle]
  }

  /** The switching loop leaves the context on another case. */
  function CaseAfter(c: nat, rnd: Draws, at: nat): (d: nat)
    requires c < CASES
    ensures d < CASES
  {
    var t := Cases(c).traffic;
    if t.Switching? && t.repeats > 0 then Switched(rnd, at, t.repeats - 1) else c
  }

  function CorkOps(cork: bool): seq<Op> {
    if cork then [DropInput, ResetStreams] else []
  }

  function UncorkOps(cork: bool): seq<Op> {
    if cork then [FlushRules, Settle] else []
  }

  /** Between the two commands. */
  function BodyOps(c: nat, rnd: Draws): seq<Op>
    requires c < CASES
  {
    CorkOps(Cases(c).cork) + TrafficOps(Cases(c).traffic, rnd, 0)
    + UncorkOps(Cases(CaseAfter(c, rnd, 0)).cork)
  }

  function OpeningOps(c: nat): seq<Op>
    requires c < CASES
  {
    SetupOps(Cases(c)) + [EnableReset, Command(Server.SET_STRRESET), AwaitAck]
  }

  const CLOSING: seq<Op> := [Command(Server.CLOSE_ASOC), AwaitAck]

  /** Everything the client does; `accepted` tells whether the reset request is taken. */
  function ClientOps(c: nat, rnd: Draws, accepted: bool): seq<Op>
    requires c < CASES
  {
    if Cases(c).cork && !accepted then OpeningOps(c) + [DropInput, FlushRules]
    else OpeningOps(c) + BodyOps(c, rnd) + CLOSING
  }
}
