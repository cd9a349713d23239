/** The sending process of the scheduler program: nested send loops over a context they update. */
module NdataClient {
  import opened NdataCases
  import Server

  class Client {
    const rnd: Draws
    var sched: nat                 // index of the case, rewritten by one of the loops
    var drawn: nat                 // how often the generator has been called
    var log: seq<Op>               // the library calls so far

    constructor (rnd: Draws)
      ensures this.rnd == rnd && sched == 0 && drawn == 0 && log == []
    {
      this.rnd := rnd;
      sched, drawn, log := 0, 0, [];
    }

    method Do(op: Op)
      modifies this`log
      ensures log == old(log) + [op]
    {
      log := log + [op];
    }

    method Rand() returns (r: nat)
      modifies this`drawn
      ensures r == rnd(old(drawn)) && drawn == old(drawn) + 1
    {
      r := rnd(drawn);
      drawn := drawn + 1;
    }

    method SetupSched()
      requires sched < CASES
      modifies this`log
      ensures log == old(log) + [SetPolicy(Cases(sched).policy)]
    {
      Do(SetPolicy(Cases(sched).policy));
    }

    method SetupFallingValues(lo: nat, hi: nat)
      requires lo <= hi <= 10
      modifies this`log
      ensures log == old(log) + ValueOps(Falling, lo, hi)
      ensures ValueOps(Falling, lo, hi) == ValueOps(Stress, lo, hi)
    {
      for stream := lo to hi
        invariant log == old(log) + ValueOps(Falling, lo, stream)
        invariant ValueOps(Falling, lo, stream) == ValueOps(Stress, lo, stream)
      {
        Do(SetValue(stream, 10 - stream));
      }
    }

    method SetupPairedValues()
      modifies this`log
      ensures log == old(log) + ValueOps(Paired, 1, 4)
    {
      for stream := 1 to 4
        invariant log == old(log) + ValueOps(Paired, 1, stream)
      {
        Do(SetValue(stream, (10 - stream) / 8 + 8));
      }
    }

    /** The two calls through the case's function pointers. */
    method Setup()
      requires sched < CASES
      modifies this`log
      ensures log == old(log) + SetupOps(Cases(sched))
    {
      hide ValueOps;
      SetupSched();
      match Cases(sched).values {
        case NoValues =>
        case Falling => SetupFallingValues(1, 4);
        case Paired => SetupPairedValues();
        case Stress => SetupFallingValues(0, 10);
      }
    }

    method Sweep(lo: nat, hi: nat, each: nat, len: nat, unordered: bool)
      requires lo <= hi
      modifies this`log
      ensures log == old(log) + SweepOps(lo, hi, each, len, unordered)
    {
      for stream := lo to hi
        invariant log == old(log) + SweepOps(lo, stream, each, len, unordered)
      {
        ghost var outer := log;
        for count := 0 to each
          invariant log == outer + RunOps(stream, count, len, unordered)
        {
          Do(Send(stream, len, unordered));
        }
      }
    }

    method SteadyTraffic(repeats: nat, streams: nat, each: nat, len: nat, unordered: bool)
      modifies this`log
      ensures log == old(log) + SteadyOps(repeats, streams, each, len, unordered) + [Settle]
    {
      hide SweepOps;
      for repeat := 0 to repeats
        invariant log == old(log) + SteadyOps(repeat, streams, each, len, unordered)
      {
        Sweep(0, streams, each, len, unordered);
      }
      Do(Settle);
    }

    method PairSweep(streams: nat, each: nat, len: nat)
      modifies this`log
      ensures log == old(log) + PairSweepOps(streams, each, len)
    {
      for stream := 0 to streams
        invariant log == old(log) + PairSweepOps(stream, each, len)
      {
        ghost var outer := log;
        for count := 0 to each
          invariant log == outer + PairOps(stream, count, len)
        {
          Do(Send(stream, len, false));
          Do(Send(stream, len, true));
        }
      }
    }

    method MixedTraffic(repeats: nat, streams: nat, each: nat, len: nat)
      modifies this`log
      ensures log == old(log) + MixedOps(repeats, streams, each, len) + [Settle]
    {
      hide PairSweepOps;
      for repeat := 0 to repeats
        invariant log == old(log) + MixedOps(repeat, streams, each, len)
      {
        PairSweep(streams, each, len);
      }
      Do(Settle);
    }

    method FuzzSweep(span: nat)
      requires span > 0
      modifies this`log, this`drawn
      ensures log == old(log) + FuzzSweepOps(rnd, old(drawn), span, 10)
      ensures drawn == old(drawn) + 100
    {
      for stream := 0 to 10
        invariant drawn == old(drawn) + 10 * stream
        invariant log == old(log) + FuzzSweepOps(rnd, old(drawn), span, stream)
      {
        ghost var outer, at := log, drawn;
        for count := 0 to 10
          invariant drawn == at + count
          invariant log == outer + FuzzRunOps(rnd, at, span, stream, count)
        {
          var r := Rand();
          Do(Send(stream, r % span + 20, false));
        }
      }
    }

    method FuzzTraffic(repeats: nat)
      modifies this`log, this`drawn
      ensures log == old(log) + FuzzOps(rnd, old(drawn), repeats) + [Settle]
    {
      hide FuzzSweepOps;
      for repeat := 0 to repeats
        invariant drawn == old(drawn) + 100 * repeat
        invariant log == old(log) + FuzzOps(rnd, old(drawn), repeat)
      {
        FuzzSweep(1500);
      }
      Do(Settle);
    }

    /** Every round moves the context to a random case and sets the association up for it. */
    method SwitchingTraffic(repeats: nat)
      modifies this
      ensures log == old(log) + SwitchingOps(rnd, old(drawn), repeats) + [Settle]
      ensures sched == if repeats > 0 then Switched(rnd, old(drawn), repeats - 1) else old(sched)
    {
      hide FuzzSweepOps, SetupOps, Cases;
      for repeat := 0 to repeats
        invariant drawn == old(drawn) + 101 * repeat
        invariant log == old(log) + SwitchingOps(rnd, old(drawn), repeat)
        invariant sched == if repeat > 0 then Switched(rnd, old(drawn), repeat - 1) else old(sched)
      {
        var r := Rand();
        sched := r % CASES;
        Setup();
        FuzzSweep(3000);
      }
      Do(Settle);
    }

    method SchedTests()
      requires sched < CASES
      modifies this
      ensures log == old(log) + TrafficOps(Cases(old(sched)).traffic, rnd, old(drawn))
      ensures sched == CaseAfter(old(sched), rnd, old(drawn))
    {
      hide Cases, SteadyOps, MixedOps, FuzzOps, SwitchingOps, SweepOps;
      match Cases(sched).traffic {
        case Conformance => Sweep(1, 4, 3, 1024, false);
        case Steady(repeats, len, unordered) => SteadyTraffic(repeats, 10, 10, len, unordered);
        case Mixed(repeats) => MixedTraffic(repeats, 10, 5, 1024);
        case Fuzz(repeats) => FuzzTraffic(repeats);
        case Switching(repeats) => SwitchingTraffic(repeats);
      }
    }

    /** `accepted` is the outcome of the reset request; a refused one ends the process. */
    method CloseStreams(accepted: bool) returns (alive: bool)
      requires sched < CASES
      modifies this`log
      ensures alive <==> accepted || !Cases(sched).cork
      ensures log == old(log) + if alive then CorkOps(Cases(sched).cork) else [DropInput, FlushRules]
    {
      if !Cases(sched).cork {
        return true;
      }
      Do(DropInput);
      if !accepted {
        Do(FlushRules);
        return false;
      }
      Do(ResetStreams);
      return true;
    }

    method ReopenStreams()
      requires sched < CASES
      modifies this`log
      ensures log == old(log) + UncorkOps(Cases(sched).cork)
    {
      if !Cases(sched).cork {
        return;
      }
      Do(FlushRules);
      Do(Settle);
    }

    method SendCommand(cmd: nat)
      modifies this`log
      ensures log == old(log) + [Command(cmd), AwaitAck]
    {
      Do(Command(cmd));
      Do(AwaitAck);
    }

    method DoClient(c: nat, accepted: bool)
      requires c < CASES && log == [] && drawn == 0
      modifies this
      ensures log == ClientOps(c, rnd, accepted)
    {
      hide Cases, TrafficOps, SetupOps;
      sched := c;
      Setup();
      Do(EnableReset);
      SendCommand(Server.SET_STRRESET);
      assert log == OpeningOps(c);
      var alive := CloseStreams(accepted);
      if !alive {
        return;
      }
      SchedTests();
      ReopenStreams();
      SendCommand(Server.CLOSE_ASOC);
      assert log == OpeningOps(c) + BodyOps(c, rnd) + CLOSING;
    }
  }
}
