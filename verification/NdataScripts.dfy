/** What the client's call sequences have in common, for every case and every random sequence. */
module NdataScripts {
  import opened Sequences
  import opened Scheduler
  import opened SchedOrder
  import opened ClosedForms
  import opened NdataCases
  import Server

  // ---------------------------------------------------------------- data and tags

  /** A data length that no receiver can take for a command or an acknowledgement. */
  predicate Untagged(len: int) {
    len != Server.SET_STRRESET && len != Server.CLOSE_ASOC && len != Server.ACK
  }

  /** Only sends of untagged data on the streams there are. */
  ghost predicate OnlySends(ops: seq<Op>, streams: nat) {
    forall i | 0 <= i < |ops| :: ops[i].Send? && ops[i].sid < streams && Untagged(ops[i].len) && ops[i].len > 0
  }

  /** Sends, settings and waits, but nothing that touches the packet filter or the commands. */
  ghost predicate OnlyTraffic(ops: seq<Op>, streams: nat) {
    forall i | 0 <= i < |ops| ::
      match ops[i]
      case SetPolicy(_) => true
      case SetValue(s, _) => s < streams
      case Send(s, len, _) => s < streams && Untagged(len) && len > 0
      case Settle => true
      case _ => false
  }

  lemma {:induction false} RunSends(sid: nat, each: nat, len: nat, unordered: bool)
    requires Untagged(len) && len > 0
    ensures OnlySends(RunOps(sid, each, len, unordered), sid + 1)
  {
    if each > 0 {
      RunSends(sid, each - 1, len, unordered);
    }
  }

  lemma {:induction false} SweepSends(lo: nat, hi: nat, each: nat, len: nat, unordered: bool)
    requires lo <= hi && Untagged(len) && len > 0
    ensures OnlySends(SweepOps(lo, hi, each, len, unordered), hi)
    decreases hi
  {
    if lo < hi {
      SweepSends(lo, hi - 1, each, len, unordered);
      RunSends(hi - 1, each, len, unordered);
    }
  }

  lemma {:induction false} SteadySends(repeats: nat, streams: nat, each: nat, len: nat, unordered: bool)
    requires Untagged(len) && len > 0
    ensures OnlySends(SteadyOps(repeats, streams, each, len, unordered), streams)
  {
    hide SweepOps;
    if repeats > 0 {
      SteadySends(repeats - 1, streams, each, len, unordered);
      SweepSends(0, streams, each, len, unordered);
    }
  }

  lemma {:induction false} PairSends(sid: nat, each: nat, len: nat)
    requires Untagged(len) && len > 0
    ensures OnlySends(PairOps(sid, each, len), sid + 1)
  {
    if each > 0 {
      PairSends(sid, each - 1, len);
    }
  }

  lemma {:induction false} PairSweepSends(hi: nat, each: nat, len: nat)
    requires Untagged(len) && len > 0
    ensures OnlySends(PairSweepOps(hi, each, len), hi)
  {
    if hi > 0 {
      PairSweepSends(hi - 1, each, len);
      PairSends(hi - 1, each, len);
    }
  }

  lemma {:induction false} MixedSends(repeats: nat, streams: nat, each: nat, len: nat)
    requires Untagged(len) && len > 0
    ensures OnlySends(MixedOps(repeats, streams, each, len), streams)
  {
    hide PairSweepOps;
    if repeats > 0 {
      MixedSends(repeats - 1, streams, each, len);
      PairSweepSends(streams, each, len);
    }
  }

  /** Whatever the generator draws, r % span + 20 is past the command numbers. */
  lemma {:induction false} FuzzRunSends(rnd: Draws, at: nat, span: nat, sid: nat, each: nat)
    requires span > 0
    ensures OnlySends(FuzzRunOps(rnd, at, span, sid, each), sid + 1)
  {
    if each > 0 {
      FuzzRunSends(rnd, at, span, sid, each - 1);
    }
  }

  lemma {:induction false} FuzzSweepSends(rnd: Draws, at: nat, span: nat, hi: nat)
    requires span > 0
    ensures OnlySends(FuzzSweepOps(rnd, at, span, hi), hi)
  {
    if hi > 0 {
      FuzzSweepSends(rnd, at, span, hi - 1);
      FuzzRunSends(rnd, at + 10 * (hi - 1), span, hi - 1, 10);
    }
  }

  lemma {:induction false} FuzzSends(rnd: Draws, at: nat, repeats: nat)
    ensures OnlySends(FuzzOps(rnd, at, repeats), 10)
  {
    hide FuzzSweepOps;
    if repeats > 0 {
      FuzzSends(rnd, at, repeats - 1);
      FuzzSweepSends(rnd, at + 100 * (repeats - 1), 1500, 10);
    }
  }

  lemma {:induction false} ValuesOnly(v: Values, lo: nat, hi: nat)
    requires lo <= hi <= 10
    ensures OnlyTraffic(ValueOps(v, lo, hi), hi)
    ensures forall i | 0 <= i < |ValueOps(v, lo, hi)| :: ValueOps(v, lo, hi)[i].SetValue?
    decreases hi
  {
    if lo < hi {
      ValuesOnly(v, lo, hi - 1);
    }
  }

  /** Setting a case up is choosing the scheduler and then values for streams it has. */
  lemma SetupOnly(c: Case)
    ensures OnlyTraffic(SetupOps(c), 10)
    ensures forall i | 0 <= i < |SetupOps(c)| :: SetupOps(c)[i].SetPolicy? || SetupOps(c)[i].SetValue?
  {
    hide ValueOps;
    ValuesOnly(Stress, 0, 10);
    ValuesOnly(c.values, 1, 4);
  }

  lemma {:induction false} SwitchingTraffic(rnd: Draws, at: nat, repeats: nat)
    ensures OnlyTraffic(SwitchingOps(rnd, at, repeats), 10)
  {
    hide FuzzSweepOps, SetupOps, Cases;
    if repeats > 0 {
      var r := repeats - 1;
      SwitchingTraffic(rnd, at, r);
      SetupOnly(Cases(Switched(rnd, at, r)));
      FuzzSweepSends(rnd, at + 101 * r + 1, 3000, 10);
    }
  }

  /** Every send loop of the table sends nothing that could be taken for a command. */
  lemma TrafficOnly(c: nat, rnd: Draws)
    requires c < CASES
    ensures OnlyTraffic(TrafficOps(Cases(c).traffic, rnd, 0), 10)
    ensures !Cases(c).cork ==>
              var t := TrafficOps(Cases(c).traffic, rnd, 0); t != [] && t[|t| - 1] == Settle
  {
    hide SweepOps, SteadyOps, MixedOps, FuzzOps, SwitchingOps;
    match Cases(c).traffic {
      case Conformance => SweepSends(1, 4, 3, 1024, false);
      case Steady(repeats, len, unordered) => SteadySends(repeats, 10, 10, len, unordered);
      case Mixed(repeats) => MixedSends(repeats, 10, 5, 1024);
      case Fuzz(repeats) => FuzzSends(rnd, 0, repeats);
      case Switching(repeats) => SwitchingTraffic(rnd, 0, repeats);
    }
  }

  // ---------------------------------------------------------------- filter bracketing

  /** How many drop rules are installed once the calls have been made. */
  function Rules(ops: seq<Op>): nat {
    if ops == [] then 0
    else
      var before := Rules(ops[..|ops| - 1]);
      match ops[|ops| - 1]
      case DropInput => before + 1
      case FlushRules => 0
      case _ => before
  }

  lemma {:induction false} RulesAfterTraffic(a: seq<Op>, b: seq<Op>, streams: nat)
    requires OnlyTraffic(b, streams)
    ensures Rules(a + b) == Rules(a)
  {
    if b == [] {
      assert a + b == a;
    } else {
      assert (a + b)[..|a + b| - 1] == a + b[..|b| - 1];
      RulesAfterTraffic(a, b[..|b| - 1], streams);
    }
  }

  lemma RulesAfterOne(a: seq<Op>, op: Op)
    ensures Rules(a + [op]) == match op case DropInput => Rules(a) + 1 case FlushRules => 0 case _ => Rules(a)
  {
    assert (a + [op])[..|a|] == a;
  }

  /**
   * A rule installed before the traffic is still there after it exactly when the context has moved
   * from a case that corks to one that does not.
   */
  lemma BracketLeaks(cork: bool, traffic: seq<Op>, streams: nat, corkAfter: bool)
    requires OnlyTraffic(traffic, streams)
    ensures Rules(CorkOps(cork) + traffic + UncorkOps(corkAfter)) > 0 <==> cork && !corkAfter
  {
    var c := CorkOps(cork);
    assert Rules([]) == 0;
    RulesAfterOne([], DropInput);
    RulesAfterOne([DropInput], ResetStreams);
    assert [] + [DropInput] == [DropInput] && [DropInput] + [ResetStreams] == [DropInput, ResetStreams];
    RulesAfterTraffic(c, traffic, streams);
    var a := c + traffic;
    RulesAfterOne(a, FlushRules);
    RulesAfterOne(a + [FlushRules], Settle);
    assert a + [FlushRules] + [Settle] == a + [FlushRules, Settle];
    assert a + [] == a;
  }

  /** The loop that rewrites the case index belongs to cases that do not cork. */
  lemma SwitchingNeverCorked(c: nat)
    requires c < CASES && Cases(c).traffic.Switching?
    ensures !Cases(c).cork
  {
  }

  /** No case sends the close command with a drop rule installed. */
  lemma ClosedWithoutRules(c: nat, rnd: Draws)
    requires c < CASES
    ensures Rules(BodyOps(c, rnd)) == 0
  {
    hide Cases, TrafficOps;
    TrafficOnly(c, rnd);
    if Cases(c).traffic.Switching? {
      SwitchingNeverCorked(c);
    }
    BracketLeaks(Cases(c).cork, TrafficOps(Cases(c).traffic, rnd, 0), 10,
                 Cases(CaseAfter(c, rnd, 0)).cork);
  }

  // ---------------------------------------------------------------- how much is sent

  /** The messages handed over, in order. */
  function Sent(ops: seq<Op>): seq<Submission> {
    if ops == [] then []
    else Sent(ops[..|ops| - 1])
         + match ops[|ops| - 1]
           case Send(sid, len, _) => [Submission(sid, len)]
           case _ => []
  }

  lemma SentOne(a: seq<Op>, op: Op)
    ensures Sent(a + [op]) == Sent(a) + if op.Send? then [Submission(op.sid, op.len)] else []
  {
    assert (a + [op])[..|a|] == a;
  }

  lemma {:induction false} SentSplit(a: seq<Op>, b: seq<Op>)
    ensures Sent(a + b) == Sent(a) + Sent(b)
  {
    if b == [] {
      assert a + b == a;
    } else {
      var b', op := b[..|b| - 1], b[|b| - 1];
      assert b == b' + [op];
      assert a + b == (a + b') + [op];
      SentSplit(a, b');
      SentOne(a + b', op);
      SentOne(b', op);
    }
  }

  function TotalBytes(subs: seq<Submission>): nat {
    if subs == [] then 0 else TotalBytes(subs[..|subs| - 1]) + subs[|subs| - 1].len
  }

  lemma {:induction false} BytesOfEqual(subs: seq<Submission>, len: nat)
    requires forall i | 0 <= i < |subs| :: subs[i].len == len
    ensures TotalBytes(subs) == |subs| * len
  {
    if subs != [] {
      BytesOfEqual(subs[..|subs| - 1], len);
    }
  }

  /** `n` messages of `len` bytes. */
  ghost predicate Sends(ops: seq<Op>, n: nat, len: nat) {
    && |Sent(ops)| == n
    && forall i | 0 <= i < n :: Sent(ops)[i].len == len
  }

  lemma SendsSplit(a: seq<Op>, m: nat, b: seq<Op>, n: nat, len: nat)
    requires Sends(a, m, len) && Sends(b, n, len)
    ensures Sends(a + b, m + n, len)
  {
    SentSplit(a, b);
  }

  lemma SendsOne(sid: nat, len: nat, unordered: bool)
    ensures Sends([Send(sid, len, unordered)], 1, len)
  {
    SentOne([], Send(sid, len, unordered));
    assert [] + [Send(sid, len, unordered)] == [Send(sid, len, unordered)];
  }

  lemma {:induction false} RunCount(sid: nat, each: nat, len: nat, unordered: bool)
    ensures Sends(RunOps(sid, each, len, unordered), each, len)
  {
    if each > 0 {
      RunCount(sid, each - 1, len, unordered);
      SendsOne(sid, len, unordered);
      SendsSplit(RunOps(sid, each - 1, len, unordered), each - 1, [Send(sid, len, unordered)], 1, len);
    }
  }

  lemma {:induction false} SweepCount(lo: nat, hi: nat, each: nat, len: nat, unordered: bool)
    requires lo <= hi
    ensures Sends(SweepOps(lo, hi, each, len, unordered), Times(hi - lo, each), len)
    decreases hi
  {
    if lo < hi {
      SweepCount(lo, hi - 1, each, len, unordered);
      RunCount(hi - 1, each, len, unordered);
      SendsSplit(SweepOps(lo, hi - 1, each, len, unordered), Times(hi - 1 - lo, each),
                 RunOps(hi - 1, each, len, unordered), each, len);
    }
  }

  lemma {:induction false} SteadyTimes(repeats: nat, streams: nat, each: nat, len: nat, unordered: bool)
    ensures Sends(SteadyOps(repeats, streams, each, len, unordered), Times(repeats, Times(streams, each)), len)
  {
    hide SweepOps;
    if repeats > 0 {
      SteadyTimes(repeats - 1, streams, each, len, unordered);
      SweepCount(0, streams, each, len, unordered);
      SendsSplit(SteadyOps(repeats - 1, streams, each, len, unordered), Times(repeats - 1, Times(streams, each)),
                 SweepOps(0, streams, each, len, unordered), Times(streams, each), len);
    }
  }

  /** R sweeps over S streams of C messages of L bytes: R * S * C messages, R * S * C * L bytes. */
  lemma SteadyCount(repeats: nat, streams: nat, each: nat, len: nat, unordered: bool)
    ensures Sends(SteadyOps(repeats, streams, each, len, unordered), repeats * (streams * each), len)
    ensures TotalBytes(Sent(SteadyOps(repeats, streams, each, len, unordered))) == repeats * (streams * each) * len
  {
    hide SteadyOps;
    SteadyTimes(repeats, streams, each, len, unordered);
    TimesIsProduct(streams, each);
    TimesIsProduct(repeats, streams * each);
    BytesOfEqual(Sent(SteadyOps(repeats, streams, each, len, unordered)), len);
  }

  lemma {:induction false} PairCount(sid: nat, each: nat, len: nat)
    ensures Sends(PairOps(sid, each, len), 2 * each, len)
  {
    if each > 0 {
      PairCount(sid, each - 1, len);
      SendsOne(sid, len, false);
      SendsOne(sid, len, true);
      SendsSplit([Send(sid, len, false)], 1, [Send(sid, len, true)], 1, len);
      assert [Send(sid, len, false)] + [Send(sid, len, true)] == [Send(sid, len, false), Send(sid, len, true)];
      SendsSplit(PairOps(sid, each - 1, len), 2 * (each - 1),
                 [Send(sid, len, false), Send(sid, len, true)], 2, len);
    }
  }

  lemma {:induction false} PairSweepCount(hi: nat, each: nat, len: nat)
    ensures Sends(PairSweepOps(hi, each, len), Times(hi, 2 * each), len)
  {
    if hi > 0 {
      PairSweepCount(hi - 1, each, len);
      PairCount(hi - 1, each, len);
      SendsSplit(PairSweepOps(hi - 1, each, len), Times(hi - 1, 2 * each),
                 PairOps(hi - 1, each, len), 2 * each, len);
    }
  }

  lemma {:induction false} MixedTimes(repeats: nat, streams: nat, each: nat, len: nat)
    ensures Sends(MixedOps(repeats, streams, each, len), Times(repeats, Times(streams, 2 * each)), len)
  {
    hide PairSweepOps;
    if repeats > 0 {
      MixedTimes(repeats - 1, streams, each, len);
      PairSweepCount(streams, each, len);
      SendsSplit(MixedOps(repeats - 1, streams, each, len), Times(repeats - 1, Times(streams, 2 * each)),
                 PairSweepOps(streams, each, len), Times(streams, 2 * each), len);
    }
  }

  /** With an ordered and an unordered message in the innermost loop: R * S * 2C messages. */
  lemma MixedCount(repeats: nat, streams: nat, each: nat, len: nat)
    ensures Sends(MixedOps(repeats, streams, each, len), repeats * (streams * (2 * each)), len)
  {
    hide MixedOps;
    MixedTimes(repeats, streams, each, len);
    TimesIsProduct(streams, 2 * each);
    TimesIsProduct(repeats, streams * (2 * each));
  }

  lemma {:induction false} RunIsBlock(sid: nat, each: nat, len: nat, unordered: bool)
    ensures Sent(RunOps(sid, each, len, unordered)) == Block(sid, each, len)
  {
    if each > 0 {
      RunIsBlock(sid, each - 1, len, unordered);
      SentOne(RunOps(sid, each - 1, len, unordered), Send(sid, len, unordered));
    }
  }

  /** The nested loop of the conformance cases is the stream-by-stream traffic of the closed forms. */
  lemma {:induction false} SweepIsStreamMajor(streams: nat, each: nat, len: nat, unordered: bool)
    ensures Sent(SweepOps(1, streams + 1, each, len, unordered)) == StreamMajor(streams, each, len)
  {
    if streams > 0 {
      SweepIsStreamMajor(streams - 1, each, len, unordered);
      RunIsBlock(streams, each, len, unordered);
      SentSplit(SweepOps(1, streams, each, len, unordered), RunOps(streams, each, len, unordered));
    }
  }

  lemma {:induction false} NoSends(ops: seq<Op>)
    requires forall i | 0 <= i < |ops| :: !ops[i].Send?
    ensures Sent(ops) == []
  {
    if ops != [] {
      NoSends(ops[..|ops| - 1]);
    }
  }

  lemma CorkSendsNothing(cork: bool)
    ensures Sent(CorkOps(cork)) == Sent(UncorkOps(cork)) == []
  {
    NoSends(CorkOps(cork));
    NoSends(UncorkOps(cork));
  }

  /** Corking, uncorking and waiting send nothing. */
  lemma SentInBody(c: nat, rnd: Draws)
    requires c < CASES
    ensures Sent(BodyOps(c, rnd)) == Sent(TrafficOps(Cases(c).traffic, rnd, 0))
  {
    hide Cases, TrafficOps, CorkOps, UncorkOps, Sent;
    var a, b := CorkOps(Cases(c).cork), UncorkOps(Cases(CaseAfter(c, rnd, 0)).cork);
    var t := TrafficOps(Cases(c).traffic, rnd, 0);
    CorkSendsNothing(Cases(c).cork);
    CorkSendsNothing(Cases(CaseAfter(c, rnd, 0)).cork);
    SentSplit(a + t, b);
    SentSplit(a, t);
  }

  lemma SteadyTotals(t: Traffic, rnd: Draws)
    requires t.Steady? || t.Mixed?
    ensures Sends(TrafficOps(t, rnd, 0), 100 * t.repeats, if t.Steady? then t.length else 1024)
  {
    hide SteadyOps, MixedOps;
    if t.Steady? {
      SteadyCount(t.repeats, 10, 10, t.length, t.noOrder);
      SentOne(SteadyOps(t.repeats, 10, 10, t.length, t.noOrder), Settle);
    } else {
      MixedCount(t.repeats, 10, 5, 1024);
      SentOne(MixedOps(t.repeats, 10, 5, 1024), Settle);
    }
  }

  /**
   * What each case sends is what its check function waits for: as many messages as the counter's
   * target, as many bytes as the total's, as many as the table has entries.
   */
  ghost predicate MeetsTarget(check: Server.Check, sent: seq<Submission>) {
    match check
    case Count(target) => |sent| == target
    case Bytes(target) => TotalBytes(sent) == target
    case Order(sids) => sent == StreamMajor(3, 3, 1024) && |sent| == |sids|
    case _ => true
  }

  /** The table pairs every check function with traffic of the right size. */
  lemma ChecksFitTraffic(c: nat)
    requires c < CASES
    ensures var k := Cases(c);
            match k.check
            case Count(target) => (k.traffic.Steady? || k.traffic.Mixed?) && 100 * k.traffic.repeats == target
            case Bytes(target) => k.traffic.Steady? && 100 * k.traffic.repeats * k.traffic.length == target
            case Order(sids) => k.traffic == Conformance && |sids| == 9
            case _ => true
  {
  }

  lemma ConformanceSends(rnd: Draws)
    ensures Sent(TrafficOps(Conformance, rnd, 0)) == StreamMajor(3, 3, 1024)
    ensures |StreamMajor(3, 3, 1024)| == 9
  {
    hide SweepOps, StreamMajor;
    SweepIsStreamMajor(3, 3, 1024, false);
    TimesIsProduct(3, 3);
  }

  lemma TargetsAreMet(c: nat, rnd: Draws)
    requires c < CASES
    ensures MeetsTarget(Cases(c).check, Sent(BodyOps(c, rnd)))
  {
    SentInBody(c, rnd);
    ChecksFitTraffic(c);
    hide Cases, TrafficOps, BodyOps, StreamMajor;
    var k := Cases(c);
    var sent := Sent(TrafficOps(k.traffic, rnd, 0));
    match k.check {
      case Order(_) => ConformanceSends(rnd);
      case Count(_) => SteadyTotals(k.traffic, rnd);
      case Bytes(_) =>
        SteadyTotals(k.traffic, rnd);
        BytesOfEqual(sent, k.traffic.length);
      case _ =>
    }
  }
}
