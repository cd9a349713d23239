/** The twenty-one cases of the scheduler program, run whole. */
module NdataPrograms {
  import opened Sequences
  import opened Scheduler
  import opened SchedOrder
  import opened ClosedForms
  import opened NdataCases
  import opened NdataScripts
  import opened Server
  import opened Verdicts
  import opened NdataWorld
  import opened NdataInvariant
  import opened NdataTheorems

  /** Case `c` on an association with `streams` outgoing streams; the cases use the first ten. */
  function PlanOf(c: nat, rnd: Draws, streams: nat): Plan
    requires c < CASES
  {
    Plan(streams, SetupOps(Cases(c)) + [EnableReset], BodyOps(c, rnd), Cases(c).check)
  }

  /** The script is what the client does when its reset request is accepted. */
  lemma ScriptIsClient(c: nat, rnd: Draws, streams: nat)
    requires streams >= 10 && c < CASES
    ensures PlanOf(c, rnd, streams).Script() == ClientOps(c, rnd, true)
  {
    hide Cases, SetupOps, BodyOps;
    var a, b := SetupOps(Cases(c)), BodyOps(c, rnd);
    assert a + [EnableReset] + [Command(SET_STRRESET), AwaitAck]
        == a + [EnableReset, Command(SET_STRRESET), AwaitAck];
  }

  lemma TrafficInBody(ops: seq<Op>, streams: nat)
    requires OnlyTraffic(ops, 10) && streams >= 10
    ensures forall i | 0 <= i < |ops| :: InBody(ops[i], streams)
  {
  }

  lemma CorkKept(c: nat, rnd: Draws)
    requires c < CASES
    ensures Cases(c).cork ==> Cases(CaseAfter(c, rnd, 0)).cork
  {
    if Cases(c).traffic.Switching? {
      SwitchingNeverCorked(c);
    }
  }

  lemma BodyFits(c: nat, rnd: Draws, streams: nat)
    requires streams >= 10 && c < CASES
    ensures forall i | 0 <= i < |BodyOps(c, rnd)| :: InBody(BodyOps(c, rnd)[i], streams)
    ensures BodyOps(c, rnd) != [] && BodyOps(c, rnd)[|BodyOps(c, rnd)| - 1] == Settle
  {
    hide Cases, TrafficOps;
    var t := TrafficOps(Cases(c).traffic, rnd, 0);
    TrafficOnly(c, rnd);
    TrafficInBody(t, streams);
    CorkKept(c, rnd);
  }

  lemma CorkedCases(c: nat)
    requires c < CASES && Cases(c).cork
    ensures Cases(c).traffic == Conformance && Cases(c).check.Order?
  {
  }

  /** The only wait of a corked case is the one after the release. */
  lemma CorkedShape(c: nat, rnd: Draws)
    requires c < CASES && Cases(c).cork
    ensures OnlySends(SweepOps(1, 4, 3, 1024, false), 4)
    ensures BodyOps(c, rnd)
         == [DropInput, ResetStreams] + SweepOps(1, 4, 3, 1024, false) + [FlushRules, Settle]
    ensures Cases(c).check.Order?
  {
    hide SweepOps, Cases;
    CorkedCases(c);
    SweepSends(1, 4, 3, 1024, false);
  }

  lemma NoRules()
    ensures Rules([]) == 0
  {
  }

  lemma UncorkedWaits(c: nat, rnd: Draws, i: nat)
    requires c < CASES && !Cases(c).cork && i <= |BodyOps(c, rnd)|
    ensures Rules(BodyOps(c, rnd)[..i]) == 0
  {
    hide Cases, TrafficOps, Rules;
    var t := TrafficOps(Cases(c).traffic, rnd, 0);
    TrafficOnly(c, rnd);
    var d := BodyOps(c, rnd);
    NoRules();
    if i <= |t| {
      RulesAfterTraffic([], t[..i], 10);
      assert [] + t[..i] == d[..i];
    } else {
      RulesAfterTraffic([], t, 10);
      assert [] + t == t;
      RulesAfterOne(t, FlushRules);
      RulesAfterOne(t + [FlushRules], Settle);
      assert d[..i] == t + [FlushRules] || d[..i] == t + [FlushRules] + [Settle];
    }
  }

  lemma CorkedWaits(c: nat, rnd: Draws, i: nat)
    requires c < CASES && Cases(c).cork && i < |BodyOps(c, rnd)| && BodyOps(c, rnd)[i] == Settle
    ensures Rules(BodyOps(c, rnd)[..i]) == 0
  {
    hide SweepOps, Cases, BodyOps, Rules;
    CorkedShape(c, rnd);
    var d, s := BodyOps(c, rnd), SweepOps(1, 4, 3, 1024, false);
    assert i == |d| - 1;
    assert d[..i] == ([DropInput, ResetStreams] + s) + [FlushRules];
    RulesAfterOne([DropInput, ResetStreams] + s, FlushRules);
  }

  lemma PlansAreGood(c: nat, rnd: Draws, streams: nat)
    requires streams >= 10 && c < CASES
    ensures PlanOf(c, rnd, streams).Good()
  {
    hide Cases, SetupOps, BodyOps, Rules;
    SetupOnly(Cases(c));
    BodyFits(c, rnd, streams);
    TargetsAreMet(c, rnd);
    var p := PlanOf(c, rnd, streams);
    forall i | 0 <= i < |p.body| && p.body[i] == Settle
      ensures Rules(p.body[..i]) == 0
    {
      if Cases(c).cork {
        CorkedWaits(c, rnd, i);
      } else {
        UncorkedWaits(c, rnd, i);
      }
    }
  }

  // ---------------------------------------------------------------- the conformance cases

  lemma SetThree(ops: seq<Op>, x: int, y: int, z: int, streams: nat)
    requires streams >= 10
    requires ops == [SetPolicy(Prio), SetValue(1, x), SetValue(2, y), SetValue(3, z), EnableReset]
    ensures var q := Configured(ops, streams);
            |q.value| == streams && q.policy == Prio && q.value[1] == x && q.value[2] == y && q.value[3] == z
  {
    hide OutQ.Valid;
    assert ops[..0] == [];
    ConfiguredStep(ops, 0, streams);
    ConfiguredStep(ops, 1, streams);
    ConfiguredStep(ops, 2, streams);
    ConfiguredStep(ops, 3, streams);
    ConfiguredStep(ops, 4, streams);
    assert ops[..5] == ops;
  }

  lemma SetPolicyOnly(ops: seq<Op>, policy: Policy, streams: nat)
    requires streams >= 10
    requires ops == [SetPolicy(policy), EnableReset]
    ensures |Configured(ops, streams).value| == streams && Configured(ops, streams).policy == policy
  {
    hide OutQ.Valid;
    assert ops[..0] == [];
    ConfiguredStep(ops, 0, streams);
    ConfiguredStep(ops, 1, streams);
    assert ops[..2] == ops;
  }

  lemma ValuesSet(c: nat, streams: nat)
    requires streams >= 10 && c < CASES && Cases(c).cork
    ensures var ops := SetupOps(Cases(c)) + [EnableReset];
            && (forall i | 0 <= i < |ops| ::
                  ops[i].SetPolicy? || ops[i].EnableReset? || (ops[i].SetValue? && ops[i].stream < streams))
            && var q := Configured(ops, streams);
               && |q.value| == streams
               && q.policy == Cases(c).policy
               && (c == 0 ==> q.value[1] == 9 && q.value[2] == 8 && q.value[3] == 7)
               && (c == 1 ==> q.value[1] == 9 && q.value[2] == 9 && q.value[3] == 8)
  {
    var ops := SetupOps(Cases(c)) + [EnableReset];
    if c == 0 {
      assert ops == [SetPolicy(Prio), SetValue(1, 9), SetValue(2, 8), SetValue(3, 7), EnableReset];
      SetThree(ops, 9, 8, 7, streams);
    } else if c == 1 {
      assert ops == [SetPolicy(Prio), SetValue(1, 9), SetValue(2, 9), SetValue(3, 8), EnableReset];
      SetThree(ops, 9, 9, 8, streams);
    } else {
      assert ops == [SetPolicy(Cases(c).policy), EnableReset];
      SetPolicyOnly(ops, Cases(c).policy, streams);
    }
  }

  /** What the setup calls leave behind in the four corked cases. */
  lemma CorkedSettings(c: nat, rnd: Draws, streams: nat)
    requires streams >= 10 && c < CASES && Cases(c).cork
    ensures PlanOf(c, rnd, streams).Good()
    ensures var q := Before(PlanOf(c, rnd, streams));
            && |q.value| == streams
            && q.policy == Cases(c).policy
            && (c == 0 ==> q.value[1] == 9 && q.value[2] == 8 && q.value[3] == 7)
            && (c == 1 ==> q.value[1] == 9 && q.value[2] == 9 && q.value[3] == 8)
  {
    PlansAreGood(c, rnd, streams);
    var p := PlanOf(c, rnd, streams);
    ValuesSet(c, streams);
    hide Plan.Good, OutQ.Valid, BodyOps, SetupOps, Cases, Configured, Pop, Opened;
  }

  /** Any grid of streams and messages under the cork leaves as the closed forms say. */
  lemma GridRun(p: Plan, streams: nat, each: nat, len: nat, schedule: seq<Choice>)
    requires streams < p.streams && Corked(p, SweepOps(1, streams + 1, each, len, false))
    ensures p.Good()
    ensures var w := After(p, Init(p), schedule);
            w.exited ==> w.got == Released(Before(p), streams, each, len)
  {
    var sends := SweepOps(1, streams + 1, each, len, false);
    CorkedRunDrains(p, sends, schedule);
    SweepIsStreamMajor(streams, each, len, false);
    hide OutQ.Valid, Plan.Good, SweepOps, Drain, After, Before, Corked, EnqueueAll;
  }

  /** First come, first served, position by position, for every grid and every schedule. */
  lemma FcfsGridRun(p: Plan, streams: nat, each: nat, len: nat, schedule: seq<Choice>, i: nat)
    requires streams < p.streams && Corked(p, SweepOps(1, streams + 1, each, len, false))
    requires Before(p).policy == Fcfs && i < streams * each
    ensures var w := After(p, Init(p), schedule);
            w.exited ==> |w.got| == streams * each && each > 0 && w.got[i].sid == FcfsPlace(i, each).stream
  {
    hide OutQ.Valid, Plan.Good, SweepOps, Drain, After, Before, Corked, Released;
    GridRun(p, streams, each, len, schedule);
    FcfsClosedForm(Before(p), streams, each, len, i);
  }

  /** Round robin likewise: the transpose. */
  lemma RoundRobinGridRun(p: Plan, streams: nat, each: nat, len: nat, schedule: seq<Choice>, i: nat)
    requires streams < p.streams && Corked(p, SweepOps(1, streams + 1, each, len, false))
    requires OneClass(Before(p), streams) && i < each * streams
    ensures var w := After(p, Init(p), schedule);
            w.exited ==> |w.got| == each * streams && streams > 0
                         && w.got[i].sid == RoundRobinPlace(i, streams).stream
  {
    hide OutQ.Valid, Plan.Good, SweepOps, Drain, After, Before, Corked, Released;
    GridRun(p, streams, each, len, schedule);
    RoundRobinClosedForm(Before(p), streams, each, len, i);
  }

  /** Priority with falling values likewise: the blocks in reverse. */
  lemma FallingGridRun(p: Plan, streams: nat, each: nat, len: nat, schedule: seq<Choice>, i: nat)
    requires streams < p.streams && Corked(p, SweepOps(1, streams + 1, each, len, false))
    requires ValuesFall(Before(p), streams) && i < streams * each
    ensures var w := After(p, Init(p), schedule);
            w.exited ==> |w.got| == streams * each && each > 0 && i / each < streams
                         && w.got[i].sid == FallingPlace(i, streams, each).stream
  {
    hide OutQ.Valid, Plan.Good, SweepOps, Drain, After, Before, Corked, Released;
    GridRun(p, streams, each, len, schedule);
    FallingValuesClosedForm(Before(p), streams, each, len, i);
  }

  lemma TableOf(c: nat, rnd: Draws, streams: nat)
    requires streams >= 10 && c < CASES && Cases(c).cork
    ensures PlanOf(c, rnd, streams).Good() && Cases(c).check.Order?
    ensures Sids(Released(Before(PlanOf(c, rnd, streams)), 3, 3, 1024)) == Cases(c).check.sids
  {
    hide OutQ.Valid, Plan.Good, Before, Released, Sids, BodyOps, SetupOps;
    CorkedSettings(c, rnd, streams);
    var q := Before(PlanOf(c, rnd, streams));
    match c {
      case 0 => PriorityTableA(q, 1024);
      case 1 => PriorityTableB(q, 1024);
      case 7 => RoundRobinTable(q, 1024);
      case _ => FcfsTable(q, 1024);
    }
  }

  lemma SeenIsTable(got: seq<Msg>, seen: seq<Event>, sids: seq<nat>)
    requires AsSeen(seen, got) && Sids(got) == sids
    ensures AllRecv(seen) && IsTablePrefix(sids, seen)
  {
  }

  /**
   * Every conformance case passes, in every interleaving: the server that exits has seen the
   * streams in the order of the case's table and returns 0.
   */
  lemma ConformanceCasesPass(c: nat, rnd: Draws, streams: nat, schedule: seq<Choice>)
    requires streams >= 10 && c < CASES && Cases(c).cork
    ensures PlanOf(c, rnd, streams).Good() && Cases(c).check.Order?
    ensures var w := After(PlanOf(c, rnd, streams), Init(PlanOf(c, rnd, streams)), schedule);
            w.exited ==> Sids(w.got) == Cases(c).check.sids && w.cb.cb1 == 0
  {
    hide OutQ.Valid, Plan.Good, Before, Released, Sids, BodyOps, SetupOps, After, Cases, SweepOps, Fold;
    PlansAreGood(c, rnd, streams);
    CorkedShape(c, rnd);
    TableOf(c, rnd, streams);
    var p := PlanOf(c, rnd, streams);
    GridRun(p, 3, 3, 1024, schedule);
    ExitMeansComplete(p, schedule);
    var w := After(p, Init(p), schedule);
    if w.exited {
      SeenIsTable(w.got, w.seen, Cases(c).check.sids);
      OrderVerdict(Cases(c).check.sids, w.seen);
    }
  }

  // ---------------------------------------------------------------- all cases

  function Lens(msgs: seq<Msg>): nat {
    if msgs == [] then 0 else Lens(msgs[..|msgs| - 1]) + msgs[|msgs| - 1].len
  }

  /** The same by streams 0 to `n - 1`. */
  function LensOn(msgs: seq<Msg>, n: nat): nat {
    if n == 0 then 0 else LensOn(msgs, n - 1) + Lens(On(msgs, n - 1))
  }

  lemma {:induction false} LensOnGrows(msgs: seq<Msg>, m: Msg, n: nat)
    ensures LensOn(msgs + [m], n) == LensOn(msgs, n) + if m.sid < n then m.len else 0
  {
    if n > 0 {
      LensOnGrows(msgs, m, n - 1);
      OnSplit(msgs, [m], n - 1);
      OnOne(m, n - 1);
      var on := On(msgs, n - 1);
      assert (on + [m])[..|on|] == on;
      assert on + [] == on;
    }
  }

  lemma {:induction false} LensOnNothing(n: nat)
    ensures LensOn([], n) == 0
  {
    if n > 0 {
      LensOnNothing(n - 1);
    }
  }

  lemma {:induction false} LensByStream(msgs: seq<Msg>, n: nat)
    requires forall i | 0 <= i < |msgs| :: msgs[i].sid < n
    ensures Lens(msgs) == LensOn(msgs, n)
  {
    if msgs == [] {
      LensOnNothing(n);
    } else {
      var a, m := msgs[..|msgs| - 1], msgs[|msgs| - 1];
      LensByStream(a, n);
      LensOnGrows(a, m, n);
      assert msgs == a + [m];
    }
  }

  lemma {:induction false} SameStreamsSameLens(a: seq<Msg>, b: seq<Msg>, n: nat)
    requires forall s | 0 <= s < n :: On(a, s) == On(b, s)
    ensures LensOn(a, n) == LensOn(b, n)
  {
    if n > 0 {
      SameStreamsSameLens(a, b, n - 1);
    }
  }

  lemma {:induction false} LensAreBytes(msgs: seq<Msg>, subs: seq<Submission>)
    requires AsSubmitted(msgs, subs)
    ensures Lens(msgs) == TotalBytes(subs)
  {
    if msgs != [] {
      LensAreBytes(msgs[..|msgs| - 1], subs[..|subs| - 1]);
    }
  }

  lemma {:induction false} LensAreSums(msgs: seq<Msg>, seen: seq<Event>)
    requires AsSeen(seen, msgs)
    ensures AllRecv(seen) && Sum(seen) == Lens(msgs)
  {
    if msgs != [] {
      LensAreSums(msgs[..|msgs| - 1], seen[..|seen| - 1]);
    }
  }

  /** All bytes sent are bytes consumed, however the streams were interleaved. */
  lemma CompleteTotals(p: Plan, w: World)
    requires p.Good() && Complete(p, w)
    ensures AllRecv(w.seen)
    ensures |w.seen| == |Sent(p.body)|
    ensures Sum(w.seen) == TotalBytes(Sent(p.body))
  {
    hide Plan.Good, Fold, Sent;
    SameStreamsSameLens(w.got, w.sent, p.streams);
    LensByStream(w.got, p.streams);
    LensByStream(w.sent, p.streams);
    LensAreBytes(w.sent, Sent(p.body));
    LensAreSums(w.got, w.seen);
  }

  lemma SeenLens(p: Plan, w: World, len: nat)
    requires Counted(p, w) && forall i | 0 <= i < |w.got| :: w.got[i].len == len
    ensures forall i | 0 <= i < |w.seen| :: w.seen[i].Recv? && w.seen[i].len == len
  {
  }

  /** Everything consumed has a length that was sent. */
  lemma CompleteLens(p: Plan, w: World, len: nat)
    requires p.Good() && Complete(p, w)
    requires forall i | 0 <= i < |Sent(p.body)| :: Sent(p.body)[i].len == len
    ensures forall i | 0 <= i < |w.seen| :: w.seen[i].Recv? && w.seen[i].len == len
  {
    hide Plan.Good, Fold, Sent, Counted;
    forall i | 0 <= i < |w.got|
      ensures w.got[i].len == len
    {
      OnMember(w.got, w.got[i].sid, w.got[i]);
      OnMember(w.sent, w.got[i].sid, w.got[i]);
    }
    assert Counted(p, w);
    SeenLens(p, w, len);
  }

  /** The clock of the receiving host is past the epoch. */
  ghost predicate ClockRuns(schedule: seq<Choice>) {
    forall i | 0 <= i < |schedule| && schedule[i].Serve? :: schedule[i].now != 0
  }

  lemma SeenByOne(p: Plan, w: World, c: Choice)
    requires c.Serve? ==> c.now != 0
    requires forall e | e in w.seen :: e.Recv? && e.now != 0
    ensures forall e | e in Act(p, w, c).seen :: e.Recv? && e.now != 0
  {
    hide OutQ.Valid, Plan.Script, Enqueue, Pop, Next, Step;
  }

  lemma {:induction false} SeenWithClock(p: Plan, schedule: seq<Choice>)
    requires ClockRuns(schedule)
    ensures forall e | e in After(p, Init(p), schedule).seen :: e.Recv? && e.now != 0
  {
    if schedule != [] {
      var n := |schedule| - 1;
      SeenWithClock(p, schedule[..n]);
      SeenByOne(p, After(p, Init(p), schedule[..n]), schedule[n]);
      hide Act;
    }
  }

  /**
   * What the server holds and has reported once everything sent has been consumed: the number of
   * messages or of bytes, the moment of the first delivery, and the one report of a performance case.
   */
  ghost predicate Reported(check: Check, cb: Cb, sent: seq<Submission>, seen: seq<Event>) {
    cb.cb1 == 0
    && match check
       case Count(target) =>
         cb.cb0 == |sent| && cb.reports == [target] && seen != [] && seen[0].Recv? && cb.cb3 == seen[0].now
       case Bytes(target) =>
         cb.cb0 == TotalBytes(sent) && cb.reports == [target] && seen != [] && seen[0].Recv? && cb.cb3 == seen[0].now
       case Tally => cb.cb0 == TotalBytes(sent) && cb.reports == []
       case _ => true
  }

  lemma OrderIsCorked(c: nat)
    requires c < CASES
    ensures Cases(c).check.Order? <==> Cases(c).cork
  {
  }

  lemma CheckKinds(c: nat)
    requires c < CASES
    ensures var k := Cases(c).check; k.Order? || k.Count? || k.Bytes? || k.Tally?
    ensures var k := Cases(c).check;
            && (k.Count? ==> k.target > 1)
            && (k.Bytes? ==> Cases(c).traffic.Steady? && Cases(c).traffic.length > 0 && Cases(c).traffic.repeats >= 1)
  {
  }

  lemma CompleteReports(c: nat, rnd: Draws, streams: nat, w: World)
    requires streams >= 10 && c < CASES && !Cases(c).check.Order?
    requires PlanOf(c, rnd, streams).Good() && Complete(PlanOf(c, rnd, streams), w)
    requires forall e | e in w.seen :: e.Recv? && e.now != 0
    ensures Reported(Cases(c).check, w.cb, Sent(BodyOps(c, rnd)), w.seen)
  {
    hide Plan.Good, BodyOps, SetupOps, Cases, Fold, Sent;
    var p := PlanOf(c, rnd, streams);
    CompleteTotals(p, w);
    TargetsAreMet(c, rnd);
    CheckKinds(c);
    match Cases(c).check {
      case Count(target) =>
        CountReportsOnce(target, 0, w.seen);
      case Bytes(target) =>
        SentInBody(c, rnd);
        ChecksFitTraffic(c);
        SteadyTotals(Cases(c).traffic, rnd);
        CompleteLens(p, w, Cases(c).traffic.length);
        BytesReportOnTheLast(target, 0, w.seen);
        BytesReportOnce(target, 0, w.seen);
      case Tally =>
        TallyAddsUp(0, w.seen);
    }
  }

  /**
   * Every case of the table, every random sequence, every interleaving: the server that exits has
   * received everything that was sent, returns 0, has counted its messages or added up its bytes, and
   * a performance case has made its one report.
   */
  lemma EveryCasePasses(c: nat, rnd: Draws, streams: nat, schedule: seq<Choice>)
    requires streams >= 10 && c < CASES && ClockRuns(schedule)
    ensures PlanOf(c, rnd, streams).Good()
    ensures var p := PlanOf(c, rnd, streams);
            var w := After(p, Init(p), schedule);
            w.exited ==> Complete(p, w) && Reported(Cases(c).check, w.cb, Sent(BodyOps(c, rnd)), w.seen)
  {
    hide Plan.Good, BodyOps, SetupOps, After, Cases, Fold;
    PlansAreGood(c, rnd, streams);
    var p, w := PlanOf(c, rnd, streams), After(PlanOf(c, rnd, streams), Init(PlanOf(c, rnd, streams)), schedule);
    ExitMeansComplete(p, schedule);
    if Cases(c).check.Order? {
      OrderIsCorked(c);
      ConformanceCasesPass(c, rnd, streams, schedule);
    } else if w.exited {
      SeenWithClock(p, schedule);
      CompleteReports(c, rnd, streams, w);
    }
  }

  /**
   * The byte-counting cases under fragmentation: however the bytes a case sends are cut into two
   * pieces or more, the report comes on the last piece and on no earlier one.
   */
  lemma PiecesReportOnTheLast(c: nat, rnd: Draws, d: seq<Event>)
    requires c < CASES && Cases(c).check.Bytes?
    requires Positive(d) && Clocked(d) && |d| >= 2 && Sum(d) == TotalBytes(Sent(BodyOps(c, rnd)))
    ensures var check := Cases(c).check;
            && Fold(check, Start(0), d).reports == [check.target]
            && Fold(check, Start(0), d[..|d| - 1]).reports == []
            && Fold(check, Start(0), d).cb1 == 0
  {
    TargetsAreMet(c, rnd);
    hide Cases, BodyOps, Fold, Sum, Sent;
    BytesReportOnTheLast(Cases(c).check.target, 0, d);
    BytesReportOnce(Cases(c).check.target, 0, d);
  }

  /** The same for the bytes that a run has brought to the server, cut anew. */
  lemma RunInPiecesReportsOnce(c: nat, rnd: Draws, streams: nat, schedule: seq<Choice>, d: seq<Event>)
    requires streams >= 10 && c < CASES && Cases(c).check.Bytes?
    requires Positive(d) && Clocked(d) && |d| >= 2
    ensures PlanOf(c, rnd, streams).Good()
    ensures var p := PlanOf(c, rnd, streams);
            var w := After(p, Init(p), schedule);
            w.exited && AllRecv(w.seen) && Sum(d) == Sum(w.seen) ==>
              && Fold(p.check, Start(0), d).reports == [p.check.target]
              && Fold(p.check, Start(0), d[..|d| - 1]).reports == []
  {
    hide Plan.Good, BodyOps, SetupOps, After, Cases, Fold, Sum;
    PlansAreGood(c, rnd, streams);
    var p := PlanOf(c, rnd, streams);
    var w := After(p, Init(p), schedule);
    ExitMeansComplete(p, schedule);
    if w.exited && AllRecv(w.seen) && Sum(d) == Sum(w.seen) {
      CompleteTotals(p, w);
      PiecesReportOnTheLast(c, rnd, d);
    }
  }
}
