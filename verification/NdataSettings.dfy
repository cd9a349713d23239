/** Which scheduler and which stream values are in force when a message is sent, in every run. */
module NdataSettings {
  import opened Scheduler
  import opened NdataCases
  import opened NdataScripts
  import opened NdataSends
  import opened NdataWorld
  import opened NdataInvariant
  import opened NdataPrograms
  import Server

  // ---------------------------------------------------------------- what the calls set

  /** The scheduler chosen last; an association starts first come, first served. */
  function PolicyAfter(ops: seq<Op>): Policy {
    if ops == [] then Fcfs
    else
      var op := ops[|ops| - 1];
      if op.SetPolicy? then op.policy else PolicyAfter(ops[..|ops| - 1])
  }

  /** The value given last to stream `s`, or 0. */
  function ValueAfter(ops: seq<Op>, s: nat): int {
    if ops == [] then 0
    else
      var op := ops[|ops| - 1];
      if op.SetValue? && op.stream == s then op.value else ValueAfter(ops[..|ops| - 1], s)
  }

  ghost predicate NoSettings(ops: seq<Op>) {
    forall i | 0 <= i < |ops| :: !ops[i].SetPolicy? && !ops[i].SetValue?
  }

  lemma {:induction false} SettingsUntouched(a: seq<Op>, b: seq<Op>, s: nat)
    requires NoSettings(b)
    ensures PolicyAfter(a + b) == PolicyAfter(a) && ValueAfter(a + b, s) == ValueAfter(a, s)
  {
    if b == [] {
      assert a + b == a;
    } else {
      SettingsUntouched(a, b[..|b| - 1], s);
      assert (a + b)[..|a + b| - 1] == a + b[..|b| - 1];
    }
  }

  /** The streams a row gives a value to, and the value: falling by one, or 9, 9, 8. */
  predicate Fixes(v: Values, s: nat) {
    match v
    case NoValues => false
    case Stress => s < 10
    case _ => 1 <= s <= 3
  }

  function FixedTo(v: Values, s: nat): int {
    if v != Paired then 10 - s else if s <= 2 then 9 else 8
  }

  lemma {:induction false} ValuesGiven(a: seq<Op>, v: Values, lo: nat, hi: nat, s: nat)
    requires lo <= hi <= 10
    ensures PolicyAfter(a + ValueOps(v, lo, hi)) == PolicyAfter(a)
    ensures ValueAfter(a + ValueOps(v, lo, hi), s)
         == if !(lo <= s < hi) then ValueAfter(a, s)
            else if v == Paired then PairedValue(s) else 10 - s
    decreases hi
  {
    var ops := ValueOps(v, lo, hi);
    if lo == hi {
      assert a + ops == a;
    } else {
      ValuesGiven(a, v, lo, hi - 1, s);
      assert (a + ops)[..|a + ops| - 1] == a + ValueOps(v, lo, hi - 1);
    }
  }

  lemma PairedValues()
    ensures PairedValue(1) == PairedValue(2) == 9 && PairedValue(3) == 8
  {
  }

  /** Setting a case up chooses its scheduler and its values, whatever was set before. */
  lemma SetupSets(a: seq<Op>, c: Case, s: nat)
    ensures PolicyAfter(a + SetupOps(c)) == c.policy
    ensures ValueAfter(a + SetupOps(c), s)
         == if Fixes(c.values, s) then FixedTo(c.values, s) else ValueAfter(a, s)
  {
    hide ValueOps;
    var b := a + [SetPolicy(c.policy)];
    assert b[..|a|] == a;
    match c.values {
      case NoValues =>
        assert a + SetupOps(c) == b;
      case Stress =>
        assert a + SetupOps(c) == b + ValueOps(Stress, 0, 10);
        ValuesGiven(b, Stress, 0, 10, s);
      case v =>
        assert a + SetupOps(c) == b + ValueOps(v, 1, 4);
        ValuesGiven(b, v, 1, 4, s);
        PairedValues();
    }
  }

  /** The calls leave the association as case `c` wants it. */
  ghost predicate SetFor(c: Case, ops: seq<Op>) {
    && PolicyAfter(ops) == c.policy
    && forall s | Fixes(c.values, s) :: ValueAfter(ops, s) == FixedTo(c.values, s)
  }

  lemma SetForRound(a: seq<Op>, c: Case, b: seq<Op>)
    requires NoSettings(b)
    ensures SetFor(c, a + SetupOps(c) + b)
  {
    hide SetupOps;
    forall s | Fixes(c.values, s)
      ensures ValueAfter(a + SetupOps(c) + b, s) == FixedTo(c.values, s)
    {
      SettingsUntouched(a + SetupOps(c), b, s);
      SetupSets(a, c, s);
    }
    SettingsUntouched(a + SetupOps(c), b, 0);
    SetupSets(a, c, 0);
  }

  lemma SetupSendsNothing(c: Case)
    ensures forall i | 0 <= i < |SetupOps(c)| :: !SetupOps(c)[i].Send?
  {
    hide SetupOps;
    SetupOnly(c);
  }

  lemma InThisRound(a: seq<Op>, p: seq<Op>, c: Case, f: seq<Op>, i: nat)
    requires OnlySends(f, 10)
    requires |p| <= i < |p + SetupOps(c) + f| && (p + SetupOps(c) + f)[i].Send?
    ensures SetFor(c, a + (p + SetupOps(c) + f)[..i])
    ensures |Handed(p)| <= |Handed((p + SetupOps(c) + f)[..i])| < |Handed(p)| + |f|
  {
    hide SetFor, SetupOps, Handed;
    SetupSendsNothing(c);
    var ops := p + SetupOps(c) + f;
    var j := i - |p + SetupOps(c)|;
    assert j >= 0;
    assert ops[..i] == p + SetupOps(c) + f[..j];
    SetForRound(a + p, c, f[..j]);
    assert a + ops[..i] == (a + p) + SetupOps(c) + f[..j];
    NoneHanded(SetupOps(c));
    AllHanded(f[..j]);
    HandedSplit(p + SetupOps(c), f[..j]);
    HandedSplit(p, SetupOps(c));
  }

  lemma RoundIs(rnd: Draws, at: nat, r: nat)
    ensures SwitchingOps(rnd, at, r + 1)
         == SwitchingOps(rnd, at, r) + SetupOps(Cases(Switched(rnd, at, r)))
            + FuzzSweepOps(rnd, at + 101 * r + 1, 3000, 10)
    ensures OnlySends(FuzzSweepOps(rnd, at + 101 * r + 1, 3000, 10), 10)
  {
    hide SetupOps, FuzzSweepOps, Cases;
    FuzzSweepSends(rnd, at + 101 * r + 1, 3000, 10);
  }

  /**
   * Whatever was set before: each of the hundred sends of round `r` of the switching loop finds the
   * association set up for the case drawn in that round.
   */
  lemma {:induction false} EachRoundIsSetUp(a: seq<Op>, rnd: Draws, at: nat, repeats: nat, i: nat)
    requires i < |SwitchingOps(rnd, at, repeats)| && SwitchingOps(rnd, at, repeats)[i].Send?
    ensures var before := SwitchingOps(rnd, at, repeats)[..i];
            var r := |Handed(before)| / 100;
            r < repeats && SetFor(Cases(Switched(rnd, at, r)), a + before)
  {
    hide SwitchingOps, SetupOps, FuzzSweepOps, Cases, Handed, SetFor, OnlySends;
    if repeats == 0 {
      NothingSwitched(rnd, at);
      assert false;
    }
    var r := repeats - 1;
    var p := SwitchingOps(rnd, at, r);
    RoundIs(rnd, at, r);
    if i < |p| {
      EachRoundIsSetUp(a, rnd, at, r, i);
      assert SwitchingOps(rnd, at, repeats)[..i] == p[..i];
    } else {
      var c := Cases(Switched(rnd, at, r));
      SwitchingLength(rnd, at, r);
      SweepHanded(rnd, at + 101 * r + 1, 3000);
      InThisRound(a, p, c, FuzzSweepOps(rnd, at + 101 * r + 1, 3000, 10), i);
    }
  }

  // ---------------------------------------------------------------- in every run

  /** The association is set as the calls made so far set it. */
  ghost predicate Follows(p: Plan, w: World) {
    && w.pc <= |p.Script()|
    && w.q.policy == PolicyAfter(p.Script()[..w.pc])
    && |w.q.value| == p.streams
    && forall s | 0 <= s < p.streams :: w.q.value[s] == ValueAfter(p.Script()[..w.pc], s)
  }

  lemma MovesKeepSettings(q: OutQ)
    requires q.Valid() && q.ring != []
    ensures Pop(q).policy == q.policy && Pop(q).value == q.value
  {
  }

  lemma EnqueueKeepsSettings(q: OutQ, s: nat, len: nat)
    requires q.Valid() && s < |q.queues|
    ensures Enqueue(q, s, len).policy == q.policy && Enqueue(q, s, len).value == q.value
  {
  }

  lemma QueuesMatch(q: OutQ)
    requires q.Valid()
    ensures |q.value| == |q.queues|
  {
  }

  lemma CallFollows(p: Plan, w: World)
    requires Follows(p, w) && Enabled(p, w, Client)
    ensures Follows(p, ClientMove(p.Script()[w.pc], w))
  {
    hide Plan.Script, OutQ.Valid, Enqueue;
    var op := p.Script()[w.pc];
    assert p.Script()[..w.pc + 1][..w.pc] == p.Script()[..w.pc];
    QueuesMatch(w.q);
    if op.Send? {
      EnqueueKeepsSettings(w.q, op.sid, op.len);
    } else if op.Command? {
      EnqueueKeepsSettings(w.q, 0, op.cmd);
    }
  }

  lemma SameSettings(p: Plan, w: World, v: World)
    requires Follows(p, w)
    requires v.pc == w.pc && v.q.policy == w.q.policy && v.q.value == w.q.value
    ensures Follows(p, v)
  {
  }

  lemma StepFollows(p: Plan, w: World, c: Choice)
    requires Follows(p, w)
    ensures Follows(p, Act(p, w, c))
  {
    hide Plan.Script, OutQ.Valid, Follows, ClientMove, Pop, Next, Server.Step;
    if Enabled(p, w, c) {
      match c {
        case Client => CallFollows(p, w);
        case Transmit =>
          MovesKeepSettings(w.q);
          SameSettings(p, w, Act(p, w, c));
        case _ => SameSettings(p, w, Act(p, w, c));
      }
    }
  }

  /** In every run, of any script, scheduler and stream values are those the calls set last. */
  lemma {:induction false} SettingsFollowTheCalls(p: Plan, schedule: seq<Choice>)
    ensures Follows(p, After(p, Init(p), schedule))
  {
    if schedule != [] {
      hide Follows, Act;
      var n := |schedule| - 1;
      SettingsFollowTheCalls(p, schedule[..n]);
      StepFollows(p, After(p, Init(p), schedule[..n]), schedule[n]);
    }
  }

  /** The association is set for case `c`. */
  ghost predicate InForce(c: Case, q: OutQ) {
    && q.policy == c.policy
    && forall s | 0 <= s < |q.value| && Fixes(c.values, s) :: q.value[s] == FixedTo(c.values, s)
  }

  lemma FromTheCalls(p: Plan, w: World, c: Case)
    requires Follows(p, w) && SetFor(c, p.Script()[..w.pc])
    ensures InForce(c, w.q) && |w.q.value| == p.streams
  {
    hide Plan.Script;
  }

  lemma TrafficSetsNothing(c: nat, rnd: Draws)
    requires c < CASES && !Cases(c).traffic.Switching?
    ensures NoSettings(TrafficOps(Cases(c).traffic, rnd, 0))
  {
    hide SweepOps, SteadyOps, MixedOps, FuzzOps, SwitchingOps;
    match Cases(c).traffic {
      case Conformance => SweepSends(1, 4, 3, 1024, false);
      case Steady(repeats, len, unordered) => SteadySends(repeats, 10, 10, len, unordered);
      case Mixed(repeats) => MixedSends(repeats, 10, 5, 1024);
      case Fuzz(repeats) => FuzzSends(rnd, 0, repeats);
    }
  }

  /** The script is the setup and calls that set nothing. */
  lemma RestSetsNothing(c: nat, rnd: Draws, streams: nat) returns (rest: seq<Op>)
    requires streams >= 10 && c < CASES && !Cases(c).traffic.Switching?
    ensures PlanOf(c, rnd, streams).Script() == SetupOps(Cases(c)) + rest && NoSettings(rest)
  {
    hide Cases, SetupOps, TrafficOps;
    TrafficSetsNothing(c, rnd);
    ScriptIsClient(c, rnd, streams);
    rest := [EnableReset, Command(Server.SET_STRRESET), AwaitAck] + BodyOps(c, rnd) + CLOSING;
    assert OpeningOps(c) + BodyOps(c, rnd) + CLOSING == SetupOps(Cases(c)) + rest;
  }

  lemma FollowsWithin(p: Plan, w: World)
    requires Follows(p, w)
    ensures w.pc <= |p.Script()|
  {
  }

  lemma PartSetsNothing(ops: seq<Op>, k: nat)
    requires NoSettings(ops) && k <= |ops|
    ensures NoSettings(ops[..k])
  {
  }

  /**
   * Every row but the switching ones, in every run: from the end of the setup on the scheduler is
   * the row's and the streams have its values, 10 - s for every stream s of a stress row.
   */
  lemma RowsStaySetUp(c: nat, rnd: Draws, streams: nat, schedule: seq<Choice>)
    requires streams >= 10 && c < CASES && !Cases(c).traffic.Switching?
    ensures var p := PlanOf(c, rnd, streams);
            var w := After(p, Init(p), schedule);
            w.pc >= |SetupOps(Cases(c))| ==> InForce(Cases(c), w.q) && |w.q.value| == streams
  {
    hide Cases, SetupOps, BodyOps, Follows, SetFor, InForce, After, Plan.Script, NoSettings;
    var p := PlanOf(c, rnd, streams);
    var w := After(p, Init(p), schedule);
    var n := |SetupOps(Cases(c))|;
    SettingsFollowTheCalls(p, schedule);
    var rest := RestSetsNothing(c, rnd, streams);
    if w.pc >= n {
      FollowsWithin(p, w);
      PartSetsNothing(rest, w.pc - n);
      SetForRound([], Cases(c), rest[..w.pc - n]);
      assert p.Script()[..w.pc] == [] + SetupOps(Cases(c)) + rest[..w.pc - n];
      FromTheCalls(p, w, Cases(c));
    }
  }

  ghost predicate NoneSent(ops: seq<Op>) {
    forall i | 0 <= i < |ops| :: !ops[i].Send?
  }

  lemma OpeningSendsNothing(c: nat)
    requires c < CASES
    ensures NoneSent(OpeningOps(c))
  {
    hide OpeningOps;
    forall j | 0 <= j < |OpeningOps(c)|
      ensures !OpeningOps(c)[j].Send?
    {
      OpeningCalls(c, OpeningOps(c)[j]);
    }
  }

  /** The calls after the loop. */
  function AfterLoop(c: nat, rnd: Draws): seq<Op>
    requires c < CASES
  {
    [Settle] + UncorkOps(Cases(CaseAfter(c, rnd, 0)).cork)
  }

  lemma SwitchingTraffic(t: Traffic, rnd: Draws)
    requires t.Switching?
    ensures TrafficOps(t, rnd, 0) == SwitchingOps(rnd, 0, t.repeats) + [Settle]
  {
    hide SwitchingOps, SweepOps, SteadyOps, MixedOps, FuzzOps;
  }

  lemma SwitchingBody(c: nat, rnd: Draws)
    requires c < CASES && Cases(c).traffic.Switching?
    ensures BodyOps(c, rnd) == SwitchingOps(rnd, 0, Cases(c).traffic.repeats) + AfterLoop(c, rnd)
    ensures NoneSent(AfterLoop(c, rnd) + CLOSING)
  {
    hide Cases, SwitchingOps, CaseAfter, TrafficOps;
    SwitchingNeverCorked(c);
    SwitchingTraffic(Cases(c).traffic, rnd);
    var last := UncorkOps(Cases(CaseAfter(c, rnd, 0)).cork);
    assert BodyOps(c, rnd) == [] + (SwitchingOps(rnd, 0, Cases(c).traffic.repeats) + [Settle]) + last;
  }

  lemma ScriptAround(a: seq<Op>, loop: seq<Op>, b: seq<Op>, pc: nat)
    requires NoneSent(a) && NoneSent(b) && pc < |a + loop + b| && (a + loop + b)[pc].Send?
    ensures |a| <= pc < |a| + |loop| && loop[pc - |a|].Send?
    ensures (a + loop + b)[..pc] == a + loop[..pc - |a|]
  {
  }

  lemma OpeningLength(c: nat, rnd: Draws, streams: nat)
    requires c < CASES
    ensures |OpeningOps(c)| == |PlanOf(c, rnd, streams).setup| + 2
  {
    hide SetupOps, BodyOps;
  }

  /** A send of a switching script is one of the loop's. */
  lemma SendOfTheLoop(c: nat, rnd: Draws, streams: nat, pc: nat) returns (i: nat)
    requires streams >= 10 && c < CASES && Cases(c).traffic.Switching?
    requires var p := PlanOf(c, rnd, streams); pc < |p.Script()| && p.Script()[pc].Send?
    ensures var p := PlanOf(c, rnd, streams);
            var loop := SwitchingOps(rnd, 0, Cases(c).traffic.repeats);
            && i < |loop| && loop[i].Send? && pc == |p.setup| + 2 + i
            && i < |p.body| && p.body[..i] == loop[..i]
            && p.Script()[..pc] == OpeningOps(c) + loop[..i]
  {
    hide Cases, SetupOps, SwitchingOps, OpeningOps, BodyOps, AfterLoop, NoneSent, Plan.Script;
    var loop := SwitchingOps(rnd, 0, Cases(c).traffic.repeats);
    OpeningSendsNothing(c);
    OpeningLength(c, rnd, streams);
    SwitchingBody(c, rnd);
    ScriptIsClient(c, rnd, streams);
    assert ClientOps(c, rnd, true) == OpeningOps(c) + loop + (AfterLoop(c, rnd) + CLOSING);
    ScriptAround(OpeningOps(c), loop, AfterLoop(c, rnd) + CLOSING, pc);
    i := pc - |OpeningOps(c)|;
  }

  lemma SentSoFar(p: Plan, schedule: seq<Choice>, i: nat)
    requires p.Good() && i < |p.body|
    ensures var w := After(p, Init(p), schedule);
            w.pc == |p.setup| + 2 + i ==> |w.sent| == |Sent(p.body[..i])|
  {
    hide OutQ.Valid, Plan.Good, Plan.Script, After, Complete, Conserved, Counted, Sent, Rules, Configured, Opened;
    EveryRunKeepsInvariant(p, schedule);
    ScriptLength(p);
  }

  lemma LoopIsSetUp(c: nat, rnd: Draws, streams: nat, w: World, n: nat, i: nat)
    requires c < CASES && Follows(PlanOf(c, rnd, streams), w)
    requires i < |SwitchingOps(rnd, 0, n)| && SwitchingOps(rnd, 0, n)[i].Send?
    requires PlanOf(c, rnd, streams).Script()[..w.pc] == OpeningOps(c) + SwitchingOps(rnd, 0, n)[..i]
    requires |w.sent| == |Sent(SwitchingOps(rnd, 0, n)[..i])|
    ensures InForce(Cases(Switched(rnd, 0, |w.sent| / 100)), w.q)
  {
    hide Cases, OpeningOps, Follows, SetFor, InForce, Plan.Script, SwitchingOps, Sent, Handed, PlanOf, Switched;
    EachRoundIsSetUp(OpeningOps(c), rnd, 0, n, i);
    HandedIsSent(SwitchingOps(rnd, 0, n)[..i]);
    FromTheCalls(PlanOf(c, rnd, streams), w, Cases(Switched(rnd, 0, |w.sent| / 100)));
  }

  lemma RoundsAreSetUp(c: nat, rnd: Draws, streams: nat, schedule: seq<Choice>)
    requires streams >= 10 && c < CASES && Cases(c).traffic.Switching?
    ensures var p := PlanOf(c, rnd, streams);
            var w := After(p, Init(p), schedule);
            w.pc < |p.Script()| && p.Script()[w.pc].Send? ==>
              InForce(Cases(Switched(rnd, 0, |w.sent| / 100)), w.q)
  {
    hide Cases, SetupOps, BodyOps, OpeningOps, SwitchingOps, Sent, PlanOf, Plan.Script, Plan.Good;
    hide Follows, InForce, After, Init;
    var p := PlanOf(c, rnd, streams);
    var w := After(p, Init(p), schedule);
    SettingsFollowTheCalls(p, schedule);
    PlansAreGood(c, rnd, streams);
    if w.pc < |p.Script()| && p.Script()[w.pc].Send? {
      var i := SendOfTheLoop(c, rnd, streams, w.pc);
      SentSoFar(p, schedule, i);
      LoopIsSetUp(c, rnd, streams, w, Cases(c).traffic.repeats, i);
    }
  }

  lemma RoundOf(m: nat, r: nat)
    requires 100 * r <= m < 100 * r + 100
    ensures m / 100 == r
  {
  }

  lemma DrawnFirst(rnd: Draws, r: nat)
    ensures Switched(rnd, 0, r) == rnd(101 * r) % CASES
  {
  }

  /**
   * The switching rows, in every run: when the client is about to send message 100 r to 100 r + 99,
   * the association is set for the case drawn in round r, whatever earlier rounds left behind.
   */
  lemma SwitchingRunsAreSetUp(c: nat, rnd: Draws, streams: nat, schedule: seq<Choice>, r: nat)
    requires streams >= 10 && c < CASES && Cases(c).traffic.Switching?
    ensures var p := PlanOf(c, rnd, streams);
            var w := After(p, Init(p), schedule);
            w.pc < |p.Script()| && p.Script()[w.pc].Send? && 100 * r <= |w.sent| < 100 * r + 100 ==>
              InForce(Cases(rnd(101 * r) % CASES), w.q)
  {
    hide Cases, InForce, After, Plan.Script, PlanOf, Init, Switched;
    RoundsAreSetUp(c, rnd, streams, schedule);
    DrawnFirst(rnd, r);
    var p := PlanOf(c, rnd, streams);
    var m := |After(p, Init(p), schedule).sent|;
    if 100 * r <= m < 100 * r + 100 {
      RoundOf(m, r);
    }
  }
}
