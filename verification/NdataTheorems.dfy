/** Whole runs of the scheduler program, under every schedule. */
module NdataTheorems {
  import opened Sequences
  import opened Scheduler
  import opened SchedOrder
  import opened ClosedForms
  import opened NdataCases
  import opened NdataScripts
  import opened Server
  import opened Verdicts
  import opened NdataWorld
  import opened NdataInvariant
  import opened NdataProgress

  /**
   * Nothing is lost, duplicated or reordered within a stream: when the server has exited, it has
   * consumed on every stream exactly what the client sent there, and its counters are the check
   * function over that.
   */
  lemma ExitMeansComplete(p: Plan, schedule: seq<Choice>)
    requires p.Good()
    ensures var w := After(p, Init(p), schedule);
            w.exited ==> Complete(p, w)
  {
    EveryRunKeepsInvariant(p, schedule);
    hide After, Plan.Good, Complete, OutQ.Valid;
  }

  /** When no one can move any more, the server has exited and nothing is left anywhere. */
  lemma RunsEndWell(p: Plan, schedule: seq<Choice>)
    requires p.Good()
    ensures var w := After(p, Init(p), schedule);
            Stuck(p, w) ==> w.exited && w.pc == |p.Script()| && Quiet(w) && w.rules == 0
  {
    EveryRunKeepsInvariant(p, schedule);
    var w := After(p, Init(p), schedule);
    hide After, Plan.Good, Complete, OutQ.Valid, Inv, Stuck;
    if Stuck(p, w) {
      StuckIsFinal(p, w);
    }
  }

  /** How many steps of a schedule found their component able to move. */
  ghost function Moves(p: Plan, schedule: seq<Choice>): nat {
    if schedule == [] then 0
    else
      var n := |schedule| - 1;
      Moves(p, schedule[..n]) + if Enabled(p, After(p, Init(p), schedule[..n]), schedule[n]) then 1 else 0
  }

  lemma OneMoveCounts(p: Plan, w: World, c: Choice)
    ensures if Enabled(p, w, c) then Measure(p, Act(p, w, c)) < Measure(p, w) else Act(p, w, c) == w
  {
    hide Enabled, Measure;
    if Enabled(p, w, c) {
      EnabledStepsCount(p, w, c);
    }
  }

  lemma MeasureIsNatural(p: Plan, w: World)
    requires p.Good() && Inv(p, w)
    ensures Measure(p, w) >= 0
  {
    hide OutQ.Valid, Plan.Good, Complete, Conserved, Counted, Plan.Script;
    ScriptLength(p);
  }

  /** No run goes on for ever: only so many steps of any schedule can have an effect. */
  lemma {:induction false} MovesAreBounded(p: Plan, schedule: seq<Choice>)
    requires p.Good()
    ensures Moves(p, schedule) + Measure(p, After(p, Init(p), schedule)) <= Measure(p, Init(p))
    ensures Moves(p, schedule) <= Measure(p, Init(p))
  {
    hide Act, Enabled, Measure, Plan.Good, Inv;
    EveryRunKeepsInvariant(p, schedule);
    MeasureIsNatural(p, After(p, Init(p), schedule));
    if schedule != [] {
      var n := |schedule| - 1;
      MovesAreBounded(p, schedule[..n]);
      OneMoveCounts(p, After(p, Init(p), schedule[..n]), schedule[n]);
    }
  }

  /** From wherever a schedule has led, the run can be carried on until the server exits. */
  lemma {:induction false} EveryRunCanFinish(p: Plan, schedule: seq<Choice>) returns (more: seq<Choice>)
    requires p.Good()
    ensures |more| <= Measure(p, After(p, Init(p), schedule))
    ensures After(p, Init(p), schedule + more).exited
    decreases Measure(p, After(p, Init(p), schedule))
  {
    hide Act, Enabled, Measure, Plan.Good, Inv;
    var w := After(p, Init(p), schedule);
    EveryRunKeepsInvariant(p, schedule);
    MeasureIsNatural(p, w);
    if Stuck(p, w) {
      RunsEndWell(p, schedule);
      more := [];
      assert schedule + more == schedule;
    } else {
      var c := if Enabled(p, w, Client) then Client else if Enabled(p, w, Transmit) then Transmit
               else if Enabled(p, w, Reopen) then Reopen else Serve(0);
      OneMoveCounts(p, w, c);
      assert (schedule + [c])[..|schedule|] == schedule;
      var rest := EveryRunCanFinish(p, schedule + [c]);
      more := [c] + rest;
      assert schedule + [c] + rest == schedule + more;
    }
  }

  // ---------------------------------------------------------------- order under the cork

  /** Sends between the cork and the release. */
  ghost predicate Corked(p: Plan, sends: seq<Op>) {
    && p.Good()
    && OnlySends(sends, p.streams)
    && p.body == [DropInput, ResetStreams] + sends + [FlushRules, Settle]
  }

  /** The queues when the body starts. */
  ghost function Before(p: Plan): (q: OutQ)
    requires p.Good()
    ensures Idle(q) && |q.queues| == p.streams > 0
    ensures q.policy == Configured(p.setup, p.streams).policy && q.value == Configured(p.setup, p.streams).value
  {
    CommandAlone(Configured(p.setup, p.streams), SET_STRRESET);
    Pop(Opened(p))
  }

  ghost predicate Fits(b: OutQ, subs: seq<Submission>) {
    Idle(b) && forall i | 0 <= i < |subs| :: subs[i].sid < |b.queues|
  }

  /**
   * Call `k` of the body: nothing moves under the cork, then what has been consumed, what is in
   * flight and what is still to be drained always make up the same sequence.
   */
  ghost predicate Stage(w: World, k: int, b: OutQ, subs: seq<Submission>)
    requires Fits(b, subs)
  {
    var n, full := |subs|, Drain(EnqueueAll(b, subs));
    && (0 <= k < 2 ==> w.q == b && w.net == [] && w.got == [] && !w.closed)
    && (2 <= k <= n + 2 ==>
          w.q == EnqueueAll(b, subs[..k - 2]) && w.net == [] && w.got == [] && w.closed && w.rules > 0)
    && (n + 3 <= k <= n + 4 ==> w.q.Valid() && w.got + w.net + Drain(w.q) == full)
    && (n + 5 <= k ==> w.got == full)
  }

  lemma DrainUnfolds(q: OutQ)
    requires q.Valid() && q.ring != []
    ensures Drain(q) == [Next(q)] + Drain(Pop(q))
  {
  }

  lemma HeadMoves(got: seq<Msg>, net: seq<Msg>, m: Msg, rest: seq<Msg>)
    ensures got + (net + [m]) + rest == got + net + ([m] + rest)
  {
  }

  // Calls.

  lemma StageCork(w: World, v: World, k: int, b: OutQ, subs: seq<Submission>)
    requires Fits(b, subs) && Stage(w, k, b, subs) && 0 <= k < 2
    requires k == 1 ==> w.rules > 0
    requires v == if k == 0 then w.(pc := w.pc + 1, rules := w.rules + 1) else w.(pc := w.pc + 1, closed := true)
    ensures Stage(v, k + 1, b, subs)
  {
    assert subs[..0] == [];
    hide OutQ.Valid, Drain, Enqueue;
  }

  lemma StageSend(w: World, v: World, k: int, b: OutQ, subs: seq<Submission>)
    requires Fits(b, subs) && Stage(w, k, b, subs) && 2 <= k < |subs| + 2
    requires w.q.Valid() && |w.q.queues| == |b.queues|
    requires v.q == Enqueue(w.q, subs[k - 2].sid, subs[k - 2].len)
    requires v.net == w.net && v.got == w.got && v.closed == w.closed && v.rules == w.rules
    ensures Stage(v, k + 1, b, subs)
  {
    assert subs[..k - 1][..k - 2] == subs[..k - 2];
    hide OutQ.Valid, Drain, Enqueue;
  }

  lemma StageFlush(w: World, v: World, b: OutQ, subs: seq<Submission>)
    requires Fits(b, subs) && Stage(w, |subs| + 2, b, subs)
    requires w.q.Valid()
    requires v == w.(pc := w.pc + 1, rules := 0)
    ensures Stage(v, |subs| + 3, b, subs)
  {
    assert subs[..|subs|] == subs;
    assert [] + [] + Drain(w.q) == Drain(w.q);
    hide OutQ.Valid, Drain, Enqueue, EnqueueAll;
  }

  lemma StageSettle(w: World, v: World, b: OutQ, subs: seq<Submission>)
    requires Fits(b, subs) && Stage(w, |subs| + 3, b, subs)
    requires v == w.(pc := w.pc + 1)
    ensures Stage(v, |subs| + 4, b, subs)
  {
    hide OutQ.Valid, Drain, Enqueue, EnqueueAll;
  }

  lemma StageClose(w: World, v: World, b: OutQ, subs: seq<Submission>)
    requires Fits(b, subs) && Stage(w, |subs| + 4, b, subs)
    requires Quiet(w) && v.got == w.got
    ensures Stage(v, |subs| + 5, b, subs)
  {
    assert w.got + [] + [] == w.got;
    hide OutQ.Valid, Enqueue, EnqueueAll;
  }

  // The association and the server.

  lemma StageTransmit(w: World, v: World, k: int, b: OutQ, subs: seq<Submission>)
    requires Fits(b, subs) && Stage(w, k, b, subs) && 0 <= k <= |subs| + 4
    requires w.q.Valid() && w.q.ring != [] && !w.closed
    requires v == w.(q := Pop(w.q), net := w.net + [Next(w.q)])
    ensures Stage(v, k, b, subs)
  {
    assert b.ring == [];
    hide OutQ.Valid, Drain, Enqueue, EnqueueAll, Pop, Next, Fits;
    assert k > |subs| + 2;
    DrainUnfolds(w.q);
    HeadMoves(w.got, w.net, Next(w.q), Drain(Pop(w.q)));
  }

  lemma StageServe(w: World, v: World, k: int, b: OutQ, subs: seq<Submission>)
    requires Fits(b, subs) && Stage(w, k, b, subs) && 0 <= k <= |subs| + 4
    requires w.net != [] && v.got == w.got + [w.net[0]] && v.net == w.net[1..]
    requires v.q == w.q && v.closed == w.closed && v.rules == w.rules
    ensures Stage(v, k, b, subs)
  {
    hide OutQ.Valid, Drain, Enqueue, EnqueueAll;
    assert w.got + [w.net[0]] + w.net[1..] == w.got + w.net;
  }

  lemma StageReopen(w: World, v: World, k: int, b: OutQ, subs: seq<Submission>)
    requires Fits(b, subs) && Stage(w, k, b, subs)
    requires w.rules == 0 && w.closed && v == w.(closed := false)
    ensures Stage(v, k, b, subs)
  {
    hide OutQ.Valid, Drain, Enqueue, EnqueueAll;
  }

  // ---------------------------------------------------------------- along a run

  lemma {:induction false} SentOfSends(sends: seq<Op>, streams: nat)
    requires OnlySends(sends, streams)
    ensures |Sent(sends)| == |sends|
    ensures forall i | 0 <= i < |sends| :: Sent(sends)[i] == Submission(sends[i].sid, sends[i].len)
  {
    if sends != [] {
      SentOfSends(sends[..|sends| - 1], streams);
    }
  }

  lemma CorkedFits(p: Plan, sends: seq<Op>)
    requires Corked(p, sends)
    ensures p.Good() && Fits(Before(p), Sent(sends)) && |Sent(sends)| == |sends| && |p.body| == |sends| + 4
  {
    SentOfSends(sends, p.streams);
    hide OutQ.Valid, Plan.Good, Before;
  }

  ghost predicate Ordered(p: Plan, sends: seq<Op>, w: World)
    requires Corked(p, sends)
  {
    CorkedFits(p, sends);
    Stage(w, BodyAt(p, w.pc), Before(p), Sent(sends))
  }

  /** What the script calls at place `k` of the body. */
  lemma CorkedAt(p: Plan, sends: seq<Op>, k: nat)
    requires Corked(p, sends) && k < |p.body|
    ensures p.body[k] == (if k == 0 then DropInput else if k == 1 then ResetStreams
                          else if k < |sends| + 2 then sends[k - 2]
                          else if k == |sends| + 2 then FlushRules else Settle)
    ensures 2 <= k < |sends| + 2 ==>
              && p.body[k].Send?
              && |Sent(sends)| == |sends|
              && Sent(sends)[k - 2] == Submission(p.body[k].sid, p.body[k].len)
              && p.body[k].sid < p.streams
    ensures k == 1 ==> Rules(p.body[..k]) == 1
  {
    SentOfSends(sends, p.streams);
    if k == 1 {
      assert p.body[..0] == [];
      RulesAfterOne([], DropInput);
      assert p.body[..1] == [] + [DropInput];
    }
  }

  /** What a call of the body does to the world. */
  lemma BodyCall(p: Plan, w: World)
    requires p.Good() && BodyPhase(p, w) && BodyAt(p, w.pc) < |p.body|
    ensures var op, v := p.body[BodyAt(p, w.pc)], Act(p, w, Client);
            && InBody(op, p.streams)
            && w.q.Valid() && |w.q.queues| == p.streams > 0
            && w.rules == Rules(p.body[..BodyAt(p, w.pc)])
            && if op == Settle && !(w.q.ring == [] && w.net == [] && !w.closed) then v == w
               else v == ClientMove(op, w)
  {
    var k := BodyAt(p, w.pc);
    ScriptLength(p);
    ScriptAt(p, w.pc);
    assert InBody(p.body[k], p.streams);
    hide OutQ.Valid, Plan.Script, Plan.Good, ClientMove, Conserved, Counted, Sent, Rules;
  }

  /** The same for the call after the body. */
  lemma ClosingCall(p: Plan, w: World)
    requires p.Good() && BodyPhase(p, w) && BodyAt(p, w.pc) == |p.body|
    ensures Quiet(w) && w.q.Valid() && |w.q.queues| == p.streams > 0
    ensures Act(p, w, Client) == ClientMove(Command(CLOSE_ASOC), w)
  {
    ScriptLength(p);
    ScriptAt(p, w.pc);
    hide OutQ.Valid, Plan.Script, Plan.Good, ClientMove, Conserved, Counted, Sent, Rules;
  }

  /** One call of a corked body, `op` being what stands at place `k`. */
  lemma StageCall(w: World, op: Op, k: int, b: OutQ, subs: seq<Submission>)
    requires Fits(b, subs) && Stage(w, k, b, subs) && 0 <= k < |subs| + 4
    requires w.q.Valid() && |w.q.queues| == |b.queues| > 0
    requires if k == 0 then op == DropInput else if k == 1 then op == ResetStreams && w.rules > 0
             else if k < |subs| + 2 then op.Send? && subs[k - 2] == Submission(op.sid, op.len) && op.sid < |b.queues|
             else if k == |subs| + 2 then op == FlushRules else op == Settle
    ensures ClientMove(op, w).pc == w.pc + 1
    ensures Stage(ClientMove(op, w), k + 1, b, subs)
  {
    hide Stage, Enqueue, OutQ.Valid, Fits;
    var v := ClientMove(op, w);
    if k < 2 {
      StageCork(w, v, k, b, subs);
    } else if k < |subs| + 2 {
      StageSend(w, v, k, b, subs);
    } else if k == |subs| + 2 {
      StageFlush(w, v, b, subs);
    } else {
      StageSettle(w, v, b, subs);
    }
  }

  lemma OrderedCall(p: Plan, sends: seq<Op>, w: World)
    requires Corked(p, sends) && BodyPhase(p, w) && Ordered(p, sends, w)
    requires 0 <= BodyAt(p, w.pc) < |p.body|
    ensures Ordered(p, sends, Act(p, w, Client))
  {
    hide Corked, BodyPhase, Act, Stage, Sent, Rules, Enqueue, OutQ.Valid, Fits, Before, Plan.Good, ClientMove;
    var k := BodyAt(p, w.pc);
    CorkedFits(p, sends);
    CorkedAt(p, sends, k);
    BodyCall(p, w);
    if Act(p, w, Client) != w {
      StageCall(w, p.body[k], k, Before(p), Sent(sends));
    }
  }

  lemma OrderedClose(p: Plan, sends: seq<Op>, w: World)
    requires Corked(p, sends) && BodyPhase(p, w) && Ordered(p, sends, w)
    requires BodyAt(p, w.pc) == |p.body|
    ensures Ordered(p, sends, Act(p, w, Client))
  {
    hide Corked, BodyPhase, Act, Stage, Sent, Rules, Enqueue, OutQ.Valid, Fits, Before, Quiet, Plan.Good;
    CorkedFits(p, sends);
    ClosingCall(p, w);
    StageClose(w, Act(p, w, Client), Before(p), Sent(sends));
  }

  lemma OrderedNet(p: Plan, sends: seq<Op>, w: World, c: Choice)
    requires Corked(p, sends) && BodyPhase(p, w) && Ordered(p, sends, w) && c != Client
    ensures Ordered(p, sends, Act(p, w, c))
  {
    var k, b, subs, v := BodyAt(p, w.pc), Before(p), Sent(sends), Act(p, w, c);
    CorkedFits(p, sends);
    assert w.net != [] ==> Untagged(w.net[0].len);
    assert 0 <= k <= |p.body|;
    hide Corked, BodyPhase, Stage, Sent, Rules, Enqueue, OutQ.Valid, Fits, Before, Pop, Next, Step;
    if Enabled(p, w, c) {
      match c {
        case Transmit => StageTransmit(w, v, k, b, subs);
        case Serve(_) => StageServe(w, v, k, b, subs);
        case Reopen => StageReopen(w, v, k, b, subs);
      }
    }
  }

  lemma OrderedOpening(p: Plan, sends: seq<Op>, w: World, c: Choice)
    requires Corked(p, sends) && OpeningPhase(p, w)
    ensures Ordered(p, sends, Act(p, w, c))
  {
    hide OutQ.Valid, Pop, Next, Opened, Plan.Good, Plan.Script, Idle, Drain, Corked, Sent, EnqueueAll, Enqueue, Fits;
    CorkedFits(p, sends);
    ScriptLength(p);
    ScriptAt(p, w.pc);
  }

  lemma InBodyRange(p: Plan, w: World)
    requires p.Good() && BodyPhase(p, w)
    ensures 0 <= BodyAt(p, w.pc) <= |p.body|
  {
  }

  lemma OneCallAtATime(p: Plan, w: World, c: Choice)
    ensures w.pc <= Act(p, w, c).pc <= w.pc + 1
  {
    hide OutQ.Valid, Plan.Script, Pop, Next, Enqueue;
  }

  lemma OrderedSetup(p: Plan, sends: seq<Op>, w: World, c: Choice)
    requires Corked(p, sends) && SetupPhase(p, w)
    ensures Ordered(p, sends, Act(p, w, c))
  {
    CorkedFits(p, sends);
    OneCallAtATime(p, w, c);
    assert w.pc <= |p.setup|;
    hide OutQ.Valid, Corked, Act, SetupPhase, Plan.Good, Before, Sent, Drain, EnqueueAll, Fits;
  }

  lemma GotStays(p: Plan, w: World, c: Choice)
    requires p.Good() && (ClosingPhase(p, w) || FinalPhase(p, w))
    ensures Act(p, w, c).got == w.got && Act(p, w, c).pc >= w.pc > |p.setup| + 2 + |p.body|
  {
    ScriptLength(p);
    hide OutQ.Valid, Plan.Good, Complete, Pop, Next, Plan.Script;
    if ClosingPhase(p, w) {
      var before, m, after :| ClosingWith(p, w, before, m, after);
      assert w.net == [] || w.net[0].len == CLOSE_ASOC;
    }
  }

  lemma OrderedLate(p: Plan, sends: seq<Op>, w: World, c: Choice)
    requires Corked(p, sends) && (ClosingPhase(p, w) || FinalPhase(p, w)) && Ordered(p, sends, w)
    ensures Ordered(p, sends, Act(p, w, c))
  {
    CorkedFits(p, sends);
    GotStays(p, w, c);
    hide OutQ.Valid, Drain, Plan.Good, Corked, Before, Act, ClosingPhase, FinalPhase, EnqueueAll, Sent, Fits;
  }

  lemma OrderedStep(p: Plan, sends: seq<Op>, w: World, c: Choice)
    requires Corked(p, sends) && Inv(p, w) && Ordered(p, sends, w)
    ensures Ordered(p, sends, Act(p, w, c))
  {
    hide SetupPhase, OpeningPhase, BodyPhase, ClosingPhase, FinalPhase, Ordered, Act, Plan.Good;
    if SetupPhase(p, w) {
      OrderedSetup(p, sends, w, c);
    } else if OpeningPhase(p, w) {
      OrderedOpening(p, sends, w, c);
    } else if BodyPhase(p, w) {
      InBodyRange(p, w);
      if c != Client {
        OrderedNet(p, sends, w, c);
      } else if BodyAt(p, w.pc) < |p.body| {
        OrderedCall(p, sends, w);
      } else {
        OrderedClose(p, sends, w);
      }
    } else {
      OrderedLate(p, sends, w, c);
    }
  }

  lemma {:induction false} EveryRunIsOrdered(p: Plan, sends: seq<Op>, schedule: seq<Choice>)
    requires Corked(p, sends)
    ensures Ordered(p, sends, After(p, Init(p), schedule))
  {
    hide Act, Inv, Plan.Good;
    if schedule == [] {
      CorkedFits(p, sends);
    } else {
      var n := |schedule| - 1;
      EveryRunIsOrdered(p, sends, schedule[..n]);
      EveryRunKeepsInvariant(p, schedule[..n]);
      OrderedStep(p, sends, After(p, Init(p), schedule[..n]), schedule[n]);
    }
  }

  ghost function Filling(p: Plan, sends: seq<Op>): (q: OutQ)
    requires Corked(p, sends)
    ensures q.Valid()
  {
    CorkedFits(p, sends);
    EnqueueAll(Before(p), Sent(sends))
  }

  lemma ExitedLate(p: Plan, w: World)
    requires p.Good() && Inv(p, w)
    ensures w.exited ==> BodyAt(p, w.pc) > |p.body|
  {
    ScriptLength(p);
    hide OutQ.Valid, Plan.Good, Plan.Script, Complete, Conserved, Counted;
  }

  /**
   * Under the cork: whatever is sent on whatever streams, and in every interleaving, the server
   * that exits has consumed exactly what the scheduler drains from the filled queues, in that order.
   */
  lemma CorkedRunDrains(p: Plan, sends: seq<Op>, schedule: seq<Choice>)
    requires Corked(p, sends)
    ensures var w := After(p, Init(p), schedule);
            w.exited ==> w.got == Drain(Filling(p, sends))
  {
    EveryRunIsOrdered(p, sends, schedule);
    EveryRunKeepsInvariant(p, schedule);
    var w := After(p, Init(p), schedule);
    CorkedFits(p, sends);
    ExitedLate(p, w);
    hide OutQ.Valid, After, Plan.Good, Drain, Before, Corked, Inv, EnqueueAll, Sent, Fits;
  }

  /**
   * For any number of streams, any values and any sends on them, in every interleaving: under
   * priority or round robin the server receives by ascending class, then by round, then by place in
   * the ring.
   */
  lemma CorkedRunFollowsTurns(p: Plan, sends: seq<Op>, schedule: seq<Choice>)
    requires Corked(p, sends) && Filling(p, sends).policy != Fcfs
    ensures var w := After(p, Init(p), schedule);
            w.exited ==> SortedBy(TurnOrder(Filling(p, sends)), w.got)
  {
    hide After, Corked, OutQ.Valid, Drain, Filling, SortedBy;
    CorkedRunDrains(p, sends, schedule);
    DrainingStarts(Filling(p, sends));
    DrainFollowsTurns(Filling(p, sends), Filling(p, sends));
  }

  lemma NothingStamped(q: OutQ)
    requires Idle(q)
    ensures q.Stamped()
  {
  }

  /** And under first come, first served in the order of acceptance. */
  lemma CorkedRunFollowsArrival(p: Plan, sends: seq<Op>, schedule: seq<Choice>)
    requires Corked(p, sends) && Filling(p, sends).policy == Fcfs
    ensures var w := After(p, Init(p), schedule);
            w.exited ==> SortedBy(Earlier, w.got)
  {
    CorkedFits(p, sends);
    NothingStamped(Before(p));
    AcceptedStamped(Before(p), Sent(sends));
    hide After, Corked, OutQ.Valid, Drain, SortedBy, OutQ.Stamped, EnqueueAll;
    CorkedRunDrains(p, sends, schedule);
    FcfsTransmitsInOrderOfArrival(Filling(p, sends));
  }

  /** The events a server saw start the table just when its messages do. */
  lemma SeenStartsTable(sids: seq<nat>, seen: seq<Event>, got: seq<Msg>)
    requires AsSeen(seen, got) && |seen| <= |sids|
    ensures AllRecv(seen) && (IsTablePrefix(sids, seen) <==> Sids(got) <= sids)
  {
    hide Sids;
  }

  lemma CorkedIsGood(p: Plan, sends: seq<Op>)
    requires Corked(p, sends)
    ensures p.Good()
  {
  }

  /**
   * The order test is exact: a server that exits passes if and only if the drained order starts
   * the table.
   */
  lemma CorkedVerdict(p: Plan, sends: seq<Op>, schedule: seq<Choice>)
    requires Corked(p, sends) && p.check.Order?
    ensures var w := After(p, Init(p), schedule);
            w.exited ==> (w.cb.cb1 == 0 <==> Sids(Drain(Filling(p, sends))) <= p.check.sids)
  {
    CorkedIsGood(p, sends);
    hide OutQ.Valid, After, Init, Plan.Good, Drain, Corked, Fold, Filling, Sids, IsTablePrefix, AsSubmitted, DataOnly;
    CorkedRunDrains(p, sends, schedule);
    ExitMeansComplete(p, schedule);
    var w := After(p, Init(p), schedule);
    if w.exited {
      SeenStartsTable(p.check.sids, w.seen, w.got);
      OrderVerdict(p.check.sids, w.seen);
    }
  }
}
