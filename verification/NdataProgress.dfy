/**
 * No run gets stuck and none goes on for ever: whatever the schedule, at most `Measure` steps have
 * an effect, and when none can, the client has finished and the server has exited.
 */
module NdataProgress {
  import opened Sequences
  import opened Scheduler
  import opened SchedOrder
  import opened NdataCases
  import opened NdataScripts
  import opened Server
  import opened NdataWorld
  import opened NdataInvariant

  /** Work left: every call, every transmission, every delivery, and one reset to complete. */
  ghost function Measure(p: Plan, w: World): int {
    4 * (|p.Script()| - w.pc) + 2 * Size(w.q.queues) + |w.net| + if w.closed then 1 else 0
  }

  lemma CallsCount(p: Plan, w: World)
    requires Enabled(p, w, Client)
    ensures Measure(p, Act(p, w, Client)) < Measure(p, w)
  {
    match p.Script()[w.pc] {
      case Command(cmd) =>
        SizeOfUpdate(w.q.queues, 0, w.q.queues[0] + [Msg(0, w.q.count[0], w.q.clock, cmd)]);
      case Send(s, len, _) =>
        SizeOfUpdate(w.q.queues, s, w.q.queues[s] + [Msg(s, w.q.count[s], w.q.clock, len)]);
      case _ =>
    }
    hide Plan.Script, OutQ.Valid, Size;
  }

  lemma EnabledStepsCount(p: Plan, w: World, c: Choice)
    requires Enabled(p, w, c)
    ensures Measure(p, Act(p, w, c)) < Measure(p, w)
  {
    hide Plan.Script;
    match c {
      case Client => CallsCount(p, w);
      case Transmit =>
        PopEffect(w.q);
        SizeOfUpdate(w.q.queues, Next(w.q).sid, Pop(w.q).queues[Next(w.q).sid]);
        hide OutQ.Valid, Pop, Next, Size;
      case _ =>
    }
  }

  /** Nobody can move. */
  ghost predicate Stuck(p: Plan, w: World) {
    !Enabled(p, w, Client) && !Enabled(p, w, Transmit) && !Enabled(p, w, Serve(0)) && !Enabled(p, w, Reopen)
  }

  lemma SetupMoves(p: Plan, w: World)
    requires p.Good() && SetupPhase(p, w)
    ensures !Stuck(p, w)
  {
    ScriptAt(p, w.pc);
    hide Plan.Script, OutQ.Valid, Configured, Pop, Next;
    assert Enabled(p, w, Client);
  }

  lemma OpeningMoves(p: Plan, w: World, before: OutQ, m: Msg, after: OutQ)
    requires p.Good() && OpeningWith(p, w, before, m, after)
    ensures !Stuck(p, w)
  {
    ScriptLength(p);
    ScriptAt(p, w.pc);
    hide Plan.Script, Plan.Good, OutQ.Valid, Pop, Next, Idle;
    assert Enabled(p, w, Client) || Enabled(p, w, Transmit) || Enabled(p, w, Serve(0));
  }

  lemma ClosingMoves(p: Plan, w: World, before: OutQ, m: Msg, after: OutQ)
    requires p.Good() && ClosingWith(p, w, before, m, after)
    ensures !Stuck(p, w)
  {
    ScriptLength(p);
    ScriptAt(p, w.pc);
    hide Plan.Script, Plan.Good, OutQ.Valid, Pop, Next, Complete;
    assert Enabled(p, w, Client) || Enabled(p, w, Transmit) || Enabled(p, w, Serve(0));
  }

  lemma BodyMoves(p: Plan, w: World)
    requires p.Good() && BodyPhase(p, w)
    ensures !Stuck(p, w)
  {
    var k := BodyAt(p, w.pc);
    ScriptLength(p);
    ScriptAt(p, w.pc);
    if w.net != [] {
      RoomInTable(p, w);
      OrderIndex(p.check, Start(0), w.seen);
      assert Enabled(p, w, Serve(0));
    } else if k < |p.body| {
      assert InBody(p.body[k], p.streams);
      assert p.body[k] == Settle ==> w.rules == 0;
      hide Plan.Script, Plan.Good, OutQ.Valid, Rules, Sent, Fold, Conserved;
      assert Enabled(p, w, Client) || Enabled(p, w, Transmit) || Enabled(p, w, Reopen);
    } else {
      assert Enabled(p, w, Client);
    }
  }

  lemma StuckIsFinal(p: Plan, w: World)
    requires p.Good() && Inv(p, w) && Stuck(p, w)
    ensures FinalPhase(p, w)
  {
    ScriptLength(p);
    if SetupPhase(p, w) {
      SetupMoves(p, w);
    } else if OpeningPhase(p, w) {
      OpeningMoves(p, w, Opened(p), Next(Opened(p)), Pop(Opened(p)));
    } else if BodyPhase(p, w) {
      BodyMoves(p, w);
    } else if ClosingPhase(p, w) {
      var before, m, after :| ClosingWith(p, w, before, m, after);
      ClosingMoves(p, w, before, m, after);
    }
  }
}
