/** The receiving side of a run is the server loop: what it has received, run through that loop. */
module NdataServer {
  import opened Scheduler
  import opened NdataCases
  import opened Server
  import opened NdataWorld

  /** The loop over everything received so far has this state and this many acknowledgements. */
  ghost predicate Loop(p: Plan, w: World) {
    Served(p.check, 0, w.heard, |w.heard|, w.answered, if w.exited then Exited(w.cb.cb1) else Waiting, w.cb)
  }

  lemma StepKeepsLoop(p: Plan, w: World, c: Choice)
    requires Loop(p, w)
    ensures Loop(p, Act(p, w, c))
  {
    hide Served, Step, Plan.Script, OutQ.Valid, Enqueue, Pop, Next;
    if c.Serve? && Enabled(p, w, c) {
      ReceivesOneMore(p.check, 0, w.heard, w.answered, w.cb, Recv(w.net[0].sid, w.net[0].len, c.now));
    }
  }

  lemma Starts(p: Plan)
    ensures Loop(p, Init(p))
  {
  }

  /**
   * In every run the server is where its loop is after the messages received, commands included:
   * same counters, same verdict, as many acknowledgements as commands, ended on the close command.
   */
  lemma {:induction false} EveryRunServes(p: Plan, schedule: seq<Choice>)
    ensures Loop(p, After(p, Init(p), schedule))
  {
    hide Loop, Act;
    if schedule == [] {
      Starts(p);
    } else {
      var n := |schedule| - 1;
      EveryRunServes(p, schedule[..n]);
      StepKeepsLoop(p, After(p, Init(p), schedule[..n]), schedule[n]);
    }
  }
}
