/** The receiving side of a run is the server loop: what it has received, run through that loop. */
module StrresetServer {
  import opened Server
  import opened SsnChannel
  import opened StrresetClient
  import opened StrresetWorld
  import opened StrresetTheorems

  /** The loop over everything received so far has this state and this many acknowledgements. */
  ghost predicate Loop(p: Plan, w: World) {
    Served(p.Check(), 1, w.heard, |w.heard|, w.answered, if w.exited then Exited(w.cb.cb1) else Waiting, w.cb)
  }

  /** What is tagged as a command is one. */
  lemma TagsAreCommands(p: Plan, w: World)
    requires WorldInv(p, w) && w.inbox != [] && w.inbox[0].Tag?
    ensures IsCommand(w.inbox[0].cmd)
  {
    InboxHead(w.inbox);
    hide Inv, BytesKept, SentSoFar, Tags;
    assert w.inbox[0].cmd == Tags(w.inbox)[0];
  }

  lemma StepKeepsLoop(p: Plan, w: World, c: Choice)
    requires WorldInv(p, w) && Loop(p, w)
    ensures Loop(p, Act(p, w, c))
  {
    hide Served, Server.Step, Plan.Script, Take, WorldInv, TakenOff;
    if c.Serve? && Enabled(p, w, c) {
      if w.inbox[0].Tag? {
        TagsAreCommands(p, w);
        ReceivesOneMore(p.Check(), 1, w.heard, w.answered, w.cb, Recv(0, w.inbox[0].cmd, c.now));
      } else {
        ReceivesOneMore(p.Check(), 1, w.heard, w.answered, w.cb, Recv(1, c.n, c.now));
      }
    }
  }

  lemma Starts(p: Plan)
    ensures Loop(p, Init())
  {
  }

  /**
   * In every run the server is where its loop is after the pieces and commands received: same
   * counters, same verdict, as many acknowledgements as commands, ended on the close command.
   */
  lemma {:induction false} EveryRunServes(p: Plan, schedule: seq<Choice>)
    requires p.Good()
    ensures Loop(p, After(p, Init(), schedule))
  {
    hide Loop, Act, WorldInv, Plan.Good;
    if schedule == [] {
      Starts(p);
    } else {
      var n := |schedule| - 1;
      EveryRunServes(p, schedule[..n]);
      EveryRunKeepsInvariant(p, schedule[..n]);
      StepKeepsLoop(p, After(p, Init(), schedule[..n]), schedule[n]);
    }
  }
}
