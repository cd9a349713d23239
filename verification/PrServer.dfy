/** The receiving side of a run is the server loop: what it has received, run through that loop. */
module PrServer {
  import opened Server
  import opened PrClient
  import opened PrWorld
  import opened PrInvariant

  /** The loop over everything received so far has this state and this many acknowledgements. */
  ghost predicate Loop(p: Plan, w: World) {
    Served(p.check, 1, w.heard, |w.heard|, w.answered, if w.exited then Exited(w.cb.cb1) else Waiting, w.cb)
  }

  lemma {:induction false} SentByACall(ops: seq<Op>, i: nat)
    requires i < |Sends(ops)|
    ensures exists j :: 0 <= j < |ops| && ops[j] == Send(Sends(ops)[i])
  {
    var n := |ops| - 1;
    if i < |Sends(ops[..n])| {
      SentByACall(ops[..n], i);
      var j :| 0 <= j < n && ops[..n][j] == Send(Sends(ops[..n])[i]);
      assert ops[j] == Send(Sends(ops)[i]);
    } else {
      assert ops[n] == Send(Sends(ops)[i]);
    }
  }

  /** No message of a script is as long as a command. */
  lemma MessagesAreNoCommands(p: Plan, id: nat)
    requires p.Good()
    ensures !IsCommand(p.MsgOf(id).len)
  {
    if id < |Sends(p.body)| {
      SentByACall(p.body, id);
      var j :| 0 <= j < |p.body| && p.body[j] == Send(Sends(p.body)[id]);
      assert p.InBody(j);
    }
  }

  lemma TagsAreCommands(p: Plan, w: World)
    requires Inv(p, w) && w.inbox != [] && w.inbox[0].Tag?
    ensures IsCommand(w.inbox[0].cmd)
  {
    hide Conserved, Explained, Roomed, Filtering, Counted, Tags, Unread;
    InboxHead(w.inbox);
    assert w.inbox[0].cmd == Tags(w.inbox)[0];
  }

  /** Only a receive changes what the loop keeps. */
  lemma OthersKeep(p: Plan, w: World, c: Choice)
    requires !p.check.Order? && !(c.Serve? && Enabled(p, w, c))
    ensures var v := Act(p, w, c);
            v.heard == w.heard && v.answered == w.answered && v.exited == w.exited && v.cb == w.cb
  {
    hide Plan.Script, Plan.MsgOf, Load, Without, Enabled, ServeMove;
    match c {
      case Main =>
      case _ =>
    }
  }

  lemma ServeIs(p: Plan, w: World, now: int)
    requires !p.check.Order? && Enabled(p, w, Serve(now))
    ensures w.inbox != [] && !w.exited && Act(p, w, Serve(now)) == ServeMove(p, w, now)
  {
    hide Plan.Script, Plan.MsgOf, Step;
  }

  lemma StepKeepsLoop(p: Plan, w: World, c: Choice)
    requires p.Good() && Inv(p, w) && Loop(p, w)
    ensures !p.check.Order? && Loop(p, Act(p, w, c))
  {
    NoTable(p);
    hide Served, Step, Plan.Script, Plan.Good, Plan.MsgOf, Inv, Load, Enabled, Act;
    if c.Serve? && Enabled(p, w, c) {
      ServeIs(p, w, c.now);
      if w.inbox[0].Tag? {
        TagsAreCommands(p, w);
        ReceivesOneMore(p.check, 1, w.heard, w.answered, w.cb, Recv(0, w.inbox[0].cmd, c.now));
      } else {
        var m := p.MsgOf(w.inbox[0].id);
        MessagesAreNoCommands(p, w.inbox[0].id);
        ReceivesOneMore(p.check, 1, w.heard, w.answered, w.cb, Recv(m.sid, m.len, c.now));
      }
    } else {
      OthersKeep(p, w, c);
    }
  }

  lemma Starts(p: Plan)
    requires !p.check.Order?
    ensures Loop(p, Init(p))
  {
  }

  /**
   * In every run the server is where its loop is after the messages and commands received: same
   * counters, same verdict, as many acknowledgements as commands, ended on the close command.
   */
  lemma {:induction false} EveryRunServes(p: Plan, schedule: seq<Choice>)
    requires p.Good()
    ensures !p.check.Order? && Loop(p, After(p, Init(p), schedule))
  {
    NoTable(p);
    hide Loop, Act, Inv, Plan.Good;
    if schedule == [] {
      Starts(p);
    } else {
      var n := |schedule| - 1;
      EveryRunServes(p, schedule[..n]);
      EveryRunKeepsInvariant(p, schedule[..n]);
      StepKeepsLoop(p, After(p, Init(p), schedule[..n]), schedule[n]);
    }
  }
}
