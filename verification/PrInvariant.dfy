/** Every step of the partial-reliability program keeps the invariant. */
module PrInvariant {
  import opened Sequences
  import opened Server
  import opened PrClient
  import opened PrWorld

  lemma ScriptAt(p: Plan, pc: nat)
    ensures |p.Script()| == |p.body| + 4
    ensures pc < |p.Script()| ==>
      p.Script()[pc] == (if pc == 0 then EnablePartial
                         else if pc < 1 + |p.body| then p.body[pc - 1]
                         else if pc == 1 + |p.body| then Pause(5)
                         else if pc == 2 + |p.body| then Command(CLOSE_ASOC)
                         else AwaitAck)
  {
  }

  lemma SendsStep(ops: seq<Op>, k: nat)
    requires k < |ops|
    ensures Sends(ops[..k + 1]) == Sends(ops[..k]) + if ops[k].Send? then [ops[k].msg] else []
    ensures Dropped(ops[..k + 1]) == (ops[k].DropData? || (!ops[k].FlushRules? && Dropped(ops[..k])))
    ensures forall op :: op in ops[..k + 1] <==> op in ops[..k] || op == ops[k]
  {
    assert ops[..k + 1][..k] == ops[..k];
    assert ops[..k + 1] == ops[..k] + [ops[k]];
  }

  lemma {:induction false} SendsPrefix(ops: seq<Op>, k: nat)
    requires k <= |ops|
    ensures |Sends(ops[..k])| <= |Sends(ops)|
    ensures Sends(ops)[..|Sends(ops[..k])|] == Sends(ops[..k])
  {
    if k < |ops| {
      var n := |ops| - 1;
      SendsPrefix(ops[..n], k);
      assert ops[..n][..k] == ops[..k];
    } else {
      assert ops[..k] == ops;
    }
  }

  /** The message a send call carries is the next of the script's messages. */
  lemma NextMsg(p: Plan, k: nat)
    requires k < |p.body| && p.body[k].Send?
    ensures var n := |Sends(p.body[..k])|;
            n < |Sends(p.body)| && p.MsgOf(n) == p.body[k].msg
  {
    SendsStep(p.body, k);
    SendsPrefix(p.body, k + 1);
    var n := |Sends(p.body[..k])|;
    assert Sends(p.body[..k + 1])[n] == p.body[k].msg;
    assert Sends(p.body)[..n + 1][n] == Sends(p.body)[n];
  }

  // ---------------------------------------------------------------- the buffer

  lemma WithoutCounts(s: seq<nat>, i: nat)
    requires i < |s|
    ensures multiset(s) == multiset(Without(s, i)) + multiset{s[i]}
  {
    assert s == s[..i] + [s[i]] + s[i + 1..];
  }

  lemma {:induction false} LoadSplit(p: Plan, a: seq<nat>, b: seq<nat>)
    ensures Load(p, a + b) == Load(p, a) + Load(p, b)
  {
    if b == [] {
      assert a + b == a;
    } else {
      LoadSplit(p, a, b[..|b| - 1]);
      assert (a + b)[..|a + b| - 1] == a + b[..|b| - 1];
    }
  }

  lemma LoadOne(p: Plan, id: nat)
    ensures Load(p, [id]) == p.Cost(id)
  {
    assert [id][..0] == [];
  }

  lemma LoadWithout(p: Plan, s: seq<nat>, i: nat)
    requires i < |s|
    ensures Load(p, s) == Load(p, Without(s, i)) + p.Cost(s[i])
  {
    LoadSplit(p, s[..i], [s[i]]);
    LoadSplit(p, s[..i] + [s[i]], s[i + 1..]);
    LoadSplit(p, s[..i], s[i + 1..]);
    LoadOne(p, s[i]);
    assert s == s[..i] + [s[i]] + s[i + 1..];
  }

  lemma {:induction false} UnreadSplit(a: seq<Item>, b: seq<Item>)
    ensures Unread(a + b) == Unread(a) + Unread(b)
    ensures Tags(a + b) == Tags(a) + Tags(b)
  {
    if b == [] {
      assert a + b == a;
    } else {
      UnreadSplit(a, b[..|b| - 1]);
      assert (a + b)[..|a + b| - 1] == a + b[..|b| - 1];
    }
  }

  lemma InboxOne(i: Item)
    ensures Unread([i]) == if i.Data? then [i.id] else []
    ensures Tags([i]) == if i.Tag? then [i.cmd] else []
  {
    assert [i][..0] == [];
  }

  lemma InboxGrows(inbox: seq<Item>, i: Item)
    ensures Unread(inbox + [i]) == Unread(inbox) + if i.Data? then [i.id] else []
    ensures Tags(inbox + [i]) == Tags(inbox) + if i.Tag? then [i.cmd] else []
  {
    UnreadSplit(inbox, [i]);
    InboxOne(i);
  }

  lemma InboxHead(inbox: seq<Item>)
    requires inbox != []
    ensures Unread(inbox) == (if inbox[0].Data? then [inbox[0].id] else []) + Unread(inbox[1..])
    ensures Tags(inbox) == (if inbox[0].Tag? then [inbox[0].cmd] else []) + Tags(inbox[1..])
    ensures inbox[0].Tag? && |Tags(inbox)| == 1 ==> Tags(inbox) == [inbox[0].cmd] && Tags(inbox[1..]) == []
  {
    assert inbox == [inbox[0]] + inbox[1..];
    UnreadSplit([inbox[0]], inbox[1..]);
    InboxOne(inbox[0]);
    assert inbox[0].Tag? ==> |Tags(inbox)| == 1 + |Tags(inbox[1..])|;
  }

  lemma IdsGrows(gone: seq<Loss>, l: Loss)
    ensures Ids(gone + [l]) == Ids(gone) + [l.id]
  {
    assert (gone + [l])[..|gone|] == gone;
  }

  /** What is in the buffer was accepted. */
  lemma Buffered(accepted: nat, buffer: seq<nat>, read: seq<nat>, inbox: seq<Item>, gone: seq<Loss>, i: nat)
    requires Conserved(accepted, buffer, read, inbox, gone) && i < |buffer|
    ensures buffer[i] < accepted
  {
    assert buffer[i] in multiset(buffer);
    assert buffer[i] in multiset(UpTo(accepted));
  }

  // ---------------------------------------------------------------- step by step

  lemma AcceptConserves(accepted: nat, buffer: seq<nat>, read: seq<nat>, inbox: seq<Item>, gone: seq<Loss>)
    requires Conserved(accepted, buffer, read, inbox, gone)
    ensures Conserved(accepted + 1, buffer + [accepted], read, inbox, gone)
  {
    assert UpTo(accepted + 1) == UpTo(accepted) + [accepted];
  }

  lemma DeliverConserves(accepted: nat, buffer: seq<nat>, read: seq<nat>, inbox: seq<Item>, gone: seq<Loss>, i: nat)
    requires Conserved(accepted, buffer, read, inbox, gone) && i < |buffer|
    ensures Conserved(accepted, Without(buffer, i), read, inbox + [Data(buffer[i])], gone)
  {
    WithoutCounts(buffer, i);
    InboxGrows(inbox, Data(buffer[i]));
    assert read + (Unread(inbox) + [buffer[i]]) == (read + Unread(inbox)) + [buffer[i]];
  }

  lemma LoseConserves(accepted: nat, buffer: seq<nat>, read: seq<nat>, inbox: seq<Item>,
                      gone: seq<Loss>, i: nat, r: Reason)
    requires Conserved(accepted, buffer, read, inbox, gone) && i < |buffer|
    ensures Conserved(accepted, Without(buffer, i), read, inbox, gone + [Loss(buffer[i], r)])
  {
    WithoutCounts(buffer, i);
    IdsGrows(gone, Loss(buffer[i], r));
  }

  /** Reading moves a message from the socket to the end of what has been read. */
  lemma ReadOrder(read: seq<nat>, inbox: seq<Item>)
    requires inbox != []
    ensures (if inbox[0].Data? then read + [inbox[0].id] else read) + Unread(inbox[1..]) == read + Unread(inbox)
  {
    InboxHead(inbox);
    hide Unread, Tags;
  }

  lemma ReadConserves(accepted: nat, buffer: seq<nat>, read: seq<nat>, inbox: seq<Item>, gone: seq<Loss>)
    requires Conserved(accepted, buffer, read, inbox, gone) && inbox != []
    ensures Conserved(accepted, buffer, if inbox[0].Data? then read + [inbox[0].id] else read, inbox[1..], gone)
  {
    hide Unread, Tags;
    ReadOrder(read, inbox);
  }

  lemma FilterStep(p: Plan, pc: nat, started: bool, cleaner: nat, filter: bool)
    requires p.Good() && 1 <= pc < 1 + |p.body|
    requires Filtering(p, pc, started, cleaner, filter)
    requires p.body[pc - 1] == Join ==> cleaner == |p.clean|
    ensures var op := p.body[pc - 1];
            Filtering(p, pc + 1, started || op == Spawn, cleaner,
                      op == DropData || (filter && op != FlushRules))
  {
    var op := p.body[pc - 1];
    SendsStep(p.body, pc - 1);
    assert p.InBody(pc - 1);
    assert op == DropData ==> p.clean[..cleaner] == [];
  }

  lemma CleanerStep(p: Plan, pc: nat, cleaner: nat, filter: bool)
    requires p.Good() && cleaner < |p.clean| && Filtering(p, pc, true, cleaner, filter)
    ensures Filtering(p, pc, true, cleaner + 1, filter && p.clean[cleaner] != FlushRules)
  {
    assert p.clean[..cleaner + 1] == p.clean[..cleaner] + [p.clean[cleaner]];
  }

  /** Setting the buffer size comes before everything else. */
  lemma SizeSetFirst(p: Plan, w: World)
    requires p.Good() && Inv(p, w) && w.pc == 1 && |p.body| > 0 && p.body[0].SetSendBuffer?
    ensures w.buffer == []
  {
    assert p.body[..0] == [];
    assert multiset(w.buffer) <= multiset(UpTo(0)) == multiset{};
    assert |multiset(w.buffer)| == 0;
  }

  lemma StillExplained(p: Plan, accepted: nat, gone: seq<Loss>)
    requires Explained(p, accepted, gone)
    ensures Explained(p, accepted + 1, gone)
  {
    assert forall l | l in gone :: Justified(p, accepted, l);
  }

  lemma BodySend(p: Plan, w: World)
    requires p.Good() && Inv(p, w) && 1 <= w.pc < 1 + |p.body| && p.body[w.pc - 1].Send?
    requires Fits(p, w, p.body[w.pc - 1].msg)
    ensures Inv(p, MainMove(p, p.body[w.pc - 1], w))
  {
    hide Plan.Script, Plan.MsgOf, Sends, Load, Dropped, Tags, Unread, Ids, UpTo, Fold, Conserved, Filtering, Justified;
    SendsStep(p.body, w.pc - 1);
    FilterStep(p, w.pc, w.started, w.cleaner, w.filter);
    AcceptConserves(w.accepted, w.buffer, w.read, w.inbox, w.gone);
    NextMsg(p, w.pc - 1);
    LoadSplit(p, w.buffer, [w.accepted]);
    LoadOne(p, w.accepted);
    StillExplained(p, w.accepted, w.gone);
    hide Plan.Good, Explained, Counted;
  }

  lemma EmptyLoad(p: Plan)
    ensures Load(p, []) == 0
  {
  }

  lemma BodySize(p: Plan, w: World)
    requires p.Good() && Inv(p, w) && w.pc == 1 && |p.body| > 0 && p.body[0].SetSendBuffer?
    ensures Inv(p, w.(pc := 2, capacity := p.room(p.body[0].size)))
  {
    SizeSetFirst(p, w);
    hide Plan.Script, Plan.MsgOf, Sends, Load, Dropped, Tags, Unread, Ids;
    hide UpTo, Fold, Conserved, Filtering, Explained, Counted, Plan.Good;
    SendsStep(p.body, 0);
    FilterStep(p, 1, w.started, w.cleaner, w.filter);
    EmptyLoad(p);
  }

  /** A call that changes at most the filter and whether the other thread runs. */
  lemma BodyOther(p: Plan, w: World)
    requires p.Good() && Inv(p, w) && 1 <= w.pc < 1 + |p.body|
    requires var op := p.body[w.pc - 1];
             !op.Send? && !op.SetSendBuffer? && (op == Join ==> w.cleaner == |p.clean|)
    ensures var op := p.body[w.pc - 1];
            Inv(p, w.(pc := w.pc + 1, started := w.started || op == Spawn,
                      filter := op == DropData || (w.filter && op != FlushRules)))
  {
    hide Plan.Script, Plan.MsgOf, Sends, Load, Dropped, Tags, Unread, Ids;
    hide UpTo, Fold, Conserved, Filtering, Explained, Counted, Plan.Good;
    SendsStep(p.body, w.pc - 1);
    FilterStep(p, w.pc, w.started, w.cleaner, w.filter);
    var op := p.body[w.pc - 1];
    var started, filter := w.started || op == Spawn, op == DropData || (w.filter && op != FlushRules);
    assert Filtering(p, w.pc + 1, started, w.cleaner, filter);
    assert |Sends(p.body[..Done(p, w.pc + 1)])| == w.accepted;
  }

  lemma CallsOfBody(p: Plan, i: nat)
    requires p.Good() && i < |p.body|
    ensures p.InBody(i)
  {
  }

  lemma BodyCall(p: Plan, w: World)
    requires p.Good() && Inv(p, w) && 1 <= w.pc < 1 + |p.body| && Enabled(p, w, Main)
    ensures Inv(p, Act(p, w, Main))
  {
    hide Plan.Script, Plan.Good, Inv, Fits;
    ScriptAt(p, w.pc);
    CallsOfBody(p, w.pc - 1);
    if p.body[w.pc - 1].Send? {
      BodySend(p, w);
    } else if p.body[w.pc - 1].SetSendBuffer? {
      BodySize(p, w);
    } else {
      BodyOther(p, w);
    }
  }

  lemma EndCall(p: Plan, w: World)
    requires p.Good() && Inv(p, w) && Enabled(p, w, Main) && (w.pc < 1 || w.pc >= 1 + |p.body|)
    ensures Inv(p, Act(p, w, Main))
  {
    ScriptAt(p, w.pc);
    hide Plan.Script, Plan.Good, Conserved, Explained, Load, Sends, Dropped, Tags, Counted;
  }

  lemma MainKeeps(p: Plan, w: World)
    requires p.Good() && Inv(p, w) && Enabled(p, w, Main)
    ensures Inv(p, Act(p, w, Main))
  {
    ScriptAt(p, w.pc);
    if 1 <= w.pc < 1 + |p.body| {
      BodyCall(p, w);
    } else {
      EndCall(p, w);
    }
  }

  lemma LossKeeps(p: Plan, w: World, i: nat, r: Reason)
    requires p.Good() && Inv(p, w) && i < |w.buffer|
    requires Justified(p, w.accepted, Loss(w.buffer[i], r))
    ensures Inv(p, w.(buffer := Without(w.buffer, i), gone := w.gone + [Loss(w.buffer[i], r)]))
  {
    LoseConserves(w.accepted, w.buffer, w.read, w.inbox, w.gone, i, r);
    LoadWithout(p, w.buffer, i);
    hide Plan.Script, Plan.Good, Conserved, Load, Sends, Dropped, Tags, Counted, Filtering, Commanded, Justified;
  }

  /** The blocked message is the next to be accepted. */
  lemma DisplaceJustified(p: Plan, w: World, i: nat)
    requires p.Good() && Inv(p, w) && Enabled(p, w, Displace(i))
    ensures Justified(p, w.accepted, Loss(w.buffer[i], Displaced(w.accepted)))
  {
    ScriptAt(p, w.pc);
    hide Plan.Script;
    NextMsg(p, w.pc - 1);
    Buffered(w.accepted, w.buffer, w.read, w.inbox, w.gone, i);
    hide Plan.MsgOf, Plan.Good, Load, Sends, Counted, Filtering, Commanded;
  }

  lemma DeliverKeeps(p: Plan, w: World, i: nat)
    requires p.Good() && Inv(p, w) && i < |w.buffer|
    ensures Inv(p, w.(buffer := Without(w.buffer, i), inbox := w.inbox + [Data(w.buffer[i])]))
  {
    hide Plan.Script, Plan.Good, Plan.MsgOf, Load, Sends, Dropped, Tags, Unread;
    hide Counted, Filtering, Explained, Without, Plan.Capacity, Conserved, Plan.Cost;
    DeliverConserves(w.accepted, w.buffer, w.read, w.inbox, w.gone, i);
    LoadWithout(p, w.buffer, i);
    InboxGrows(w.inbox, Data(w.buffer[i]));
  }

  lemma CarryConserves(accepted: nat, buffer: seq<nat>, read: seq<nat>, inbox: seq<Item>, gone: seq<Loss>, cmd: nat)
    requires Conserved(accepted, buffer, read, inbox, gone)
    ensures Conserved(accepted, buffer, read, inbox + [Tag(cmd)], gone)
  {
    InboxGrows(inbox, Tag(cmd));
    hide Unread, Tags;
    assert Unread(inbox + [Tag(cmd)]) == Unread(inbox);
  }

  lemma PathKeeps(p: Plan, w: World, c: Choice)
    requires p.Good() && Inv(p, w) && Enabled(p, w, c) && (c.Carry? || c.Cleaner?)
    ensures Inv(p, Act(p, w, c))
  {
    hide Plan.Script, Plan.Good, Plan.MsgOf, Load, Sends, Dropped, Tags, Unread;
    hide Counted, Filtering, Explained, Without, Plan.Capacity, Conserved, Plan.Cost;
    if c.Carry? {
      CarryConserves(w.accepted, w.buffer, w.read, w.inbox, w.gone, w.wire[0]);
      InboxGrows(w.inbox, Tag(w.wire[0]));
    } else {
      CleanerStep(p, w.pc, w.cleaner, w.filter);
    }
  }

  lemma CountOne(p: Plan, read: seq<nat>, seen: seq<Event>, cb: Cb, id: nat, sid: nat, now: int)
    requires Counted(p, read, seen, cb)
    ensures var e := Recv(sid, p.MsgOf(id).len, now);
            Counted(p, read + [id], seen + [e], Step(p.check, cb, e))
  {
    var e := Recv(sid, p.MsgOf(id).len, now);
    assert (seen + [e])[..|seen|] == seen;
    hide Step;
  }

  lemma NoTable(p: Plan)
    requires p.Good()
    ensures !p.check.Order?
  {
  }

  lemma ServeData(p: Plan, w: World, now: int)
    requires p.Good() && Inv(p, w) && w.inbox != [] && w.inbox[0].Data?
    ensures var id := w.inbox[0].id;
            var e := Recv(p.MsgOf(id).sid, p.MsgOf(id).len, now);
            !p.check.Order?
            && Inv(p, w.(inbox := w.inbox[1..], heard := w.heard + [e], read := w.read + [id], seen := w.seen + [e],
                         cb := Step(p.check, w.cb, e)))
  {
    NoTable(p);
    hide Plan.Script, Plan.MsgOf, Load, Sends, Dropped, Tags, Unread;
    hide Counted, Filtering, Explained, Conserved, Step, Plan.Good;
    InboxHead(w.inbox);
    ReadConserves(w.accepted, w.buffer, w.read, w.inbox, w.gone);
    CountOne(p, w.read, w.seen, w.cb, w.inbox[0].id, p.MsgOf(w.inbox[0].id).sid, now);
    assert Tags(w.inbox) == Tags(w.inbox[1..]);
  }

  lemma ServeTag(p: Plan, w: World, now: int)
    requires p.Good() && Inv(p, w) && w.inbox != [] && w.inbox[0].Tag? && !w.exited
    ensures w.inbox[0].cmd == CLOSE_ASOC
    ensures Inv(p, w.(inbox := w.inbox[1..], heard := w.heard + [Recv(0, CLOSE_ASOC, now)], acks := w.acks + 1,
                      answered := w.answered + 1, exited := true))
  {
    hide Plan.Script, Plan.MsgOf, Load, Sends, Dropped, Tags, Unread;
    hide Counted, Filtering, Explained, Conserved, Step, Plan.Good;
    InboxHead(w.inbox);
    ReadConserves(w.accepted, w.buffer, w.read, w.inbox, w.gone);
    assert |Tags(w.inbox)| > 0;
    assert w.pc == |p.body| + 3 && Tags(w.inbox) == [CLOSE_ASOC];
    assert Commanded(p, w.pc, w.wire, Tags(w.inbox[1..]), w.acks + 1, true);
    assert Conserved(w.accepted, w.buffer, w.read, w.inbox[1..], w.gone);
  }

  lemma ServeKeeps(p: Plan, w: World, now: int)
    requires p.Good() && Inv(p, w) && Enabled(p, w, Serve(now))
    ensures Inv(p, Act(p, w, Serve(now)))
  {
    hide Plan.Script, Plan.MsgOf, Inv, Step, Plan.Good;
    if w.inbox[0].Data? {
      ServeData(p, w, now);
    } else {
      ServeTag(p, w, now);
    }
  }

  lemma ExpireJustified(p: Plan, w: World, i: nat)
    requires Enabled(p, w, Expire(i))
    ensures Justified(p, w.accepted, Loss(w.buffer[i], TimedOut))
  {
  }

  lemma StepKeepsInvariant(p: Plan, w: World, c: Choice)
    requires p.Good() && Inv(p, w)
    ensures Inv(p, Act(p, w, c))
  {
    hide Inv, Plan.Script, Justified, Load, Without;
    if Enabled(p, w, c) {
      match c {
        case Main => MainKeeps(p, w);
        case Serve(now) => ServeKeeps(p, w, now);
        case Deliver(i) => DeliverKeeps(p, w, i);
        case Displace(i) =>
          DisplaceJustified(p, w, i);
          LossKeeps(p, w, i, Displaced(w.accepted));
        case Expire(i) =>
          ExpireJustified(p, w, i);
          LossKeeps(p, w, i, TimedOut);
        case _ => PathKeeps(p, w, c);
      }
    }
  }

  lemma StartsWell(p: Plan)
    requires p.Good()
    ensures Inv(p, Init(p))
  {
    assert p.body[..0] == [];
    assert p.clean[..0] == [];
  }

  lemma {:induction false} EveryRunKeepsInvariant(p: Plan, schedule: seq<Choice>)
    requires p.Good()
    ensures Inv(p, After(p, Init(p), schedule))
  {
    StartsWell(p);
    hide Inv, Act, Init;
    if schedule != [] {
      var n := |schedule| - 1;
      EveryRunKeepsInvariant(p, schedule[..n]);
      StepKeepsInvariant(p, After(p, Init(p), schedule[..n]), schedule[n]);
    }
  }
}
