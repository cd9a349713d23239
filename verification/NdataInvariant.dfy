/** Every step keeps the invariant; every run ends, and ends with everything delivered. */
module NdataInvariant {
  import opened Sequences
  import opened Scheduler
  import opened SchedOrder
  import opened NdataCases
  import opened NdataScripts
  import opened Server
  import opened NdataWorld

  lemma ScriptAt(p: Plan, pc: nat)
    requires pc < |p.Script()|
    ensures var a, b := |p.setup|, |p.body|;
            && |p.Script()| == a + b + 4
            && p.Script()[pc] == (if pc < a then p.setup[pc]
                                  else if pc == a then Command(SET_STRRESET)
                                  else if pc == a + 1 then AwaitAck
                                  else if pc < a + 2 + b then p.body[pc - a - 2]
                                  else if pc == a + b + 2 then Command(CLOSE_ASOC)
                                  else AwaitAck)
  {
  }

  lemma ScriptLength(p: Plan)
    ensures |p.Script()| == |p.setup| + |p.body| + 4
  {
  }

  lemma ConfiguredStep(ops: seq<Op>, i: nat, streams: nat)
    requires i < |ops|
    requires forall i | 0 <= i < |ops| ::
               ops[i].SetPolicy? || ops[i].EnableReset? || (ops[i].SetValue? && ops[i].stream < streams)
    ensures var q := Configured(ops[..i], streams);
            Configured(ops[..i + 1], streams) == match ops[i]
                                        case SetPolicy(policy) => q.(policy := policy)
                                        case SetValue(s, x) => q.(value := q.value[s := x])
                                        case _ => q
  {
    assert ops[..i + 1][..i] == ops[..i];
  }

  lemma SetupConfigures(p: Plan, w: World)
    requires p.Good() && SetupPhase(p, w) && w.pc < |p.setup|
    ensures SetupPhase(p, Act(p, w, Client))
  {
    ScriptLength(p);
    ScriptAt(p, w.pc);
    ConfiguredStep(p.setup, w.pc, p.streams);
    hide Plan.Script, Plan.Good, Pop, Enqueue, Next, OutQ.Valid, Configured;
  }

  lemma OpenedErrand(p: Plan)
    requires p.Good()
    ensures var q := Opened(p);
            q.ring != [] && Errand(q, Next(q), Pop(q), SET_STRRESET, p.streams) && Idle(Pop(q))
  {
    CommandAlone(Configured(p.setup, p.streams), SET_STRRESET);
  }

  lemma SetupOpens(p: Plan, w: World)
    requires p.Good() && SetupPhase(p, w) && w.pc == |p.setup|
    ensures OpeningPhase(p, Act(p, w, Client))
  {
    hide Plan.Script, Pop, Enqueue, Next, OutQ.Valid, Configured, Idle;
    ScriptLength(p);
    ScriptAt(p, w.pc);
    assert p.setup[..w.pc] == p.setup;
    OpenedErrand(p);
    var v, q := Act(p, w, Client), Opened(p);
    assert Outstanding(v, q, Next(q), Pop(q), false);
    assert OpeningWith(p, v, q, Next(q), Pop(q));
  }

  lemma SetupStep(p: Plan, w: World, c: Choice)
    requires p.Good() && SetupPhase(p, w)
    ensures Inv(p, Act(p, w, c))
  {
    hide OutQ.Valid, Pop, Enqueue, Next, Plan.Script, Plan.Good, BodyPhase, ClosingPhase, FinalPhase, Configured;
    if c == Client {
      if w.pc < |p.setup| {
        SetupConfigures(p, w);
      } else {
        SetupOpens(p, w);
      }
    }
  }

  lemma NothingYet(p: Plan, w: World)
    requires p.Good()
    requires w.pc == |p.setup| + 2 && Untouched(w) && w.net == [] && w.acks == 0
    requires Idle(w.q) && |w.q.queues| == p.streams
    ensures BodyPhase(p, w)
  {
    assert p.body[..0] == [];
    SizeOfEmpty(w.q.queues);
  }

  lemma OpeningTransmit(p: Plan, w: World, before: OutQ, m: Msg, after: OutQ)
    requires p.Good() && OpeningWith(p, w, before, m, after)
    ensures OpeningWith(p, Act(p, w, Transmit), before, m, after)
  {
    hide OutQ.Valid, Pop, Next, Plan.Good, Plan.Script, Idle;
    var served :| Outstanding(w, before, m, after, served);
    assert Outstanding(Act(p, w, Transmit), before, m, after, served);
  }

  lemma OpeningReopen(p: Plan, w: World, before: OutQ, m: Msg, after: OutQ)
    requires p.Good() && OpeningWith(p, w, before, m, after)
    ensures Act(p, w, Reopen) == w
  {
    hide OutQ.Valid, Pop, Next, Plan.Good, Plan.Script, Idle;
  }

  lemma OpeningServe(p: Plan, w: World, now: int, before: OutQ, m: Msg, after: OutQ)
    requires p.Good() && OpeningWith(p, w, before, m, after)
    ensures OpeningWith(p, Act(p, w, Serve(now)), before, m, after)
  {
    hide OutQ.Valid, Pop, Next, Plan.Good, Plan.Script, Idle;
    var served :| Outstanding(w, before, m, after, served);
    assert Outstanding(Act(p, w, Serve(now)), before, m, after, w.net != [] || served);
  }

  lemma OpeningClient(p: Plan, w: World, before: OutQ, m: Msg, after: OutQ)
    requires p.Good() && OpeningWith(p, w, before, m, after)
    ensures var v := Act(p, w, Client); v == w || BodyPhase(p, v)
  {
    ScriptLength(p);
    ScriptAt(p, w.pc);
    hide OutQ.Valid, Pop, Next, Plan.Good, Plan.Script, Idle, BodyPhase;
    var served :| Outstanding(w, before, m, after, served);
    if served {
      NothingYet(p, Act(p, w, Client));
    }
  }

  lemma OpeningStep(p: Plan, w: World, c: Choice)
    requires p.Good() && OpeningPhase(p, w)
    ensures Inv(p, Act(p, w, c))
  {
    var q := Opened(p);
    hide OpeningWith, BodyPhase, ClosingPhase, FinalPhase, SetupPhase, Act, Opened, OutQ.Valid, Pop, Next;
    match c {
      case Client => OpeningClient(p, w, q, Next(q), Pop(q));
      case Transmit => OpeningTransmit(p, w, q, Next(q), Pop(q));
      case Serve(now) => OpeningServe(p, w, now, q, Next(q), Pop(q));
      case Reopen => OpeningReopen(p, w, q, Next(q), Pop(q));
    }
  }

  // ---------------------------------------------------------------- the body

  lemma SentStep(ops: seq<Op>, k: nat)
    requires k < |ops|
    ensures Sent(ops[..k + 1])
         == Sent(ops[..k]) + if ops[k].Send? then [Submission(ops[k].sid, ops[k].len)] else []
    ensures Rules(ops[..k + 1]) == match ops[k]
                                   case DropInput => Rules(ops[..k]) + 1
                                   case FlushRules => 0
                                   case _ => Rules(ops[..k])
  {
    assert ops[..k + 1] == ops[..k] + [ops[k]];
    SentOne(ops[..k], ops[k]);
    RulesAfterOne(ops[..k], ops[k]);
  }

  lemma OnOne(m: Msg, s: nat)
    ensures On([m], s) == if m.sid == s then [m] else []
  {
    assert [m][..0] == [];
  }

  lemma SendConserves(q: OutQ, net: seq<Msg>, got: seq<Msg>, sent: seq<Msg>, s: nat, len: nat)
    requires q.Valid() && s < |q.queues| && Conserved(q.queues, net, got, sent)
    ensures Conserved(Enqueue(q, s, len).queues, net, got, sent + [Msg(s, q.count[s], q.clock, len)])
    ensures Size(Enqueue(q, s, len).queues) == Size(q.queues) + 1
  {
    hide OutQ.Valid, On;
    Lengths(q);
    var m := Msg(s, q.count[s], q.clock, len);
    SizeOfUpdate(q.queues, s, q.queues[s] + [m]);
    forall t | 0 <= t < |q.queues|
      ensures On(got + net, t) + Enqueue(q, s, len).queues[t] == On(sent + [m], t)
    {
      OnSplit(sent, [m], t);
      OnOne(m, t);
    }
  }

  /** Moving the head of a queue onto the wire changes nothing for its stream. */
  lemma MoveConserves(q: seq<seq<Msg>>, r: seq<seq<Msg>>, m: Msg,
                      net: seq<Msg>, got: seq<Msg>, sent: seq<Msg>)
    requires m.sid < |q| == |r| && q[m.sid] == [m] + r[m.sid] && r == q[m.sid := r[m.sid]]
    requires Conserved(q, net, got, sent)
    ensures Conserved(r, net + [m], got, sent)
  {
    hide On;
    forall t | 0 <= t < |r|
      ensures On(got + (net + [m]), t) + r[t] == On(sent, t)
    {
      assert got + (net + [m]) == (got + net) + [m];
      OnSplit(got + net, [m], t);
      OnOne(m, t);
      assert On(got + net, t) + q[t] == On(sent, t);
    }
  }

  lemma TransmitConserves(q: OutQ, net: seq<Msg>, got: seq<Msg>, sent: seq<Msg>)
    requires q.Valid() && q.ring != [] && Conserved(q.queues, net, got, sent)
    ensures Conserved(Pop(q).queues, net + [Next(q)], got, sent)
    ensures Size(Pop(q).queues) + 1 == Size(q.queues)
  {
    var m, r := Next(q), Pop(q);
    PopEffect(q);
    SizeOfUpdate(q.queues, m.sid, r.queues[m.sid]);
    hide OutQ.Valid, Pop, Next;
    MoveConserves(q.queues, r.queues, m, net, got, sent);
  }

  lemma LastIsSettle(p: Plan, k: nat)
    requires p.Good() && k < |p.body|
    ensures InBody(p.body[k], p.streams)
    ensures k + 1 == |p.body| ==> p.body[k] == Settle
  {
  }

  lemma BodySends(p: Plan, w: World)
    requires p.Good() && BodyPhase(p, w)
    requires var k := BodyAt(p, w.pc); k < |p.body| && InBody(p.body[k], p.streams) && p.body[k].Send?
    ensures BodyPhase(p, ClientMove(p.body[BodyAt(p, w.pc)], w))
  {
    hide OutQ.Valid, Enqueue, Rules, Sent, Fold, Size, On, Plan.Good, Plan.Script, Conserved, Configured;
    var k := BodyAt(p, w.pc);
    var op := p.body[k];
    SentStep(p.body, k);
    LastIsSettle(p, k);
    SendConserves(w.q, w.net, w.got, w.sent, op.sid, op.len);
  }

  lemma BodySettles(p: Plan, w: World)
    requires p.Good() && BodyPhase(p, w)
    requires var k := BodyAt(p, w.pc); k < |p.body| && p.body[k] == Settle
    requires Quiet(w) && !w.closed
    ensures BodyPhase(p, ClientMove(Settle, w))
  {
    SentStep(p.body, BodyAt(p, w.pc));
    hide OutQ.Valid, Rules, Sent, Fold, Size, On, Plan.Good, Plan.Script;
  }

  lemma BodyFilters(p: Plan, w: World)
    requires p.Good() && BodyPhase(p, w)
    requires var k := BodyAt(p, w.pc);
             k < |p.body| && InBody(p.body[k], p.streams)
             && !(p.body[k].Send? || p.body[k].Settle? || p.body[k].SetPolicy? || p.body[k].SetValue?)
    ensures BodyPhase(p, ClientMove(p.body[BodyAt(p, w.pc)], w))
  {
    var k := BodyAt(p, w.pc);
    hide OutQ.Valid, Rules, Sent, Fold, Size, On, Plan.Good, Plan.Script, Conserved;
    SentStep(p.body, k);
    LastIsSettle(p, k);
  }

  lemma PolicyValid(q: OutQ, policy: Policy)
    requires q.Valid()
    ensures q.(policy := policy).Valid()
  {
  }

  lemma ValueValid(q: OutQ, s: nat, x: int)
    requires q.Valid() && s < |q.value|
    ensures q.(value := q.value[s := x]).Valid()
  {
  }

  lemma BodyConfigures(p: Plan, w: World)
    requires p.Good() && BodyPhase(p, w)
    requires var k := BodyAt(p, w.pc);
             k < |p.body| && InBody(p.body[k], p.streams) && (p.body[k].SetPolicy? || p.body[k].SetValue?)
    ensures BodyPhase(p, ClientMove(p.body[BodyAt(p, w.pc)], w))
  {
    hide OutQ.Valid, Rules, Sent, Fold, Size, On, Plan.Good, Conserved;
    var k := BodyAt(p, w.pc);
    var op := p.body[k];
    Lengths(w.q);
    SentStep(p.body, k);
    LastIsSettle(p, k);
    if op.SetPolicy? {
      PolicyValid(w.q, op.policy);
    } else {
      ValueValid(w.q, op.stream, op.value);
    }
  }

  lemma BodyClient(p: Plan, w: World)
    requires p.Good() && BodyPhase(p, w) && 0 <= BodyAt(p, w.pc) < |p.body|
    ensures BodyPhase(p, Act(p, w, Client))
  {
    hide Plan.Script, BodyPhase, ClientMove, Plan.Good, OutQ.Valid;
    var k := BodyAt(p, w.pc);
    ScriptLength(p);
    ScriptAt(p, w.pc);
    LastIsSettle(p, k);
    if Enabled(p, w, Client) {
      match p.body[k] {
        case Send(_, _, _) => BodySends(p, w);
        case Settle => BodySettles(p, w);
        case SetPolicy(_) => BodyConfigures(p, w);
        case SetValue(_, _) => BodyConfigures(p, w);
        case _ => BodyFilters(p, w);
      }
    }
  }

  lemma SettledSize(q: OutQ)
    requires q.Valid()
    ensures q.ring == [] ==> Size(q.queues) == 0
  {
    NothingWaiting(q);
    if q.ring == [] {
      SizeOfEmpty(q.queues);
    }
  }

  lemma {:induction false} OnMember(msgs: seq<Msg>, s: nat, m: Msg)
    ensures m in On(msgs, s) <==> m in msgs && m.sid == s
  {
    if msgs != [] {
      OnMember(msgs[..|msgs| - 1], s, m);
    }
  }

  /** What is transmitted was accepted. */
  lemma FromTheQueue(q: OutQ, net: seq<Msg>, got: seq<Msg>, sent: seq<Msg>)
    requires q.Valid() && q.ring != [] && Conserved(q.queues, net, got, sent)
    ensures Next(q) in sent
  {
    PopEffect(q);
    var m := Next(q);
    assert m in On(got + net, m.sid) + q.queues[m.sid];
    OnMember(sent, m.sid, m);
  }

  lemma BodyTransmit(p: Plan, w: World)
    requires p.Good() && BodyPhase(p, w)
    ensures BodyPhase(p, Act(p, w, Transmit))
  {
    hide OutQ.Valid, Pop, Next, Rules, Sent, Fold, Size, On, Plan.Good, Plan.Script, Conserved, AsSubmitted;
    if Enabled(p, w, Transmit) {
      TransmitConserves(w.q, w.net, w.got, w.sent);
      FromTheQueue(w.q, w.net, w.got, w.sent);
      PopEffect(w.q);
    }
  }

  lemma {:induction false} SentGrows(ops: seq<Op>, k: nat)
    requires k <= |ops|
    ensures |Sent(ops[..k])| <= |Sent(ops)|
  {
    if k < |ops| {
      SentGrows(ops[..|ops| - 1], k);
      assert ops[..|ops| - 1][..k] == ops[..k];
    } else {
      assert ops[..k] == ops;
    }
  }

  /** The table has an entry for every message that can come. */
  lemma RoomInTable(p: Plan, w: World)
    requires p.Good() && BodyPhase(p, w)
    ensures InTable(p.check, Start(0), |w.got| + |w.net|)
  {
    SentGrows(p.body, BodyAt(p, w.pc));
  }

  lemma BodyServe(p: Plan, w: World, now: int)
    requires p.Good() && BodyPhase(p, w)
    ensures BodyPhase(p, Act(p, w, Serve(now)))
  {
    hide OutQ.Valid, Rules, Sent, Size, On, Plan.Good, Plan.Script, AsSubmitted;
    if Enabled(p, w, Serve(now)) {
      var v, m := Act(p, w, Serve(now)), w.net[0];
      var e := Recv(m.sid, m.len, now);
      assert Untagged(m.len);
      assert v.got + v.net == w.got + w.net;
      RoomInTable(p, w);
      OrderIndex(p.check, Start(0), w.seen);
      assert v.seen[..|v.seen| - 1] == w.seen;
    }
  }

  lemma BodyReopen(p: Plan, w: World)
    requires p.Good() && BodyPhase(p, w)
    ensures BodyPhase(p, Act(p, w, Reopen))
  {
    hide OutQ.Valid, Rules, Sent, Fold, Size, On, Plan.Good;
  }

  // ---------------------------------------------------------------- closing

  lemma LastSettleIsClean(p: Plan)
    requires p.Good()
    ensures Rules(p.body) == 0
  {
    var n := |p.body| - 1;
    assert Rules(p.body[..n]) == 0;
    assert p.body == p.body[..n] + [Settle];
    RulesAfterOne(p.body[..n], Settle);
  }

  /** With nothing waiting and nothing in flight, everything accepted has been consumed. */
  lemma QuietIsComplete(p: Plan, w: World)
    requires p.Good() && BodyPhase(p, w) && BodyAt(p, w.pc) == |p.body|
    ensures Idle(w.q) && Complete(p, w) && w.rules == 0
  {
    assert p.body[..|p.body|] == p.body;
    LastSettleIsClean(p);
    NothingWaiting(w.q);
    SettledSize(w.q);
    hide OutQ.Valid, Plan.Script, Rules, Sent, Fold, Plan.Good;
    forall s | 0 <= s < p.streams
      ensures On(w.got, s) == On(w.sent, s)
    {
      assert w.got + w.net == w.got;
      assert w.q.queues[s] == [];
    }
  }

  lemma SameData(p: Plan, w: World, v: World)
    requires Complete(p, w)
    ensures v.got == w.got && v.sent == w.sent && v.seen == w.seen && v.cb == w.cb ==> Complete(p, v)
  {
  }

  lemma BodyDone(p: Plan, w: World)
    requires p.Good() && BodyPhase(p, w) && BodyAt(p, w.pc) == |p.body|
    ensures ClosingPhase(p, Act(p, w, Client))
  {
    hide OutQ.Valid, Enqueue, Pop, Next, Plan.Script, Rules, Sent, Fold, Plan.Good, Conserved, Counted, Complete, Idle;
    ScriptLength(p);
    ScriptAt(p, w.pc);
    QuietIsComplete(p, w);
    CommandAlone(w.q, CLOSE_ASOC);
    var v := Act(p, w, Client);
    SameData(p, w, v);
    assert ClosingWith(p, v, v.q, Next(v.q), Pop(v.q));
  }

  lemma ClosingTransmit(p: Plan, w: World, before: OutQ, m: Msg, after: OutQ)
    requires p.Good() && ClosingWith(p, w, before, m, after)
    ensures ClosingWith(p, Act(p, w, Transmit), before, m, after)
  {
    hide OutQ.Valid, Pop, Next, Plan.Good, Plan.Script, Complete;
    SameData(p, w, Act(p, w, Transmit));
  }

  lemma ClosingReopen(p: Plan, w: World, before: OutQ, m: Msg, after: OutQ)
    requires p.Good() && ClosingWith(p, w, before, m, after)
    ensures Act(p, w, Reopen) == w
  {
    hide OutQ.Valid, Pop, Next, Plan.Good, Plan.Script, Complete;
  }

  lemma ClosingServe(p: Plan, w: World, now: int, before: OutQ, m: Msg, after: OutQ)
    requires p.Good() && ClosingWith(p, w, before, m, after)
    ensures ClosingWith(p, Act(p, w, Serve(now)), before, m, after)
  {
    hide OutQ.Valid, Pop, Next, Plan.Good, Plan.Script, Complete;
    SameData(p, w, Act(p, w, Serve(now)));
  }

  lemma ClosingClient(p: Plan, w: World, before: OutQ, m: Msg, after: OutQ)
    requires p.Good() && ClosingWith(p, w, before, m, after)
    ensures var v := Act(p, w, Client); if w.exited then FinalPhase(p, v) else v == w
  {
    ScriptLength(p);
    ScriptAt(p, w.pc);
    hide OutQ.Valid, Pop, Next, Plan.Good, Plan.Script, Complete;
    SameData(p, w, Act(p, w, Client));
  }

  lemma ClosingStep(p: Plan, w: World, c: Choice)
    requires p.Good() && ClosingPhase(p, w)
    ensures Inv(p, Act(p, w, c))
  {
    var before, m, after :| ClosingWith(p, w, before, m, after);
    hide SetupPhase, OpeningPhase, BodyPhase, FinalPhase, ClosingWith, Act;
    match c {
      case Client => ClosingClient(p, w, before, m, after);
      case Transmit => ClosingTransmit(p, w, before, m, after);
      case Serve(now) => ClosingServe(p, w, now, before, m, after);
      case Reopen => ClosingReopen(p, w, before, m, after);
    }
  }

  lemma FinalStep(p: Plan, w: World, c: Choice)
    requires p.Good() && FinalPhase(p, w)
    ensures Act(p, w, c) == w
  {
    hide OutQ.Valid, Plan.Script, Complete;
  }

  lemma StepKeepsInvariant(p: Plan, w: World, c: Choice)
    requires p.Good() && Inv(p, w)
    ensures Inv(p, Act(p, w, c))
  {
    hide SetupPhase, OpeningPhase, ClosingPhase, FinalPhase, Act, Plan.Good;
    if SetupPhase(p, w) {
      SetupStep(p, w, c);
    } else if OpeningPhase(p, w) {
      OpeningStep(p, w, c);
    } else if BodyPhase(p, w) {
      match c {
        case Client =>
          assert 0 <= BodyAt(p, w.pc) <= |p.body|;
          if BodyAt(p, w.pc) < |p.body| { BodyClient(p, w); } else { BodyDone(p, w); }
        case Transmit => BodyTransmit(p, w);
        case Serve(now) => BodyServe(p, w, now);
        case Reopen => BodyReopen(p, w);
      }
    } else if ClosingPhase(p, w) {
      ClosingStep(p, w, c);
    } else {
      FinalStep(p, w, c);
    }
  }

  lemma Starts(p: Plan)
    requires p.Good()
    ensures Inv(p, Init(p))
  {
    assert p.setup[..0] == [];
    assert SetupPhase(p, Init(p));
  }

  lemma {:induction false} EveryRunKeepsInvariant(p: Plan, schedule: seq<Choice>)
    requires p.Good()
    ensures Inv(p, After(p, Init(p), schedule))
  {
    hide Inv, Act, Plan.Good;
    if schedule == [] {
      Starts(p);
    } else {
      var n := |schedule| - 1;
      EveryRunKeepsInvariant(p, schedule[..n]);
      StepKeepsInvariant(p, After(p, Init(p), schedule[..n]), schedule[n]);
    }
  }
}
