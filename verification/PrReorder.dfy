/**
 * A run of a threaded case in which nothing is given up and the server returns 0 all the same: the
 * two large messages are delivered before the small ones.
 */
module PrReorder {
  import opened Sequences
  import opened Server
  import opened PrClient
  import opened PrWorld
  import opened PrInvariant
  import opened PrTheorems
  import opened PrProgress
  import opened PrPrograms
  import opened PrBlocking
  import opened PrVerdicts

  /** The messages wait at the socket in this order. */
  function AtSocket(ids: seq<nat>): (items: seq<Item>)
    ensures |items| == |ids| && forall i | 0 <= i < |ids| :: items[i] == Data(ids[i])
  {
    if ids == [] then [] else [Data(ids[0])] + AtSocket(ids[1..])
  }

  /** Nothing lost, no command outstanding; the messages in these places and this order. */
  ghost predicate Here(w: World, pc: nat, cleaner: nat, filter: bool,
                       buffer: seq<nat>, inbox: seq<nat>, read: seq<nat>) {
    && w.pc == pc && w.cleaner == cleaner && w.filter == filter
    && w.buffer == buffer && w.inbox == AtSocket(inbox) && w.read == read
    && w.gone == [] && w.wire == [] && !w.exited
  }

  /** A schedule that has led there, patient so far. */
  ghost predicate Led(p: Plan, s: seq<Choice>, pc: nat, cleaner: nat, filter: bool,
                      buffer: seq<nat>, inbox: seq<nat>, read: seq<nat>)
    requires !p.check.Order?
  {
    Patient(p, s) && Here(After(p, Init(p), s), pc, cleaner, filter, buffer, inbox, read)
  }

  lemma PatientGrows(p: Plan, s: seq<Choice>, c: Choice)
    requires !p.check.Order? && Patient(p, s)
    requires c.Main? && After(p, Init(p), s).pc == 2 + |p.body| ==> Idle(p, After(p, Init(p), s))
    ensures Patient(p, s + [c])
  {
    hide Idle, After;
    var t := s + [c];
    forall i | 0 <= i < |t| && t[i].Main?
      ensures var w := After(p, Init(p), t[..i]); w.pc == 2 + |p.body| ==> Idle(p, w)
    {
      if i < |s| {
        assert t[..i] == s[..i] && t[i] == s[i];
      } else {
        assert t[..i] == s;
      }
    }
  }

  // ---------------------------------------------------------------- the main thread fills the buffer

  lemma SendFits(p: Plan, w: World)
    requires p.Good() && Inv(p, w) && 1 <= w.pc < 1 + |p.body| && p.body[w.pc - 1].Send?
    requires Load(p, UpTo(|Sends(p.body)|)) <= p.Capacity()
    ensures Fits(p, w, p.body[w.pc - 1].msg)
  {
    hide Load, UpTo, Plan.Good, Counted, Filtering, Commanded, Explained, Conserved, Plan.MsgOf, Plan.Capacity;
    NextMsg(p, w.pc - 1);
    SendCapacity(p, w);
    BufferIsPart(p, w.accepted, w.buffer, w.read, w.inbox, w.gone);
    LoadGrows(p, w.accepted + 1, |Sends(p.body)|);
    UpToGrows(w.accepted);
    LoadSplit(p, UpTo(w.accepted), [w.accepted]);
    LoadOne(p, w.accepted);
  }

  lemma CallIs(p: Plan, w: World)
    requires p.Good() && !p.check.Order? && 1 <= w.pc < 1 + |p.body|
    requires p.body[w.pc - 1] == Join ==> w.cleaner == |p.clean|
    requires p.body[w.pc - 1].Send? ==> Fits(p, w, p.body[w.pc - 1].msg)
    ensures var op := p.body[w.pc - 1];
            !op.AwaitAck? && !op.Command? && Act(p, w, Main) == MainMove(p, op, w)
  {
    hide Plan.Good, Fits, MainMove;
    ScriptAt(p, w.pc);
    CallsOfBody(p, w.pc - 1);
    hide Plan.Script;
  }

  /** A call of the body other than the join, when everything fits. */
  lemma CallStep(p: Plan, w: World, buffer: seq<nat>, inbox: seq<nat>, read: seq<nat>)
    requires p.Good() && !p.check.Order? && Inv(p, w) && 1 <= w.pc < 1 + |p.body|
    requires Load(p, UpTo(|Sends(p.body)|)) <= p.Capacity()
    requires Here(w, w.pc, w.cleaner, w.filter, buffer, inbox, read)
    requires p.body[w.pc - 1] == Join ==> w.cleaner == |p.clean|
    ensures var v, op := Act(p, w, Main), p.body[w.pc - 1];
            && Here(v, w.pc + 1, w.cleaner, v.filter, if op.Send? then buffer + [w.accepted] else buffer, inbox, read)
            && v.filter == (op.DropData? || (w.filter && !op.FlushRules?))
            && v.accepted == w.accepted + if op.Send? then 1 else 0
  {
    hide Plan.Script, Plan.Good, Inv, Fits, Load, UpTo, Plan.Capacity, AtSocket, Act, Sends;
    if p.body[w.pc - 1].Send? {
      SendFits(p, w);
    }
    CallIs(p, w);
  }

  lemma FillsFirst(p: Plan)
    requires !p.check.Order?
    ensures |Sends(p.body[..0])| == 0 && !Dropped(p.body[..0])
    ensures Led(p, [] + [Main], 1, 0, false, UpTo(0), [], []) && After(p, Init(p), [] + [Main]).accepted == 0
  {
    hide Plan.Script, Load, Plan.Capacity, Idle;
    ScriptAt(p, 0);
    NoIds();
    assert p.body[..0] == [];
    AfterOne(p, [], Main);
    PatientGrows(p, [], Main);
  }

  lemma FillsStep(p: Plan, t: seq<Choice>, k: nat)
    requires p.Good() && !p.check.Order? && 0 < k <= |p.body| && p.body[k - 1] != Join
    requires Load(p, UpTo(|Sends(p.body)|)) <= p.Capacity()
    requires var n := |Sends(p.body[..k - 1])|;
             && Led(p, t, k, 0, Dropped(p.body[..k - 1]), UpTo(n), [], [])
             && After(p, Init(p), t).accepted == n
    ensures var n := |Sends(p.body[..k])|;
            && Led(p, t + [Main], 1 + k, 0, Dropped(p.body[..k]), UpTo(n), [], [])
            && After(p, Init(p), t + [Main]).accepted == n
  {
    hide After, Init, Inv, Plan.Good, Load, UpTo, Plan.Capacity, Sends, Dropped, Act, Idle, Patient, AtSocket;
    SendsStep(p.body, k - 1);
    var w := After(p, Init(p), t);
    EveryRunKeepsInvariant(p, t);
    CallStep(p, w, w.buffer, [], []);
    UpToGrows(w.accepted);
    AfterOne(p, t, Main);
    PatientGrows(p, t, Main);
  }

  lemma {:induction false} Fills(p: Plan, k: nat) returns (s: seq<Choice>)
    requires p.Good() && !p.check.Order? && k <= |p.body| && Join !in p.body[..k]
    requires Load(p, UpTo(|Sends(p.body)|)) <= p.Capacity()
    ensures var n := |Sends(p.body[..k])|;
            && Led(p, s, 1 + k, 0, Dropped(p.body[..k]), UpTo(n), [], [])
            && After(p, Init(p), s).accepted == n
  {
    hide After, Init, Inv, Plan.Good, Load, UpTo, Plan.Capacity, Sends, Dropped, Act, Led;
    if k == 0 {
      FillsFirst(p);
      s := [] + [Main];
    } else {
      assert p.body[..k - 1] == p.body[..k][..k - 1];
      assert p.body[k - 1] == p.body[..k][k - 1];
      var t := Fills(p, k - 1);
      FillsStep(p, t, k);
      s := t + [Main];
    }
  }

  // ---------------------------------------------------------------- deliveries and receives

  lemma AtSocketSplit(a: seq<nat>, b: seq<nat>)
    ensures AtSocket(a + b) == AtSocket(a) + AtSocket(b)
  {
  }

  /** One delivery from the middle of the buffer. */
  lemma Delivers(p: Plan, s: seq<Choice>, pc: nat, cleaner: nat,
                 buffer: seq<nat>, inbox: seq<nat>, i: nat)
    requires !p.check.Order? && i < |buffer| && Led(p, s, pc, cleaner, false, buffer, inbox, [])
    ensures Led(p, s + [Deliver(i)], pc, cleaner, false, Without(buffer, i), inbox + [buffer[i]], [])
  {
    AfterOne(p, s, Deliver(i));
    PatientGrows(p, s, Deliver(i));
    AtSocketSplit(inbox, [buffer[i]]);
    hide Plan.Script, After, Init, Patient, Idle;
    assert AtSocket([buffer[i]]) == [Data(buffer[i])];
    hide AtSocket;
  }

  lemma {:induction false} DeliversAll(p: Plan, s: seq<Choice>, pc: nat, cleaner: nat,
                                       buffer: seq<nat>, inbox: seq<nat>) returns (t: seq<Choice>)
    requires !p.check.Order? && Led(p, s, pc, cleaner, false, buffer, inbox, [])
    ensures Led(p, t, pc, cleaner, false, [], inbox + buffer, [])
    decreases |buffer|
  {
    hide Led;
    if buffer == [] {
      assert inbox + buffer == inbox;
      t := s;
    } else {
      Delivers(p, s, pc, cleaner, buffer, inbox, 0);
      assert Without(buffer, 0) == buffer[1..];
      t := DeliversAll(p, s + [Deliver(0)], pc, cleaner, buffer[1..], inbox + [buffer[0]]);
      assert inbox + [buffer[0]] + buffer[1..] == inbox + buffer;
    }
  }

  lemma Reads(p: Plan, s: seq<Choice>, pc: nat, cleaner: nat, inbox: seq<nat>, read: seq<nat>)
    requires !p.check.Order? && inbox != [] && Led(p, s, pc, cleaner, false, [], inbox, read)
    ensures Led(p, s + [Serve(0)], pc, cleaner, false, [], inbox[1..], read + [inbox[0]])
  {
    AfterOne(p, s, Serve(0));
    PatientGrows(p, s, Serve(0));
    AtSocketSplit([inbox[0]], inbox[1..]);
    assert [inbox[0]] + inbox[1..] == inbox;
    assert AtSocket([inbox[0]]) == [Data(inbox[0])];
    hide Plan.Script, After, Init, Patient, Idle, AtSocket, Step, Plan.MsgOf;
  }

  lemma {:induction false} ReadsAll(p: Plan, s: seq<Choice>, pc: nat, cleaner: nat,
                                    inbox: seq<nat>, read: seq<nat>) returns (t: seq<Choice>)
    requires !p.check.Order? && Led(p, s, pc, cleaner, false, [], inbox, read)
    ensures Led(p, t, pc, cleaner, false, [], [], read + inbox)
    decreases |inbox|
  {
    hide Led;
    if inbox == [] {
      assert read + inbox == read;
      t := s;
    } else {
      Reads(p, s, pc, cleaner, inbox, read);
      t := ReadsAll(p, s + [Serve(0)], pc, cleaner, inbox[1..], read + [inbox[0]]);
      assert read + [inbox[0]] + inbox[1..] == read + inbox;
    }
  }

  /** A step of the cleaning thread. */
  lemma ThreadSteps(p: Plan, s: seq<Choice>, pc: nat, cleaner: nat, filter: bool, buffer: seq<nat>)
    requires p.Good() && !p.check.Order? && cleaner < |p.clean| && Led(p, s, pc, cleaner, filter, buffer, [], [])
    requires After(p, Init(p), s).started
    ensures Led(p, s + [Cleaner], pc, cleaner + 1, filter && p.clean[cleaner] != FlushRules, buffer, [], [])
    ensures After(p, Init(p), s + [Cleaner]).started
  {
    AfterOne(p, s, Cleaner);
    PatientGrows(p, s, Cleaner);
    hide Plan.Script, After, Init, Patient, Idle, AtSocket, Plan.Good;
  }

  // ---------------------------------------------------------------- the run

  lemma ThreadedShape(ops: seq<Op>, m: seq<Msg>)
    requires ThreadedScript(ops, m)
    ensures |ops| == 13 && Join !in ops[..11] && ops[11] == Join && ops[12] == Pause(3)
    ensures Spawn in ops[..11] && Dropped(ops[..11])
    ensures |Sends(ops[..11])| == 7 && |Sends(ops)| == 7
  {
    hide Sends, Dropped;
    ThreadedBody(ops, m);
    assert ops[..11][8] == Spawn;
    NextSend(ops, 10, m[6], m[..6], true);
  }

  lemma FirstSets(ops: seq<Op>, m: seq<Msg>)
    requires ThreadedScript(ops, m)
    ensures ops != [] && ops[0] == SetSendBuffer(SNDBUF)
  {
  }

  lemma ThreadedCase(p: Plan, c: nat)
    requires IsCase(p, c) && Cases(c).test.Threaded?
    ensures p.Good() && p.Restores() && !p.check.Order? && Cases(c).check.FourTotals?
    ensures |p.body| == 13 && Join !in p.body[..11] && p.body[11] == Join && p.body[12] == Pause(3)
    ensures Spawn in p.body[..11] && Dropped(p.body[..11])
    ensures |Sends(p.body[..11])| == 7 && |Sends(p.body)| == 7
    ensures p.clean == [Pause(3), FlushRules, Pause(10)]
    ensures p.Capacity() == p.room(SNDBUF)
  {
    hide Sends, Dropped, Plan.Good, Plan.Restores, Cleans, Roomy, BodyOps, Msgs, ThreadedScript;
    ScriptsLaid(Cases(c));
    CasesFit(p, c);
    NoTable(p);
    ThreadedShape(p.body, Msgs(Cases(c)));
    FirstSets(p.body, Msgs(Cases(c)));
  }

  lemma StartedBy(p: Plan, w: World)
    requires Inv(p, w) && w.pc == 12 && |p.body| == 13 && Spawn in p.body[..11]
    ensures w.started
  {
    hide Conserved, Counted, Explained, Roomed, Commanded;
  }

  lemma NothingMoves(p: Plan, w: World)
    requires w.buffer == [] && w.inbox == [] && w.wire == [] && w.cleaner == |p.clean|
    ensures Idle(p, w)
  {
    hide Plan.Script, Plan.MsgOf, Load;
  }

  /** A call that only moves the main thread on. */
  lemma EmptyCall(p: Plan, s: seq<Choice>, pc: nat, read: seq<nat>)
    requires !p.check.Order? && pc < |p.Script()| && pc != 2 + |p.body|
    requires p.Script()[pc].Pause? || (p.Script()[pc] == Join && |p.clean| == 3)
    requires Led(p, s, pc, 3, false, [], [], read)
    ensures Led(p, s + [Main], pc + 1, 3, false, [], [], read)
  {
    hide Plan.Script, After, Init, Patient, Idle, AtSocket, Load, Plan.MsgOf;
    AfterOne(p, s, Main);
    PatientGrows(p, s, Main);
  }

  /** The join, the pause after it and the one before the close command. */
  lemma LastCalls(p: Plan, s: seq<Choice>, read: seq<nat>) returns (t: seq<Choice>)
    requires !p.check.Order? && |p.body| == 13 && |p.clean| == 3
    requires p.body[11] == Join && p.body[12] == Pause(3)
    requires Led(p, s, 12, 3, false, [], [], read)
    ensures Led(p, t, 15, 3, false, [], [], read)
  {
    hide Plan.Script, Led;
    ScriptAt(p, 12);
    ScriptAt(p, 13);
    ScriptAt(p, 14);
    EmptyCall(p, s, 12, read);
    EmptyCall(p, s + [Main], 13, read);
    EmptyCall(p, s + [Main] + [Main], 14, read);
    t := s + [Main] + [Main] + [Main];
  }

  lemma CloseSent(p: Plan, w: World)
    requires !p.check.Order? && |p.body| == 13 && w.pc == 15 && w.wire == []
    ensures Act(p, w, Main) == w.(pc := 16, wire := [CLOSE_ASOC])
  {
    ScriptAt(p, 15);
    hide Plan.Script, Load, Plan.MsgOf;
  }

  lemma CloseCarried(p: Plan, w: World)
    requires !p.check.Order? && w.wire == [CLOSE_ASOC] && !w.filter && w.inbox == []
    ensures Act(p, w, Carry) == w.(wire := [], inbox := [Tag(CLOSE_ASOC)])
  {
    hide Plan.Script, Load, Plan.MsgOf;
  }

  lemma CloseRead(p: Plan, w: World)
    requires !p.check.Order? && w.inbox == [Tag(CLOSE_ASOC)] && !w.exited
    ensures var v := Act(p, w, Serve(0));
            v.exited && v.inbox == [] && v.gone == w.gone && v.read == w.read && v.buffer == w.buffer && v.pc == w.pc
  {
    hide Plan.Script, Load, Plan.MsgOf;
  }

  lemma EmptySocket()
    ensures AtSocket([]) == []
  {
  }

  lemma CloseCalls(p: Plan, s: seq<Choice>, read: seq<nat>) returns (t: seq<Choice>)
    requires !p.check.Order? && |p.body| == 13 && |p.clean| == 3
    requires Led(p, s, 15, 3, false, [], [], read)
    ensures Patient(p, t)
    ensures var w := After(p, Init(p), t);
            w.exited && w.gone == [] && w.read == read && w.buffer == [] && w.inbox == [] && w.pc == 16
  {
    hide Plan.Script, After, Init, Patient, Idle, Act, AtSocket;
    var w := After(p, Init(p), s);
    EmptySocket();
    NothingMoves(p, w);
    AfterOne(p, s, Main);
    PatientGrows(p, s, Main);
    CloseSent(p, w);
    var s1 := s + [Main];
    AfterOne(p, s1, Carry);
    PatientGrows(p, s1, Carry);
    CloseCarried(p, After(p, Init(p), s1));
    var s2 := s1 + [Carry];
    AfterOne(p, s2, Serve(0));
    PatientGrows(p, s2, Serve(0));
    CloseRead(p, After(p, Init(p), s2));
    t := s2 + [Serve(0)];
  }

  lemma SevenBuffered()
    ensures UpTo(7) == [0, 1, 2, 3, 4, 5, 6]
    ensures Without(UpTo(7), 5) == [0, 1, 2, 3, 4, 6]
    ensures Without([0, 1, 2, 3, 4, 6], 5) == [0, 1, 2, 3, 4]
  {
  }

  lemma StartsThread(p: Plan, a: seq<Choice>)
    requires p.Good() && !p.check.Order? && |p.body| == 13 && Spawn in p.body[..11]
    requires Led(p, a, 12, 0, true, UpTo(7), [], [])
    ensures After(p, Init(p), a).started
  {
    EveryRunKeepsInvariant(p, a);
    StartedBy(p, After(p, Init(p), a));
    hide After, Init, Inv, Patient;
  }

  /** Up to the moment before the join: everything sent, the rules removed, the large messages first. */
  lemma LargeFirst(p: Plan, c: nat) returns (s: seq<Choice>)
    requires IsCase(p, c) && Cases(c).test.Threaded? && Load(p, UpTo(7)) <= p.room(SNDBUF)
    ensures p.Good() && !p.check.Order?
    ensures Led(p, s, 12, 3, false, [], [], [5, 6, 0, 1, 2, 3, 4])
  {
    hide IsCase, Plan.Good, Plan.Restores, Load, UpTo, Led, Sends, Dropped, Inv, Plan.Capacity;
    hide After, Init, Without, AtSocket, Patient, Cases;
    ThreadedCase(p, c);
    var a := Fills(p, 11);
    StartsThread(p, a);
    EveryRunKeepsInvariant(p, a);
    ThreadSteps(p, a, 12, 0, true, UpTo(7));
    ThreadSteps(p, a + [Cleaner], 12, 1, true, UpTo(7));
    ThreadSteps(p, a + [Cleaner] + [Cleaner], 12, 2, false, UpTo(7));
    var b := a + [Cleaner] + [Cleaner] + [Cleaner];
    SevenBuffered();
    Delivers(p, b, 12, 3, UpTo(7), [], 5);
    Delivers(p, b + [Deliver(5)], 12, 3, [0, 1, 2, 3, 4, 6], [] + [5], 5);
    var d := DeliversAll(p, b + [Deliver(5)] + [Deliver(5)], 12, 3, [0, 1, 2, 3, 4], [] + [5] + [6]);
    assert [] + [5] + [6] + [0, 1, 2, 3, 4] == [5, 6, 0, 1, 2, 3, 4];
    s := ReadsAll(p, d, 12, 3, [5, 6, 0, 1, 2, 3, 4], []);
    assert [] + [5, 6, 0, 1, 2, 3, 4] == [5, 6, 0, 1, 2, 3, 4];
  }

  lemma LargeFirstPasses(p: Plan, c: nat, w: World)
    requires IsCase(p, c) && Cases(c).test.Threaded? && Over(p, w) && w.read == [5, 6, 0, 1, 2, 3, 4]
    ensures w.cb.cb1 == 0
  {
    assert c < CASES;
    hide IsCase, Over, Cases;
    SevenMessages(c);
    FourTotalsExact(p, c, w);
    assert w.read[..4][0] == 5 && w.read[..4][1] == 6;
  }

  /**
   * In a buffer that takes all seven messages there is a run of either threaded case, by a client
   * that closes only when nothing else can move, in which nothing is given up and the server
   * returns 0.
   */
  lemma NothingGivenUpCanPass(p: Plan, c: nat) returns (s: seq<Choice>)
    requires IsCase(p, c) && Cases(c).test.Threaded? && Load(p, UpTo(7)) <= p.room(SNDBUF)
    ensures !p.check.Order? && Patient(p, s)
    ensures var w := After(p, Init(p), s);
            w.exited && w.gone == [] && w.read == [5, 6, 0, 1, 2, 3, 4] && w.cb.cb1 == 0
  {
    hide IsCase, Plan.Good, Plan.Restores, Load, UpTo, Led, Sends, Dropped, Inv, Over, After, Init, Patient, Cases;
    ThreadedCase(p, c);
    var a := LargeFirst(p, c);
    var b := LastCalls(p, a, [5, 6, 0, 1, 2, 3, 4]);
    s := CloseCalls(p, b, [5, 6, 0, 1, 2, 3, 4]);
    PatientRunsAreOver(p, s);
    LargeFirstPasses(p, c, After(p, Init(p), s));
  }
}
