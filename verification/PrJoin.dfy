/**
 * Why the threaded tests join.  A sender that displaces what yields to it gets through behind the
 * filter on its own; if it does not wait for the thread that removes the rules, it can send the
 * close command while they are still there.
 */
module PrJoin {
  import opened Sequences
  import opened Server
  import opened PrClient
  import opened PrWorld
  import opened PrInvariant
  import opened PrTheorems
  import opened PrProgress
  import opened PrPrograms
  import opened PrBlocking

  /** Send `k` fits beside all that does not leave for it. */
  ghost predicate RoomAlone(p: Plan, k: nat)
    requires k < |p.body| && p.body[k].Send?
  {
    Need(p, |Sends(p.body[..k])|, p.body[k].msg) + p.cost(p.body[k].msg.len) <= p.Capacity()
  }

  /** The main thread never waits for the other. */
  ghost predicate Unjoined(p: Plan) {
    && p.Good()
    && Join !in p.body
    && (forall k | 0 <= k < |p.body| && p.body[k].Send? :: RoomAlone(p, k))
  }

  /** At call `k` of the body, with the other thread not having moved. */
  ghost predicate Alone(p: Plan, w: World, k: nat) {
    w.pc == 1 + k && w.cleaner == 0
  }

  lemma MainGoesOn(p: Plan, w: World)
    requires Unjoined(p) && Inv(p, w) && 1 <= w.pc < 1 + |p.body|
    requires p.body[w.pc - 1].Send? ==> Fits(p, w, p.body[w.pc - 1].msg)
    ensures Enabled(p, w, Main)
  {
    ScriptAt(p, w.pc);
    CallsOfBody(p, w.pc - 1);
    assert p.body[w.pc - 1] in p.body;
    hide Plan.Script, Plan.Good, Inv, Fits;
  }

  lemma InOnePlace(p: Plan, w: World)
    requires Inv(p, w)
    ensures Conserved(w.accepted, w.buffer, w.read, w.inbox, w.gone)
  {
  }

  lemma SomethingCanLeave(p: Plan, w: World) returns (i: nat)
    requires Unjoined(p) && Inv(p, w) && 1 <= w.pc < 1 + |p.body| && p.body[w.pc - 1].Send?
    requires !Fits(p, w, p.body[w.pc - 1].msg)
    ensures i < |w.buffer| && Leaves(p.MsgOf(w.buffer[i]), p.body[w.pc - 1].msg)
  {
    hide Plan.Script, Load, Plan.Good, Stays, Plan.MsgOf, Yields, Inv, Leaves;
    var m := p.body[w.pc - 1].msg;
    assert RoomAlone(p, w.pc - 1);
    SendCapacity(p, w);
    InOnePlace(p, w);
    if forall i | 0 <= i < |w.buffer| :: !Leaves(p.MsgOf(w.buffer[i]), m) {
      OnlyStays(p, w, m);
      assert false;
    }
    i :| 0 <= i < |w.buffer| && Leaves(p.MsgOf(w.buffer[i]), m);
  }

  /** A blocked sender can make something leave. */
  lemma SomethingLeaves(p: Plan, w: World) returns (c: Choice)
    requires Unjoined(p) && Inv(p, w) && 1 <= w.pc < 1 + |p.body| && p.body[w.pc - 1].Send?
    requires !Fits(p, w, p.body[w.pc - 1].msg)
    ensures (c.Displace? || c.Expire?) && Enabled(p, w, c)
  {
    hide Plan.Script, Load, Plan.MsgOf, Yields, Inv, Unjoined, Fits;
    ScriptAt(p, w.pc);
    var i := SomethingCanLeave(p, w);
    c := if Yields(p.MsgOf(w.buffer[i]), p.body[w.pc - 1].msg) then Displace(i) else Expire(i);
  }

  lemma LeavingStep(p: Plan, w: World, c: Choice)
    requires !p.check.Order? && (c.Displace? || c.Expire?) && Enabled(p, w, c)
    ensures var v := Act(p, w, c); v.pc == w.pc && v.cleaner == w.cleaner && |v.buffer| == |w.buffer| - 1
  {
    hide Plan.Script, Plan.MsgOf, Load, Yields;
  }

  lemma MainStep(p: Plan, w: World)
    requires !p.check.Order? && Enabled(p, w, Main)
    ensures var v := Act(p, w, Main); v.pc == w.pc + 1 && v.cleaner == w.cleaner
  {
    hide Plan.Script, Plan.MsgOf, Load;
  }

  /** One call further, displacing as much as it takes. */
  lemma {:induction false} Pushes(p: Plan, s: seq<Choice>, k: nat) returns (t: seq<Choice>)
    requires Unjoined(p) && !p.check.Order? && k < |p.body| && Alone(p, After(p, Init(p), s), k)
    ensures Alone(p, After(p, Init(p), t), k + 1)
    decreases |After(p, Init(p), s).buffer|
  {
    hide After, Init, Act, Enabled, Inv, Plan.Good, Fits, RoomAlone;
    var w := After(p, Init(p), s);
    EveryRunKeepsInvariant(p, s);
    if p.body[k].Send? && !Fits(p, w, p.body[k].msg) {
      var c := SomethingLeaves(p, w);
      LeavingStep(p, w, c);
      AfterOne(p, s, c);
      t := Pushes(p, s + [c], k);
    } else {
      MainGoesOn(p, w);
      MainStep(p, w);
      AfterOne(p, s, Main);
      t := s + [Main];
    }
  }

  lemma FirstCall(p: Plan)
    requires !p.check.Order?
    ensures Alone(p, Act(p, Init(p), Main), 0)
  {
    ScriptAt(p, 0);
    hide Plan.Script;
  }

  lemma {:induction false} RunsAlone(p: Plan, k: nat) returns (t: seq<Choice>)
    requires Unjoined(p) && k <= |p.body|
    ensures !p.check.Order? && Alone(p, After(p, Init(p), t), k)
  {
    NoTable(p);
    if k == 0 {
      FirstCall(p);
      AfterOne(p, [], Main);
      t := [] + [Main];
    } else {
      hide After, Unjoined, Init;
      var s := RunsAlone(p, k - 1);
      t := Pushes(p, s, k - 1);
    }
  }

  lemma BehindTheFilter(p: Plan, w: World)
    requires !p.check.Order? && Inv(p, w) && Alone(p, w, |p.body|) && Dropped(p.body)
    ensures var v := Act(p, w, Main); v.pc == 2 + |p.body| && v.filter
  {
    assert p.body[..|p.body|] == p.body && p.clean[..0] == [];
    ScriptAt(p, w.pc);
    hide Plan.Script, Conserved, Counted, Explained, Roomed, Commanded;
  }

  /**
   * Any script that leaves its rules to the other thread, does not join it, and finds room by
   * displacing, has a run that sends the close command behind the filter.
   */
  lemma JoinIsNeeded(p: Plan) returns (schedule: seq<Choice>)
    requires Unjoined(p) && Dropped(p.body)
    ensures !p.check.Order?
    ensures var w := After(p, Init(p), schedule);
            w.pc == 2 + |p.body| && p.Script()[w.pc] == Command(CLOSE_ASOC) && w.filter
  {
    NoTable(p);
    var s := RunsAlone(p, |p.body|);
    var w := After(p, Init(p), s);
    EveryRunKeepsInvariant(p, s);
    AfterOne(p, s, Main);
    schedule := s + [Main];
    BehindTheFilter(p, w);
    ScriptAt(p, 2 + |p.body|);
    hide Plan.Script, Unjoined, After, Act;
  }

  // ---------------------------------------------------------------- the two threaded cases

  /** The calls of a test with the join left out. */
  function Unjoin(ops: seq<Op>): seq<Op> {
    if ops == [] then []
    else Unjoin(ops[..|ops| - 1]) + if ops[|ops| - 1] == Join then [] else [ops[|ops| - 1]]
  }

  ghost predicate UnjoinedScript(ops: seq<Op>, m: seq<Msg>) {
    && |m| == 7
    && ops == [SetSendBuffer(SNDBUF), DropData, Send(m[0]), Send(m[1]), Send(m[2]), Send(m[3]), Send(m[4]),
               Pause(10), Spawn, Send(m[5]), Send(m[6]), Pause(3)]
  }

  lemma UnjoinCopies(a: seq<Op>, op: Op)
    ensures Unjoin(a + [op]) == Unjoin(a) + if op == Join then [] else [op]
  {
    assert (a + [op])[..|a|] == a;
  }

  lemma {:induction false} UnjoinNothing(a: seq<Op>)
    requires Join !in a
    ensures Unjoin(a) == a
  {
    if a != [] {
      var n := |a| - 1;
      assert a == a[..n] + [a[n]];
      UnjoinNothing(a[..n]);
    }
  }

  lemma UnjoinThreaded(ops: seq<Op>, m: seq<Msg>)
    requires ThreadedScript(ops, m)
    ensures UnjoinedScript(Unjoin(ops), m)
  {
    hide Unjoin;
    var a := ops[..11];
    UnjoinNothing(a);
    UnjoinCopies(a, Join);
    UnjoinCopies(a + [Join], Pause(3));
    assert ops == a + [Join] + [Pause(3)];
    assert Unjoin(ops) == a + [Pause(3)];
  }

  lemma UnjoinedBody(ops: seq<Op>, m: seq<Msg>)
    requires UnjoinedScript(ops, m)
    ensures ThreadedPrefix(ops, m)
    ensures Upto(ops, 7, m[..5], true) && Upto(ops, 9, m[..5], true) && Upto(ops, 10, m[..6], true)
    ensures Sends(ops) == m && Dropped(ops)
  {
    hide Upto;
    PrefixUpto(ops, m);
    forall k | 0 <= k < 7
      ensures m[..k] + [m[k]] == m[..k + 1]
    {
    }
    NextSend(ops, 6, m[4], m[..4], true);
    Next(ops, 7, Pause(10), m[..5], true);
    Next(ops, 8, Spawn, m[..5], true);
    NextSend(ops, 9, m[5], m[..5], true);
    NextSend(ops, 10, m[6], m[..6], true);
    assert m[..7] == m;
    Next(ops, 11, Pause(3), m, true);
    End(ops, m, true);
  }

  lemma UnjoinedGood(p: Plan, m: seq<Msg>, v: int)
    requires UnjoinedScript(p.body, m) && ThreadedMsgs(m, v) && !p.check.Order? && p.clean == CleanOps(1)
    ensures p.Good() && Join !in p.body && FlushRules !in p.body && p.Capacity() == p.room(SNDBUF)
    ensures forall k | 0 <= k < |p.body| :: p.body[k].Send? <==> k in {2, 3, 4, 5, 6, 9, 10}
  {
    hide Sends, Dropped;
    assert p.body[8] == Spawn;
    assert forall k | 0 <= k <= 8 :: Spawn !in p.body[..k];
    forall i | 0 <= i < |p.body|
      ensures p.InBody(i)
    {
    }
  }

  /** What the large messages need: nothing buffered of their own value leaves for them. */
  lemma LargeNeeds(p: Plan, m: seq<Msg>, v: int)
    requires Sends(p.body) == m && ThreadedMsgs(m, v)
    ensures Need(p, 5, m[5]) == 2 * p.cost(1) && Need(p, 6, m[6]) == 2 * p.cost(1) + p.cost(1000)
  {
    hide Sends, Load, Stays, Need, Plan.MsgOf, Plan.Cost;
    forall i | 0 <= i < 7
      ensures p.MsgOf(i) == m[i] && p.Cost(i) == p.cost(m[i].len)
    {
      MsgsAre(p, m, i);
    }
    NeedNext(p, 0, m[5]);
    NeedNext(p, 1, m[5]);
    NeedNext(p, 2, m[5]);
    NeedNext(p, 3, m[5]);
    NeedNext(p, 4, m[5]);
    NeedNext(p, 0, m[6]);
    NeedNext(p, 1, m[6]);
    NeedNext(p, 2, m[6]);
    NeedNext(p, 3, m[6]);
    NeedNext(p, 4, m[6]);
    NeedNext(p, 5, m[6]);
  }

  lemma AloneIs(p: Plan, k: nat, sent: seq<Msg>, dropped: bool)
    requires k < |p.body| && p.body[k].Send? && Upto(p.body, k, sent, dropped)
    ensures RoomAlone(p, k) <==> Need(p, |sent|, p.body[k].msg) + p.cost(p.body[k].msg.len) <= p.Capacity()
  {
  }

  /** The room in which the script without the join gets through behind the filter. */
  ghost predicate Slips(p: Plan) {
    4 * p.cost(1) <= p.room(SNDBUF) && 2 * p.cost(1) + 2 * p.cost(1000) <= p.room(SNDBUF)
  }

  lemma SevenAlone(p: Plan, m: seq<Msg>, v: int)
    requires UnjoinedScript(p.body, m) && ThreadedMsgs(m, v) && Slips(p) && p.Capacity() == p.room(SNDBUF)
    requires Upto(p.body, 2, m[..0], true) && Upto(p.body, 3, m[..1], true) && Upto(p.body, 4, m[..2], true)
    requires Upto(p.body, 5, m[..3], true) && Upto(p.body, 6, m[..4], true)
    requires Upto(p.body, 9, m[..5], true) && Upto(p.body, 10, m[..6], true)
    requires Need(p, 0, m[0]) == 0 && Need(p, 1, m[1]) == 0
    requires Need(p, 2, m[2]) == 2 * p.cost(1) && Need(p, 3, m[3]) == 3 * p.cost(1) && Need(p, 4, m[4]) == p.cost(1)
    requires Need(p, 5, m[5]) == 2 * p.cost(1) && Need(p, 6, m[6]) == 2 * p.cost(1) + p.cost(1000)
    ensures forall k | k in {2, 3, 4, 5, 6, 9, 10} :: p.body[k].Send? && RoomAlone(p, k)
  {
    hide Upto, RoomAlone, Need, Plan.Capacity;
    AloneIs(p, 2, m[..0], true);
    AloneIs(p, 3, m[..1], true);
    AloneIs(p, 4, m[..2], true);
    AloneIs(p, 5, m[..3], true);
    AloneIs(p, 6, m[..4], true);
    AloneIs(p, 9, m[..5], true);
    AloneIs(p, 10, m[..6], true);
  }

  lemma SlipsAlone(p: Plan, m: seq<Msg>, v: int)
    requires UnjoinedScript(p.body, m) && ThreadedMsgs(m, v) && !p.check.Order? && p.clean == CleanOps(1) && Slips(p)
    ensures Unjoined(p) && Dropped(p.body)
  {
    UnjoinedGood(p, m, v);
    UnjoinedBody(p.body, m);
    PrefixUpto(p.body, m);
    SmallNeeds(p, m, v);
    LargeNeeds(p, m, v);
    hide Sends, Dropped, Load, Stays, Upto, RoomAlone, Need, Plan.Good, Plan.MsgOf, Plan.Capacity;
    SevenAlone(p, m, v);
  }

  // ---------------------------------------------------------------- and in no other room

  lemma UnjoinedFiltered(p: Plan, m: seq<Msg>, v: int)
    requires UnjoinedScript(p.body, m) && ThreadedMsgs(m, v) && !p.check.Order? && p.clean == CleanOps(1)
    ensures Filtered(p, |p.body|)
  {
    UnjoinedGood(p, m, v);
    UnjoinedBody(p.body, m);
    PrefixUpto(p.body, m);
    assert p.body[..|p.body|] == p.body;
    hide Sends, Dropped;
  }

  /** The messages of the smaller value never leave. */
  lemma SmallerValueFirm(p: Plan, m: seq<Msg>, v: int)
    requires Sends(p.body) == m && ThreadedMsgs(m, v)
    ensures AllFirm(p, [1, 4, 5, 6], 7)
    ensures Load(p, [1, 4, 5, 6]) == 2 * p.cost(1) + 2 * p.cost(1000)
  {
    hide Sends, Plan.MsgOf, Plan.Cost, Load, Firm;
    forall i | 0 <= i < 7
      ensures p.MsgOf(i) == m[i] && p.Cost(i) == p.cost(m[i].len)
    {
      MsgsAre(p, m, i);
    }
    FirmByValue(p, 1, 7);
    FirmByValue(p, 4, 7);
    FirmByValue(p, 5, 7);
    FirmByValue(p, 6, 7);
    LoadOne(p, 1);
    LoadOne(p, 4);
    LoadOne(p, 5);
    LoadOne(p, 6);
    LoadSplit(p, [1], [4]);
    LoadSplit(p, [1] + [4], [5]);
    LoadSplit(p, [1] + [4] + [5], [6]);
    assert [1] + [4] + [5] + [6] == [1, 4, 5, 6];
  }

  lemma WithinCapacity(p: Plan, w: World)
    requires Inv(p, w) && w.pc > 1 && |p.body| > 0
    ensures Load(p, w.buffer) <= p.Capacity()
  {
    hide Conserved, Counted, Explained, Commanded, Filtering, Load;
  }

  lemma AllAccepted(p: Plan, w: World)
    requires Inv(p, w) && w.pc >= 1 + |p.body|
    ensures w.accepted == |Sends(p.body)|
  {
    assert p.body[..|p.body|] == p.body;
    hide Conserved, Counted, Explained, Commanded, Filtering, Roomed;
  }

  lemma NothingCalled(p: Plan)
    ensures Init(p).pc == 0
  {
  }

  lemma FilterStaysOff(p: Plan, w: World, c: Choice)
    requires !p.check.Order? && w.accepted > 0 && !w.filter && w.pc >= 1 + |p.body|
    ensures var v := Act(p, w, c); v.accepted > 0 && !v.filter
  {
    ScriptAt(p, w.pc);
    hide Plan.Script, Plan.MsgOf, Load, Step, Without;
    match c {
      case Main =>
      case _ =>
    }
  }

  lemma LastHeldBackStep(p: Plan, w: World, c: Choice)
    requires p.Good() && Inv(p, w) && Filtered(p, |p.body|) && HeldBack(w) && !p.check.Order?
    requires 1 + |p.body| <= w.pc && Act(p, w, c).pc == 2 + |p.body|
    ensures HeldBack(Act(p, w, c))
  {
    ScriptAt(p, 1 + |p.body|);
    hide Plan.Script, Plan.Good, Inv, Filtered, NoneDelivered, Plan.MsgOf, Load;
    var v := Act(p, w, c);
    AtMostOneCall(p, w, c);
    if NoneDelivered(w) {
      DeliveryStep(p, w, c);
      if w.buffer != [] {
        BufferedWasAccepted(p, w);
      }
    } else {
      FilterStaysOff(p, w, c);
    }
  }

  /** At the close command with the rule still there, nothing has ever been delivered. */
  lemma {:induction false} EndIsHeldBack(p: Plan, s: seq<Choice>)
    requires p.Good() && Filtered(p, |p.body|)
    ensures !p.check.Order?
    ensures var w := After(p, Init(p), s); w.pc <= 2 + |p.body| ==> HeldBack(w)
  {
    NoTable(p);
    hide Act, Plan.Good, Inv, Filtered, HeldBack, Init;
    if s == [] {
      StartsHeldBack(p);
      NothingCalled(p);
    } else {
      var n := |s| - 1;
      var w := After(p, Init(p), s[..n]);
      EndIsHeldBack(p, s[..n]);
      EveryRunKeepsInvariant(p, s[..n]);
      AtMostOneCall(p, w, s[n]);
      if Act(p, w, s[n]).pc <= 1 + |p.body| {
        HeldBackStep(p, |p.body|, w, s[n]);
      } else if Act(p, w, s[n]).pc <= 2 + |p.body| {
        LastHeldBackStep(p, w, s[n]);
      }
    }
  }

  /** A run that has closed behind the filter still has all of them buffered. */
  lemma ClosedBehindIsFull(p: Plan, m: seq<Msg>, v: int, s: seq<Choice>)
    requires UnjoinedScript(p.body, m) && ThreadedMsgs(m, v) && !p.check.Order? && p.clean == CleanOps(1)
    requires var w := After(p, Init(p), s); w.pc == 2 + |p.body| && w.filter
    ensures 2 * p.cost(1) + 2 * p.cost(1000) <= p.room(SNDBUF)
  {
    UnjoinedGood(p, m, v);
    UnjoinedBody(p.body, m);
    UnjoinedFiltered(p, m, v);
    SmallerValueFirm(p, m, v);
    EveryRunKeepsInvariant(p, s);
    EveryRunIsPressed(p, s);
    EndIsHeldBack(p, s);
    var w := After(p, Init(p), s);
    AllAccepted(p, w);
    hide After, Init, Plan.Good, Load, Pressed, NoneDelivered, AllFirm, Filtered, Sends, Dropped;
    FirmLoad(p, w, [1, 4, 5, 6]);
    WithinCapacity(p, w);
  }

  lemma SmallOnesHold(p: Plan, m: seq<Msg>, v: int, s: seq<Choice>)
    requires ThreadedPrefix(p.body, m) && ThreadedMsgs(m, v) && Sends(p.body) == m && p.Good()
    ensures !p.check.Order?
    ensures 4 * p.cost(1) > p.room(SNDBUF) ==> After(p, Init(p), s).pc <= 6
  {
    NoTable(p);
    hide After, Init, Plan.Good, Sends, ThreadedPrefix;
    if 4 * p.cost(1) > p.room(SNDBUF) {
      var k := SmallOnesBlock(p, m, v);
      assert After(p, Init(p), s).pc <= 1 + k;
    }
  }

  /** A run that reaches the close command has had room for the four small messages. */
  lemma ReachingCloseNeedsRoom(p: Plan, m: seq<Msg>, v: int, s: seq<Choice>)
    requires UnjoinedScript(p.body, m) && ThreadedMsgs(m, v) && !p.check.Order? && p.clean == CleanOps(1)
    requires After(p, Init(p), s).pc == 2 + |p.body|
    ensures 4 * p.cost(1) <= p.room(SNDBUF)
  {
    UnjoinedGood(p, m, v);
    UnjoinedBody(p.body, m);
    hide After, Init, Plan.Good, Sends, Dropped, ThreadedPrefix;
    SmallOnesHold(p, m, v, s);
  }

  /** The threaded case `c` with the join left out. */
  ghost predicate IsUnjoinedCase(p: Plan, c: nat) {
    && c < CASES && Cases(c).test.Threaded?
    && p == PlanOf(c, p.cost, p.room, p.initial).(body := Unjoin(BodyOps(Cases(c))))
  }

  lemma UnjoinedCaseIs(p: Plan, c: nat)
    requires IsUnjoinedCase(p, c)
    ensures UnjoinedScript(p.body, Msgs(Cases(c))) && ThreadedMsgs(Msgs(Cases(c)), 2)
    ensures !p.check.Order? && p.clean == CleanOps(1)
  {
    ScriptsLaid(Cases(c));
    hide BodyOps, Unjoin;
    UnjoinThreaded(BodyOps(Cases(c)), Msgs(Cases(c)));
  }

  /**
   * The threaded cases need their join: without it, some run sends the close command behind the
   * filter if and only if the four small messages of the first part fit the send buffer together,
   * and so do the four messages of the smaller value.
   */
  lemma ThreadedNeedsJoin(p: Plan, c: nat)
    requires IsUnjoinedCase(p, c)
    ensures !p.check.Order?
    ensures (exists s: seq<Choice> :: var w := After(p, Init(p), s); w.pc == 2 + |p.body| && w.filter) <==> Slips(p)
    ensures p.Script()[2 + |p.body|] == Command(CLOSE_ASOC)
  {
    assert c < CASES;
    hide IsUnjoinedCase, UnjoinedScript, ThreadedMsgs, After, Init, Cases, Msgs, Unjoined;
    UnjoinedCaseIs(p, c);
    ScriptAt(p, 2 + |p.body|);
    var m := Msgs(Cases(c));
    if Slips(p) {
      SlipsAlone(p, m, 2);
      var s := JoinIsNeeded(p);
    }
    forall s: seq<Choice> | var w := After(p, Init(p), s); w.pc == 2 + |p.body| && w.filter
      ensures Slips(p)
    {
      ClosedBehindIsFull(p, m, 2, s);
      ReachingCloseNeedsRoom(p, m, 2, s);
    }
  }
}
