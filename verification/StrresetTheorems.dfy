/** Whole runs of the reset program, under every schedule and every answer to the resets. */
module StrresetTheorems {
  import opened Sequences
  import opened Server
  import opened Verdicts
  import opened SsnChannel
  import opened StrresetClient
  import opened StrresetWorld

  lemma StepKeepsInvariant(p: Plan, w: World, c: Choice)
    requires p.Good() && WorldInv(p, w)
    ensures WorldInv(p, Act(p, w, c))
  {
    hide WorldInv, Plan.Good;
    if Enabled(p, w, c) {
      match c {
        case Client(taken) => ClientKeeps(p, w, taken);
        case Net(s) => NetKeeps(p, w, s);
        case Carry => CarryKeeps(p, w);
        case Serve(n, now) => ServeKeeps(p, w, n, now);
      }
    }
  }

  lemma OpenChannel()
    ensures Inv(Open())
  {
  }

  lemma StartsWell(p: Plan)
    requires p.Good()
    ensures WorldInv(p, Init())
  {
    assert p.body[..0] == [];
    hide Inv, Piece;
    OpenChannel();
  }

  lemma {:induction false} EveryRunKeepsInvariant(p: Plan, schedule: seq<Choice>)
    requires p.Good()
    ensures WorldInv(p, After(p, Init(), schedule))
  {
    hide WorldInv, Plan.Good, Act;
    StartsWell(p);
    if schedule != [] {
      var n := |schedule| - 1;
      EveryRunKeepsInvariant(p, schedule[..n]);
      StepKeepsInvariant(p, After(p, Init(), schedule[..n]), schedule[n]);
    }
  }

  // ---------------------------------------------------------------- exactly once, in order

  lemma {:induction false} SentGrows(ops: seq<Op>, k: nat)
    requires k <= |ops|
    ensures Sent(ops[..k]) <= Sent(ops)
  {
    if k < |ops| {
      SentGrows(ops[..|ops| - 1], k);
      assert ops[..|ops| - 1][..k] == ops[..k];
    } else {
      assert ops[..k] == ops;
    }
  }

  lemma Bounds(p: Plan, w: World)
    requires p.Good() && WorldInv(p, w)
    ensures |w.chan.delivered| <= w.chan.accepted <= p.expected
    ensures w.chan.delivered == UpTo(|w.chan.delivered|)
    ensures Positive(w.seen)
    ensures Sum(w.seen) + Unread(w.inbox) == Times(|w.chan.delivered|, p.len) <= Times(p.expected, p.len)
    ensures w.cb == Fold(p.Check(), Start(1), w.seen)
  {
    SentGrows(p.body, Done(p, w.pc));
    TimesGrows(|w.chan.delivered|, p.expected, p.len);
    hide Fold, Times, Sum, Unread;
  }

  /**
   * Whatever the number of messages, wherever resets are asked for and however they are answered,
   * whatever is held back for how long: the association hands over message 0, 1, 2, ... once each,
   * and every byte handed over is counted or still waiting to be read.
   */
  lemma ExactlyOnceInOrder(p: Plan, schedule: seq<Choice>)
    requires p.Good()
    ensures var w := After(p, Init(), schedule);
            && w.chan.delivered == UpTo(|w.chan.delivered|)
            && |w.chan.delivered| <= w.chan.accepted <= p.expected
            && AllRecv(w.seen)
            && Sum(w.seen) + Unread(w.inbox) == Times(|w.chan.delivered|, p.len)
  {
    hide WorldInv, Plan.Good, After, Sum, Unread, Times;
    EveryRunKeepsInvariant(p, schedule);
    Bounds(p, After(p, Init(), schedule));
  }

  /** Everything the script sends has been handed over and read. */
  ghost predicate Drained(p: Plan, w: World) {
    |w.chan.delivered| == p.expected && Unread(w.inbox) == 0
  }

  lemma VerdictOf(p: Plan, w: World)
    requires p.Good() && p.expected > 0 && WorldInv(p, w)
    ensures w.cb.cb1 == 0 <==> Drained(p, w)
  {
    Bounds(p, w);
    TimesGrows(|w.chan.delivered|, p.expected, p.len);
    TimesGrows(0, p.expected, p.len);
    LenPositive(p);
    hide WorldInv, Plan.Good, Unread;
    if w.seen != [] {
      TotalVerdictExact(p.Check().target, w.seen);
    }
  }

  /** At every moment of every run the verdict is 0 if and only if everything has been read. */
  lemma VerdictMeansDrained(p: Plan, schedule: seq<Choice>)
    requires p.Good() && p.expected > 0
    ensures var w := After(p, Init(), schedule);
            w.cb.cb1 == 0 <==> Drained(p, w)
  {
    hide WorldInv, Plan.Good, After, Drained;
    EveryRunKeepsInvariant(p, schedule);
    VerdictOf(p, After(p, Init(), schedule));
  }

  // ---------------------------------------------------------------- nothing gets stuck

  /** Another copy of a message that has arrived. */
  predicate Repeats(c: Choice) {
    c.Net? && c.step.Repeat?
  }

  /** Nothing but the client can move, apart from copies. */
  ghost predicate Idle(p: Plan, w: World) {
    forall c: Choice | !c.Client? && !Repeats(c) :: !Enabled(p, w, c)
  }

  ghost predicate Stuck(p: Plan, w: World) {
    forall c: Choice | !Repeats(c) :: !Enabled(p, w, c)
  }

  /** A copy has no effect, so that it does not matter how many there are. */
  lemma CopiesChangeNothing(p: Plan, w: World, c: Choice)
    requires p.Good() && WorldInv(p, w) && Repeats(c)
    ensures Act(p, w, c) == w
  {
    hide Plan.Script, Plan.Good, Take, BytesKept, SentSoFar, Commanded, Inv;
    if Enabled(p, w, c) {
      CopyIsIgnored(w.chan, c.step.id);
      assert w.inbox + [] == w.inbox;
    }
  }

  lemma ReleaseMoves(p: Plan, w: World)
    requires Inv(w.chan) && w.chan.flight == {}
    ensures var c := w.chan;
            c.tx > |c.delivered| ==> Enabled(p, w, Net(Release(Carrier(c.senderBase, |c.delivered|))))
  {
    if w.chan.tx > |w.chan.delivered| {
      OutstandingMoves(w.chan);
    }
  }

  lemma InTransit(c: Channel)
    requires Inv(c)
    ensures |c.delivered| <= c.tx <= c.accepted
  {
  }

  lemma ChannelDrains(p: Plan, w: World)
    requires p.Good() && WorldInv(p, w) && w.filter.Clear() && Idle(p, w)
    ensures |w.chan.delivered| == w.chan.accepted
    ensures w.wire == [] && w.chan.reset == NoReset
  {
    hide Plan.Good, Commanded, BytesKept, SentSoFar, Take, Inv;
    var c := w.chan;
    assert !Enabled(p, w, Carry);
    assert forall q | q in c.flight :: Enabled(p, w, Net(Arrive(q)));
    assert c.flight == {};
    InTransit(c);
    ReleaseMoves(p, w);
    assert !Enabled(p, w, Net(Deny)) && !Enabled(p, w, Net(Confirm)) && !Enabled(p, w, Net(Transmit));
  }

  lemma HeadServes(p: Plan, w: World)
    requires WorldInv(p, w)
    ensures w.inbox != [] && !w.exited ==> Enabled(p, w, Serve(1, 0))
  {
    hide Plan.Good, Commanded, SentSoFar, Inv, Fold, Sum;
    assert w.inbox != [] ==> w.inbox[0] in w.inbox;
  }

  lemma SocketDrains(p: Plan, w: World)
    requires p.Good() && WorldInv(p, w) && Idle(p, w) && !w.exited
    ensures w.inbox == [] && Unread(w.inbox) == 0
  {
    hide Plan.Good, WorldInv, Enabled;
    HeadServes(p, w);
    assert !Enabled(p, w, Serve(1, 0));
  }

  lemma FilterAtEnds(p: Plan, w: World)
    requires p.Good() && WorldInv(p, w) && (w.pc <= 3 || w.pc >= 3 + |p.body|)
    ensures w.filter.Clear()
    ensures w.pc >= 3 + |p.body| ==> w.chan.accepted == p.expected
  {
    assert p.body[..0] == [] && p.body[..|p.body|] == p.body;
    hide Inv, BytesKept, Commanded;
  }

  /** The close command is sent with no rule installed, in every run of every script. */
  lemma ClosedWithoutRules(p: Plan, schedule: seq<Choice>)
    requires p.Good()
    ensures var w := After(p, Init(), schedule);
            w.pc >= 3 + |p.body| ==> w.filter.Clear()
  {
    hide WorldInv, Plan.Good, After;
    EveryRunKeepsInvariant(p, schedule);
    var w := After(p, Init(), schedule);
    if w.pc >= 3 + |p.body| {
      FilterAtEnds(p, w);
    }
  }

  /** While the client waits for an answer, the command or the answer is on its way. */
  lemma WaitingEnds(p: Plan, w: World)
    requires p.Good() && WorldInv(p, w) && (w.pc == 2 || w.pc == |p.body| + 4)
    ensures !Stuck(p, w)
  {
    FilterAtEnds(p, w);
    ScriptAt(p, w.pc);
    HeadServes(p, w);
    hide Plan.Good, SentSoFar, Inv, Fold, Sum, Plan.Script, Piece;
    assert w.acks > 0 ==> Enabled(p, w, Client(false));
    assert w.wire != [] ==> Enabled(p, w, Carry);
    assert w.acks == 0 && w.wire == [] ==> Enabled(p, w, Serve(1, 0));
  }

  lemma CallsOfBody(p: Plan, pc: nat)
    requires p.Good() && pc < |p.Script()|
    ensures 3 <= pc < 3 + |p.body| ==> InBody(p.Script()[pc], p.len)
  {
    ScriptAt(p, pc);
    if 3 <= pc < 3 + |p.body| {
      assert p.body[pc - 3] in p.body;
    }
  }

  lemma BodyNeverWaits(p: Plan, pc: nat)
    requires p.Good() && pc < |p.Script()| && p.Script()[pc] == AwaitAck
    ensures pc == 2 || pc == |p.body| + 4
  {
    ScriptAt(p, pc);
    CallsOfBody(p, pc);
    hide Plan.Script, Plan.Good;
  }

  lemma StuckAtEnd(p: Plan, w: World)
    requires p.Good() && WorldInv(p, w) && Stuck(p, w)
    ensures w.exited && w.pc == |p.Script()| == |p.body| + 5
  {
    ScriptAt(p, w.pc);
    assert !Enabled(p, w, Client(false));
    if w.pc < |p.Script()| {
      BodyNeverWaits(p, w.pc);
      WaitingEnds(p, w);
    }
    hide Plan.Script, Inv, BytesKept, SentSoFar, Plan.Good;
  }

  /**
   * When no one can move, the client has finished, the server has exited, and the association has
   * handed over every message, once and in order.
   */
  lemma StuckIsFinal(p: Plan, schedule: seq<Choice>)
    requires p.Good()
    ensures var w := After(p, Init(), schedule);
            Stuck(p, w) ==> w.exited && w.pc == |p.Script()| && w.chan.delivered == UpTo(p.expected)
  {
    hide WorldInv, Plan.Good, After, Enabled;
    EveryRunKeepsInvariant(p, schedule);
    var w := After(p, Init(), schedule);
    if Stuck(p, w) {
      StuckAtEnd(p, w);
      FilterAtEnds(p, w);
      ChannelDrains(p, w);
      Bounds(p, w);
    }
  }

  // ---------------------------------------------------------------- no run goes on for ever

  function Weight(op: Op): nat {
    match op
    case Send(len) => 4 + len
    case Reset(_) => 3
    case Command(_) => 3
    case _ => 1
  }

  function Work(script: seq<Op>, pc: nat): nat
    decreases |script| - pc
  {
    if pc >= |script| then 0 else Weight(script[pc]) + Work(script, pc + 1)
  }

  function ResetWork(r: ResetState): nat {
    match r case NoReset => 0 case Requested => 2 case Performed => 1
  }

  function ChannelWork(c: Channel): int {
    3 * (c.accepted - c.tx) + 2 * |c.flight| + |c.held| + ResetWork(c.reset)
  }

  /** Work left: calls, transmissions, arrivals, releases, resets, commands, and bytes to read. */
  ghost function Measure(p: Plan, w: World): int {
    Work(p.Script(), w.pc) + ChannelWork(w.chan) + 2 * |w.wire| + |Tags(w.inbox)|
    + Times(w.chan.accepted, p.len) - if AllRecv(w.seen) then Sum(w.seen) else 0
  }

  lemma ChannelWorks(c: Channel, s: Step)
    requires CanStep(c, s) && !s.Accept? && !s.Request? && !s.Repeat?
    ensures ChannelWork(Take(c, s)) < ChannelWork(c)
  {
    var d := Take(c, s);
    match s {
      case Transmit =>
        assert |d.flight| <= |c.flight| + 1;
      case Arrive(p) =>
        assert |d.flight| == |c.flight| - 1;
        assert |d.held| <= |c.held| + 1;
      case Release(p) =>
        assert |d.held| == |c.held| - 1;
      case _ =>
    }
  }

  /** A message sent anywhere in the script has the plan's length. */
  lemma CallsKnown(p: Plan, pc: nat)
    requires p.Good() && pc < |p.Script()|
    ensures p.Script()[pc].Send? ==> p.Script()[pc].len == p.len
  {
    ScriptAt(p, pc);
    CallsOfBody(p, pc);
    hide Plan.Script, Plan.Good;
  }

  lemma CallsAddWork(c: Channel)
    ensures ChannelWork(Take(c, Accept)) == ChannelWork(c) + 3 && Take(c, Accept).accepted == c.accepted + 1
    ensures CanStep(c, Request) ==>
              ChannelWork(Take(c, Request)) == ChannelWork(c) + 2 && Take(c, Request).accepted == c.accepted
  {
  }

  lemma ClientWorks(p: Plan, w: World, taken: bool)
    requires p.Good() && WorldInv(p, w) && Enabled(p, w, Client(taken))
    ensures Measure(p, Act(p, w, Client(taken))) < Measure(p, w)
  {
    hide Plan.Script, WorldInv, Sum, Tags, Sent, FilterAfter, Filtered, Plan.Good, Take, CanStep, ChannelWork;
    CallsOfBody(p, w.pc);
    CallsKnown(p, w.pc);
    CallsAddWork(w.chan);
  }

  lemma ChannelOf(p: Plan, w: World)
    requires WorldInv(p, w)
    ensures Inv(w.chan)
  {
  }

  lemma NetWorks(p: Plan, w: World, s: Step)
    requires p.Good() && WorldInv(p, w) && Enabled(p, w, Net(s)) && !s.Repeat?
    ensures Measure(p, Act(p, w, Net(s))) < Measure(p, w)
  {
    hide Plan.Script, Sum, Tags, WorldInv, Plan.Good, Take, ChannelWork, Work, Times, Inv;
    ChannelWorks(w.chan, s);
    InboxGrows(w.inbox, Rest(p.len));
    assert w.inbox + [] == w.inbox;
    ChannelOf(p, w);
    DeliversOneOrNone(w.chan, s);
  }

  lemma ServeWorks(p: Plan, w: World, n: nat, now: int)
    requires p.Good() && WorldInv(p, w) && Enabled(p, w, Serve(n, now))
    ensures Measure(p, Act(p, w, Serve(n, now))) < Measure(p, w)
  {
    Bounds(p, w);
    hide Plan.Script, Sum, Tags, WorldInv, Plan.Good, ChannelWork, Work, Times, TakenOff, Plan.Check;
    InboxHead(w.inbox);
    if w.inbox[0].Rest? {
      TakenOffCounts(w.inbox, n);
      FoldOne(0, w.seen, Recv(1, n, now));
    }
  }

  lemma CarryWorks(p: Plan, w: World)
    requires Enabled(p, w, Carry)
    ensures Measure(p, Act(p, w, Carry)) < Measure(p, w)
  {
    hide Plan.Script, Sum, Tags, ChannelWork, Work, Times;
    InboxGrows(w.inbox, Tag(w.wire[0]));
  }

  /** Every step but a copy uses up some of the work, whatever the stack answers. */
  lemma EnabledStepsCount(p: Plan, w: World, c: Choice)
    requires p.Good() && WorldInv(p, w) && Enabled(p, w, c) && !Repeats(c)
    ensures Measure(p, Act(p, w, c)) < Measure(p, w)
  {
    hide Measure, WorldInv, Plan.Good, Act, Enabled;
    match c {
      case Client(taken) => ClientWorks(p, w, taken);
      case Net(s) => NetWorks(p, w, s);
      case Carry => CarryWorks(p, w);
      case Serve(n, now) => ServeWorks(p, w, n, now);
    }
  }

  lemma MeasureIsNatural(p: Plan, w: World)
    requires p.Good() && WorldInv(p, w)
    ensures Measure(p, w) >= 0
  {
    Bounds(p, w);
    TimesGrows(|w.chan.delivered|, w.chan.accepted, p.len);
    InTransit(w.chan);
    hide Plan.Script, Sum, Tags, Work, Times, Unread, Inv, Plan.Good, BytesKept;
  }

  /** How many steps of a schedule, copies apart, found their component able to move. */
  ghost function Moves(p: Plan, schedule: seq<Choice>): nat {
    if schedule == [] then 0
    else
      var n := |schedule| - 1;
      Moves(p, schedule[..n])
      + if Enabled(p, After(p, Init(), schedule[..n]), schedule[n]) && !Repeats(schedule[n]) then 1 else 0
  }

  lemma {:induction false} MovesAreBounded(p: Plan, schedule: seq<Choice>)
    requires p.Good()
    ensures Moves(p, schedule) <= Measure(p, Init()) - Measure(p, After(p, Init(), schedule))
    ensures Moves(p, schedule) <= Measure(p, Init())
  {
    hide Enabled, Measure, Plan.Good, WorldInv, SsnChannel.Take, ServeMove, ClientMove;
    EveryRunKeepsInvariant(p, schedule);
    MeasureIsNatural(p, After(p, Init(), schedule));
    if schedule != [] {
      var n := |schedule| - 1;
      var w := After(p, Init(), schedule[..n]);
      MovesAreBounded(p, schedule[..n]);
      EveryRunKeepsInvariant(p, schedule[..n]);
      if Repeats(schedule[n]) {
        CopiesChangeNothing(p, w, schedule[n]);
      } else if Enabled(p, w, schedule[n]) {
        EnabledStepsCount(p, w, schedule[n]);
      }
    }
  }

  // ---------------------------------------------------------------- closing early, closing late

  /** The client sends the close command only when nothing else can move any more. */
  ghost predicate Patient(p: Plan, schedule: seq<Choice>) {
    forall i | 0 <= i < |schedule| && schedule[i].Client? ::
      var w := After(p, Init(), schedule[..i]);
      w.pc == 3 + |p.body| ==> Idle(p, w)
  }

  lemma IdleIsDrained(p: Plan, w: World)
    requires p.Good() && WorldInv(p, w) && w.pc == 3 + |p.body| && Idle(p, w)
    ensures Drained(p, w)
  {
    FilterAtEnds(p, w);
    ChannelDrains(p, w);
    assert !w.exited;
    SocketDrains(p, w);
    hide Plan.Good, WorldInv;
  }

  lemma SeenGrows(p: Plan, w: World, c: Choice)
    requires Positive(w.seen)
    ensures var v := Act(p, w, c); Positive(v.seen) && Sum(v.seen) >= Sum(w.seen)
  {
    hide Plan.Script, SsnChannel.Take, TakenOff;
    if c.Serve? && Enabled(p, w, c) && w.inbox[0].Rest? {
      FoldOne(0, w.seen, Recv(1, c.n, c.now));
    }
  }

  lemma DrainedStays(p: Plan, w: World, c: Choice)
    requires p.Good() && WorldInv(p, w) && Drained(p, w)
    ensures Drained(p, Act(p, w, c))
  {
    var v := Act(p, w, c);
    hide WorldInv, Plan.Good, Act;
    StepKeepsInvariant(p, w, c);
    Bounds(p, w);
    Bounds(p, v);
    SeenGrows(p, w, c);
    TimesGrows(|v.chan.delivered|, p.expected, p.len);
    LenPositive(p);
  }

  lemma AtMostOneCall(p: Plan, w: World, c: Choice)
    ensures var v := Act(p, w, c); v.pc == w.pc || (c.Client? && v.pc == w.pc + 1)
  {
  }

  lemma ExitIsLate(p: Plan, w: World)
    requires WorldInv(p, w)
    ensures w.exited ==> w.pc > 3 + |p.body|
  {
    hide Inv, BytesKept, SentSoFar;
  }

  /** With patience every reset test passes: the server that exits returns 0. */
  lemma {:induction false} PatientRunsPass(p: Plan, schedule: seq<Choice>)
    requires p.Good() && p.expected > 0 && Patient(p, schedule)
    ensures var w := After(p, Init(), schedule);
            && (w.pc > 3 + |p.body| ==> Drained(p, w))
            && (w.exited ==> w.cb.cb1 == 0)
  {
    hide WorldInv, Plan.Good, Act, Drained, Idle;
    EveryRunKeepsInvariant(p, schedule);
    var w := After(p, Init(), schedule);
    if schedule != [] {
      var n := |schedule| - 1;
      var before, c := schedule[..n], schedule[n];
      assert forall i | 0 <= i < n :: before[i] == schedule[i] && before[..i] == schedule[..i];
      PatientRunsPass(p, before);
      var v := After(p, Init(), before);
      EveryRunKeepsInvariant(p, before);
      AtMostOneCall(p, v, c);
      if w.pc > 3 + |p.body| {
        if v.pc == 3 + |p.body| {
          IdleIsDrained(p, v);
        }
        DrainedStays(p, v, c);
      }
    }
    VerdictOf(p, w);
    ExitIsLate(p, w);
  }

  // ---------------------------------------------------------------- only the last message overtaken

  /** The arrival of the last message of the script. */
  predicate LastArrives(p: Plan, c: Choice) {
    c.Net? && c.step.Arrive? && c.step.p.id + 1 == p.expected
  }

  /** Nothing can move but the client, copies, and the last message of the script. */
  ghost predicate AllButLast(p: Plan, w: World) {
    forall c: Choice | !c.Client? && !Repeats(c) && !LastArrives(p, c) :: !Enabled(p, w, c)
  }

  /** The client moves only then: it waits for everything except the last message. */
  ghost predicate Unhurried(p: Plan, schedule: seq<Choice>) {
    forall i | 0 <= i < |schedule| && schedule[i].Client? :: AllButLast(p, After(p, Init(), schedule[..i]))
  }

  /** The last message has not arrived. */
  ghost predicate Withheld(p: Plan, c: Channel) {
    |c.delivered| < p.expected && forall q | q in c.held :: q.id + 1 != p.expected
  }

  lemma AfterOne(p: Plan, s: seq<Choice>, c: Choice)
    ensures After(p, Init(), s + [c]) == Act(p, After(p, Init(), s), c)
  {
    assert (s + [c])[..|s|] == s;
  }

  lemma UnhurriedGrows(p: Plan, s: seq<Choice>, c: Choice)
    requires Unhurried(p, s) && (c.Client? ==> AllButLast(p, After(p, Init(), s)))
    ensures Unhurried(p, s + [c])
  {
    hide AllButLast, After;
    var t := s + [c];
    forall i | 0 <= i < |t| && t[i].Client?
      ensures AllButLast(p, After(p, Init(), t[..i]))
    {
      if i < |s| {
        assert t[..i] == s[..i] && t[i] == s[i];
      } else {
        assert t[..i] == s;
      }
    }
  }

  lemma ChannelStaysWithheld(p: Plan, c: Channel, s: Step)
    requires Inv(c) && CanStep(c, s) && Withheld(p, c) && (s.Arrive? ==> s.p.id + 1 != p.expected)
    ensures Withheld(p, Take(c, s))
  {
    match s {
      case Arrive(q) => ExpectedIsNext(c, q);
      case Release(q) => ExpectedIsNext(c, q);
      case Repeat(id) => CopyIsIgnored(c, id);
      case _ =>
    }
    hide Inv;
  }

  lemma StaysWithheld(p: Plan, w: World, c: Choice)
    requires p.Good() && WorldInv(p, w) && Withheld(p, w.chan) && !LastArrives(p, c)
    ensures Withheld(p, Act(p, w, c).chan)
  {
    hide Plan.Script, Plan.Good, Take, BytesKept, SentSoFar, Commanded, Inv, Withheld, TakenOff, Server.Step;
    if Enabled(p, w, c) {
      match c {
        case Net(s) => ChannelStaysWithheld(p, w.chan, s);
        case Client(_) =>
          ChannelStaysWithheld(p, w.chan, Accept);
          if CanStep(w.chan, Request) {
            ChannelStaysWithheld(p, w.chan, Request);
          }
        case _ =>
      }
    }
  }

  lemma OnlyClientCalls(p: Plan, w: World, c: Choice)
    requires !c.Client?
    ensures Act(p, w, c).pc == w.pc
  {
    hide Plan.Script, Take, TakenOff, Server.Step;
  }

  /** Letting everything but the last message happen takes finitely many steps, none the client's. */
  lemma {:induction false} SettlesButLast(p: Plan, s: seq<Choice>) returns (t: seq<Choice>)
    requires p.Good() && Unhurried(p, s) && Withheld(p, After(p, Init(), s).chan)
    ensures Unhurried(p, t)
    ensures var w := After(p, Init(), t);
            w.pc == After(p, Init(), s).pc && AllButLast(p, w) && Withheld(p, w.chan)
    decreases Measure(p, After(p, Init(), s))
  {
    hide Measure, WorldInv, Plan.Good, Act, Enabled, Unhurried, Withheld, After;
    var w := After(p, Init(), s);
    EveryRunKeepsInvariant(p, s);
    if AllButLast(p, w) {
      t := s;
    } else {
      var c: Choice :| !c.Client? && !Repeats(c) && !LastArrives(p, c) && Enabled(p, w, c);
      AfterOne(p, s, c);
      UnhurriedGrows(p, s, c);
      EnabledStepsCount(p, w, c);
      StaysWithheld(p, w, c);
      OnlyClientCalls(p, w, c);
      EveryRunKeepsInvariant(p, s + [c]);
      MeasureIsNatural(p, After(p, Init(), s + [c]));
      t := SettlesButLast(p, s + [c]);
    }
  }

  /** Then the socket and the wire are empty, as long as the server is there and no rule holds back. */
  lemma NothingOfTheRest(p: Plan, w: World)
    requires p.Good() && WorldInv(p, w) && AllButLast(p, w) && !w.exited && w.filter.Clear()
    ensures w.inbox == [] && w.wire == []
  {
    HeadServes(p, w);
    hide WorldInv, Plan.Good;
    assert !Enabled(p, w, Carry) && !Enabled(p, w, Serve(1, 0));
  }

  /** The client's next call can be made. */
  lemma ClientGoesOn(p: Plan, w: World)
    requires p.Good() && WorldInv(p, w) && AllButLast(p, w) && w.pc < 4 + |p.body|
    ensures Enabled(p, w, Client(true))
  {
    ScriptAt(p, w.pc);
    if w.pc == 2 {
      FilterAtEnds(p, w);
      NothingOfTheRest(p, w);
    } else if p.Script()[w.pc] == AwaitAck {
      BodyNeverWaits(p, w.pc);
    }
    hide Plan.Script, Plan.Good, Inv, BytesKept, SentSoFar, AllButLast;
  }

  lemma ClientCalls(p: Plan, w: World)
    requires Enabled(p, w, Client(true))
    ensures Act(p, w, Client(true)).pc == w.pc + 1
  {
    hide Plan.Script, Take;
  }

  lemma NoneYet(p: Plan)
    requires p.expected > 0
    ensures Unhurried(p, []) && Withheld(p, Init().chan) && Init().pc == 0
  {
  }

  lemma {:induction false} RunsUnhurried(p: Plan, k: nat) returns (schedule: seq<Choice>)
    requires p.Good() && p.expected > 0 && k <= 3 + |p.body|
    ensures Unhurried(p, schedule)
    ensures var w := After(p, Init(), schedule);
            w.pc == k && AllButLast(p, w) && Withheld(p, w.chan)
  {
    hide WorldInv, Plan.Good, Act, Enabled, Unhurried, AllButLast, Withheld;
    if k == 0 {
      NoneYet(p);
      schedule := SettlesButLast(p, []);
    } else {
      var s := RunsUnhurried(p, k - 1);
      var w := After(p, Init(), s);
      EveryRunKeepsInvariant(p, s);
      ClientGoesOn(p, w);
      ClientCalls(p, w);
      AfterOne(p, s, Client(true));
      UnhurriedGrows(p, s, Client(true));
      StaysWithheld(p, w, Client(true));
      schedule := SettlesButLast(p, s + [Client(true)]);
    }
  }

  lemma QuietButLast(p: Plan, w: World)
    requires p.Good() && WorldInv(p, w) && AllButLast(p, w) && w.filter.Clear()
    ensures var c := w.chan;
            && (forall q | q in c.flight :: q.id + 1 == p.expected)
            && (forall q | q in c.held :: q.ssn != c.due)
            && (c.reset == NoReset ==> c.tx == c.accepted || c.tx >= |c.delivered| + HALF)
            && c.reset != Performed
            && (c.reset == Requested ==> c.tx > |c.delivered|)
  {
    hide Plan.Good, Commanded, BytesKept, SentSoFar, Take;
    var c := w.chan;
    assert forall q | q in c.flight && q.id + 1 != p.expected :: Enabled(p, w, Net(Arrive(q)));
    assert forall q | q in c.held && q.ssn == c.due :: Enabled(p, w, Net(Release(q)));
    assert !Enabled(p, w, Net(Confirm)) && !Enabled(p, w, Net(Deny)) && !Enabled(p, w, Net(Transmit));
  }

  lemma OneOutstanding(p: Plan, c: Channel)
    requires Inv(c) && c.accepted == p.expected && Withheld(p, c)
    requires forall q | q in c.flight :: q.id + 1 == p.expected
    requires forall q | q in c.held :: q.ssn != c.due
    requires c.reset == NoReset ==> c.tx == c.accepted || c.tx >= |c.delivered| + HALF
    requires c.reset != Performed && (c.reset == Requested ==> c.tx > |c.delivered|)
    ensures |c.delivered| + 1 == p.expected
    ensures c.held == {} && c.flight == {Carrier(c.senderBase, p.expected - 1)}
  {
    var d := |c.delivered|;
    assert d < c.tx;
    var next := Carrier(c.senderBase, d);
    assert next in c.flight + c.held;
    ExpectedIsNext(c, next);
    assert next in c.flight;
    assert c.tx == p.expected && d + 1 == p.expected;
    assert forall q | q in c.held :: q in c.flight + c.held && q == next;
    assert forall q | q in c.flight :: q == next;
  }

  /** Before the close command everything has been read except the last message, which is in flight. */
  lemma OnlyTheLastIsOut(p: Plan, w: World)
    requires p.Good() && WorldInv(p, w) && w.pc == 3 + |p.body| && AllButLast(p, w) && Withheld(p, w.chan)
    ensures |w.chan.delivered| + 1 == p.expected && w.inbox == [] && w.wire == [] && w.filter.Clear()
    ensures w.chan.held == {} && w.chan.flight == {Carrier(w.chan.senderBase, p.expected - 1)}
    ensures w.acks == 0 && !w.exited
  {
    FilterAtEnds(p, w);
    assert !w.exited && w.acks == 0;
    NothingOfTheRest(p, w);
    InTransit(w.chan);
    QuietButLast(p, w);
    OneOutstanding(p, w.chan);
    hide Plan.Good, Commanded, BytesKept, SentSoFar, Take, Inv, AllButLast;
  }

  lemma CloseIsServed(p: Plan, w: World)
    requires p.Good() && w.pc == 3 + |p.body| && w.inbox == [] && w.wire == [] && !w.exited && w.filter.Clear()
    ensures var v := Act(p, Act(p, Act(p, w, Client(true)), Carry), Serve(0, 0));
            v.exited && v.cb == w.cb && v.chan == w.chan
  {
    ScriptAt(p, w.pc);
    hide Plan.Script, Plan.Good;
    var a := Act(p, w, Client(true));
    assert a.wire == [CLOSE_ASOC];
    var b := Act(p, a, Carry);
    assert b.inbox == [Tag(CLOSE_ASOC)];
  }

  lemma VerdictIsOne(p: Plan, w: World)
    requires p.Good() && WorldInv(p, w) && |w.chan.delivered| < p.expected
    ensures w.cb.cb1 == 1
  {
    VerdictOf(p, w);
    Bounds(p, w);
    hide WorldInv, Plan.Good;
    TotalVerdict(p.Check().target, w.seen);
  }

  /**
   * Patience is needed in every case and for every message: there is a run in which the client, at
   * every call, waits for all but the arrival of the very last message, everything before it has
   * been read, it alone is in flight, and the close command overtakes it.  The server returns 1.
   */
  lemma CloseCanOvertake(p: Plan) returns (before: seq<Choice>)
    requires p.Good() && p.expected > 0
    ensures Unhurried(p, before + [Client(true)])
    ensures var u := After(p, Init(), before);
            && u.pc == 3 + |p.body| && |u.chan.delivered| == p.expected - 1 && Unread(u.inbox) == 0
            && u.chan.held == {} && u.chan.flight == {Carrier(u.chan.senderBase, p.expected - 1)}
    ensures var w := After(p, Init(), before + [Client(true)] + [Carry] + [Serve(0, 0)]);
            w.exited && w.cb.cb1 == 1 && |w.chan.delivered| == p.expected - 1
  {
    hide Plan.Good, Act, WorldInv, After, Unhurried, AllButLast, Withheld;
    before := RunsUnhurried(p, 3 + |p.body|);
    var u := After(p, Init(), before);
    EveryRunKeepsInvariant(p, before);
    OnlyTheLastIsOut(p, u);
    UnhurriedGrows(p, before, Client(true));
    AfterOne(p, before, Client(true));
    AfterOne(p, before + [Client(true)], Carry);
    AfterOne(p, before + [Client(true)] + [Carry], Serve(0, 0));
    CloseIsServed(p, u);
    VerdictIsOne(p, u);
  }

  // ---------------------------------------------------------------- the cases of the table

  function PlanOf(c: nat): Plan
    requires c < CASES
  {
    Plan(BodyOps(Cases(c)), Cases(c).len, Cases(c).Expected())
  }

  lemma PlansAreGood(c: nat)
    requires c < CASES
    ensures PlanOf(c).Good() && PlanOf(c).expected > 0
    ensures PlanOf(c).Script() == ScriptOf(BodyOps(Cases(c)))
    ensures PlanOf(c).Check() == Cases(c).Check()
  {
    CasesMeetTheirTargets(c);
    hide BodyOps, Cases, Piece, FilterAfter;
    TimesIsProduct(Cases(c).Expected(), Cases(c).len);
  }

  /** Each case, each schedule: exactly once and in order, and 0 exactly when all of it was read. */
  lemma EveryCase(c: nat, schedule: seq<Choice>)
    requires c < CASES
    ensures PlanOf(c).Good()
    ensures var p, w := PlanOf(c), After(PlanOf(c), Init(), schedule);
            && w.chan.delivered == UpTo(|w.chan.delivered|)
            && (w.cb.cb1 == 0 <==> Drained(p, w))
            && (w.exited && Patient(p, schedule) ==> w.cb.cb1 == 0)
            && (Stuck(p, w) ==> w.exited && w.chan.delivered == UpTo(p.expected))
  {
    hide Plan.Good, Cases, After, BodyOps, Drained, Stuck, Patient;
    PlansAreGood(c);
    ExactlyOnceInOrder(PlanOf(c), schedule);
    VerdictMeansDrained(PlanOf(c), schedule);
    StuckIsFinal(PlanOf(c), schedule);
    if Patient(PlanOf(c), schedule) {
      PatientRunsPass(PlanOf(c), schedule);
    }
  }
}
