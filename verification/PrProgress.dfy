/**
 * The two threads and the path never wait for each other for ever.  Work left decreases with every
 * step, and when no one can move, both threads have ended, joined, and the server has exited.
 */
module PrProgress {
  import opened Sequences
  import opened Server
  import opened PrClient
  import opened PrWorld
  import opened PrInvariant
  import opened PrTheorems

  /** Calls of either thread, messages to deliver and to read, commands. */
  function Measure(p: Plan, w: World): int {
    4 * (|p.Script()| - w.pc) + (|p.clean| - w.cleaner) + 2 * |w.buffer| + |w.inbox| + 2 * |w.wire|
  }

  lemma MainCounts(p: Plan, w: World)
    requires !p.check.Order? && Enabled(p, w, Main)
    ensures Measure(p, Act(p, w, Main)) < Measure(p, w)
  {
    hide Plan.Script, Plan.MsgOf, Load;
  }

  lemma CanMove(p: Plan, w: World, c: Choice)
    requires Enabled(p, w, c)
    ensures match c
            case Main => w.pc < |p.Script()|
            case Cleaner => w.cleaner < |p.clean|
            case Carry => w.wire != []
            case Serve(_) => w.inbox != []
            case Deliver(i) => i < |w.buffer|
            case Displace(i) => i < |w.buffer|
            case Expire(i) => i < |w.buffer|
  {
    hide Plan.Script, Plan.MsgOf, Load;
  }

  lemma EnabledStepsCount(p: Plan, w: World, c: Choice)
    requires !p.check.Order? && Enabled(p, w, c)
    ensures Measure(p, Act(p, w, c)) < Measure(p, w)
  {
    hide Plan.Script, Plan.MsgOf, Load, Step, Enabled;
    CanMove(p, w, c);
    match c {
      case Main => MainCounts(p, w);
      case Serve(_) =>
      case _ =>
    }
  }

  lemma MeasureIsNatural(p: Plan, w: World)
    requires Inv(p, w)
    ensures Measure(p, w) >= 0
  {
    ScriptAt(p, w.pc);
    hide Plan.Script, Conserved, Counted, Explained, Roomed;
  }

  ghost function Moves(p: Plan, schedule: seq<Choice>): nat
    requires !p.check.Order?
  {
    if schedule == [] then 0
    else
      var n := |schedule| - 1;
      Moves(p, schedule[..n]) + if Enabled(p, After(p, Init(p), schedule[..n]), schedule[n]) then 1 else 0
  }

  /** At most so many steps of any schedule have an effect. */
  lemma {:induction false} MovesAreBounded(p: Plan, schedule: seq<Choice>)
    requires p.Good()
    ensures !p.check.Order?
    ensures Moves(p, schedule) + Measure(p, After(p, Init(p), schedule)) <= Measure(p, Init(p))
    ensures Moves(p, schedule) <= Measure(p, Init(p))
  {
    NoTable(p);
    EveryRunKeepsInvariant(p, schedule);
    hide Enabled, Measure, Plan.Good, Inv, MainMove, ServeMove, Init;
    MeasureIsNatural(p, After(p, Init(p), schedule));
    if schedule != [] {
      var n := |schedule| - 1;
      var w := After(p, Init(p), schedule[..n]);
      MovesAreBounded(p, schedule[..n]);
      if Enabled(p, w, schedule[n]) {
        EnabledStepsCount(p, w, schedule[n]);
      }
    }
  }

  // ---------------------------------------------------------------- room for every send

  /** `a` cannot hold up `m` for ever: it can be displaced for it, or its own limit will be reached. */
  predicate Leaves(a: Msg, m: Msg) {
    Yields(a, m) || a.policy in {Lifetime, Retransmissions}
  }

  /** Of the first `n` messages those that do not leave for `m`. */
  function Stays(p: Plan, n: nat, m: Msg): seq<nat> {
    if n == 0 then []
    else Stays(p, n - 1, m) + if Leaves(p.MsgOf(n - 1), m) then [] else [n - 1]
  }

  ghost predicate RoomAt(p: Plan, k: nat)
    requires k < |p.body| && p.body[k].Send?
  {
    var m, done := p.body[k].msg, p.body[..k];
    && p.cost(m.len) <= p.Capacity()
    && (Dropped(done) && Spawn !in done ==>
          Load(p, Stays(p, |Sends(done)|, m)) + p.cost(m.len) <= p.Capacity())
  }

  /**
   * Every message fits an empty buffer; one that is sent while only its own thread could remove
   * the filter fits beside all that does not leave for it.
   */
  ghost predicate Roomy(p: Plan) {
    forall k | 0 <= k < |p.body| && p.body[k].Send? :: RoomAt(p, k)
  }

  /** The cleaning thread removes the rules. */
  ghost predicate Cleans(p: Plan) {
    Spawn in p.body ==> FlushRules in p.clean
  }

  lemma StaysNext(p: Plan, n: nat, m: Msg)
    ensures n == 0 ==> Stays(p, n, m) == []
    ensures n > 0 && Leaves(p.MsgOf(n - 1), m) ==> Stays(p, n, m) == Stays(p, n - 1, m)
    ensures n > 0 && !Leaves(p.MsgOf(n - 1), m) ==> Stays(p, n, m) == Stays(p, n - 1, m) + [n - 1]
  {
    hide Plan.MsgOf, Leaves;
  }

  lemma {:induction false} StaysMembers(p: Plan, n: nat, m: Msg, id: nat)
    ensures multiset(Stays(p, n, m))[id] == if id < n && !Leaves(p.MsgOf(id), m) then 1 else 0
  {
    hide Plan.MsgOf, Leaves, Stays;
    if n > 0 {
      StaysMembers(p, n - 1, m, id);
    }
    StaysNext(p, n, m);
  }

  lemma BufferedOnce(accepted: nat, buffer: seq<nat>, read: seq<nat>, inbox: seq<Item>, gone: seq<Loss>, id: nat)
    requires Conserved(accepted, buffer, read, inbox, gone)
    ensures multiset(buffer)[id] <= if id < accepted then 1 else 0
  {
    hide Unread, Ids;
    OnceEach(accepted, id);
    assert multiset(buffer)[id] <= multiset(UpTo(accepted))[id];
  }

  /** When nothing in the buffer leaves, it holds no more than what stays. */
  lemma OnlyStays(p: Plan, w: World, m: Msg)
    requires Conserved(w.accepted, w.buffer, w.read, w.inbox, w.gone)
    requires forall i | 0 <= i < |w.buffer| :: !Leaves(p.MsgOf(w.buffer[i]), m)
    ensures Load(p, w.buffer) <= Load(p, Stays(p, w.accepted, m))
  {
    hide Plan.MsgOf, Leaves, Stays, Load, Conserved;
    forall id
      ensures multiset(w.buffer)[id] <= multiset(Stays(p, w.accepted, m))[id]
    {
      if id in multiset(w.buffer) && id >= 0 {
        BufferedOnce(w.accepted, w.buffer, w.read, w.inbox, w.gone, id);
        StaysMembers(p, w.accepted, m, id);
        assert id in w.buffer;
      }
    }
    LoadOfPart(p, w.buffer, Stays(p, w.accepted, m));
  }

  // ---------------------------------------------------------------- nobody waits for ever

  ghost predicate Idle(p: Plan, w: World) {
    forall c: Choice | !c.Main? :: !Enabled(p, w, c)
  }

  ghost predicate Stuck(p: Plan, w: World) {
    forall c: Choice :: !Enabled(p, w, c)
  }

  /** With the path open, an idle association has nothing left to deliver. */
  lemma OpenPathDrains(p: Plan, w: World)
    requires Idle(p, w) && !w.filter
    ensures w.buffer == [] && w.wire == []
  {
    assert !Enabled(p, w, Deliver(0)) && !Enabled(p, w, Carry);
    hide Plan.Script;
  }

  lemma SocketDrains(p: Plan, w: World)
    requires Idle(p, w) && !w.exited
    ensures w.inbox == []
  {
    assert !Enabled(p, w, Serve(0));
    hide Plan.Script;
  }

  lemma SpawnedInBody(p: Plan, w: World)
    requires Inv(p, w) && w.started
    ensures Spawn in p.body
  {
    hide Plan.Script, Conserved, Counted, Explained, Roomed, Commanded;
    var done := p.body[..Done(p, w.pc)];
    var i :| 0 <= i < |done| && done[i] == Spawn;
    assert p.body[i] == Spawn;
  }

  lemma CleanerEnds(p: Plan, w: World)
    requires p.Good() && Cleans(p) && Inv(p, w) && Idle(p, w) && w.started
    ensures !w.filter && w.cleaner == |p.clean|
  {
    assert !Enabled(p, w, Cleaner);
    hide Plan.Script, Conserved, Counted, Explained, Roomed, Commanded;
    assert w.cleaner == |p.clean| && p.clean[..w.cleaner] == p.clean;
    SpawnedInBody(p, w);
  }

  lemma SendCapacity(p: Plan, w: World)
    requires Inv(p, w) && 1 <= w.pc < 1 + |p.body| && p.body[w.pc - 1].Send?
    ensures w.capacity == p.Capacity()
    ensures var done := p.body[..w.pc - 1];
            && w.accepted == |Sends(done)|
            && w.started == (Spawn in done)
            && (w.filter ==> Dropped(done))
  {
    hide Plan.Script, Load, Conserved, Counted, Explained, Commanded, Sends, Dropped;
  }

  /** Behind the filter only what does not leave remains. */
  lemma FilteredWaits(p: Plan, w: World, m: Msg)
    requires p.Good() && Inv(p, w) && Idle(p, w)
    requires 1 <= w.pc < 1 + |p.body| && p.body[w.pc - 1] == Send(m)
    requires Load(p, Stays(p, w.accepted, m)) + p.cost(m.len) <= w.capacity
    ensures Fits(p, w, m)
  {
    ScriptAt(p, w.pc);
    hide Plan.Script, Load, Counted, Explained, Filtering, Commanded;
    hide Plan.Good, Stays, Plan.MsgOf, Roomed, Yields, Conserved;
    if !Fits(p, w, m) {
      forall i | 0 <= i < |w.buffer|
        ensures !Leaves(p.MsgOf(w.buffer[i]), m)
      {
        assert !Enabled(p, w, Displace(i)) && !Enabled(p, w, Expire(i));
      }
      OnlyStays(p, w, m);
    }
  }

  /** A blocked sender makes room sooner or later. */
  lemma SendGetsThrough(p: Plan, w: World)
    requires p.Good() && Roomy(p) && Cleans(p) && Inv(p, w)
    requires 1 <= w.pc < 1 + |p.body| && p.body[w.pc - 1].Send?
    requires Idle(p, w)
    ensures Fits(p, w, p.body[w.pc - 1].msg)
  {
    var k := w.pc - 1;
    var m := p.body[k].msg;
    assert RoomAt(p, k);
    SendCapacity(p, w);
    if w.started {
      CleanerEnds(p, w);
    }
    if !w.filter {
      OpenPathDrains(p, w);
      EmptyLoad(p);
    } else {
      FilteredWaits(p, w, m);
    }
    hide Plan.Script, Load, Conserved, Counted, Explained, Filtering, Commanded, Plan.Good, Inv;
  }

  lemma JoinStarted(p: Plan, w: World)
    requires p.Good() && Inv(p, w) && 1 <= w.pc < 1 + |p.body| && p.body[w.pc - 1] == Join
    ensures w.started
  {
    CallsOfBody(p, w.pc - 1);
    hide Plan.Script, Conserved, Counted, Explained, Roomed, Commanded, Plan.Good;
  }

  lemma BodyGoesOn(p: Plan, w: World)
    requires p.Good() && Roomy(p) && Cleans(p) && Inv(p, w) && Idle(p, w) && 1 <= w.pc < 1 + |p.body|
    ensures Enabled(p, w, Main)
  {
    ScriptAt(p, w.pc);
    CallsOfBody(p, w.pc - 1);
    match p.body[w.pc - 1] {
      case Send(m) => SendGetsThrough(p, w);
      case Join =>
        JoinStarted(p, w);
        CleanerEnds(p, w);
      case _ =>
    }
    hide Plan.Script, Inv, Roomy, Plan.Good, Fits;
  }

  lemma ClosingGoesOn(p: Plan, w: World)
    requires p.Good() && p.Restores() && Inv(p, w) && Idle(p, w) && w.pc == |p.body| + 3
    ensures w.acks > 0
  {
    EndOfBody(p, w);
    OpenPathDrains(p, w);
    hide Plan.Script, Conserved, Counted, Explained, Roomed, Filtering, Plan.Good;
    if !w.exited {
      SocketDrains(p, w);
    }
  }

  lemma StuckAtEnd(p: Plan, w: World)
    requires p.Good() && p.Restores() && Roomy(p) && Cleans(p) && Inv(p, w) && Stuck(p, w)
    ensures w.exited && w.pc == |p.Script()| == |p.body| + 4
  {
    ScriptAt(p, w.pc);
    assert !Enabled(p, w, Main);
    assert Idle(p, w);
    if 1 <= w.pc < 1 + |p.body| {
      BodyGoesOn(p, w);
    } else if w.pc == |p.body| + 3 {
      ClosingGoesOn(p, w);
    }
    hide Plan.Script, Conserved, Counted, Explained, Roomed, Filtering, Plan.Good, Roomy;
  }

  /** When no one can move, the client has finished and the server has exited. */
  lemma StuckIsFinal(p: Plan, schedule: seq<Choice>)
    requires p.Good() && p.Restores() && Roomy(p) && Cleans(p)
    ensures !p.check.Order?
    ensures var w := After(p, Init(p), schedule);
            Stuck(p, w) ==> w.exited && w.pc == |p.Script()| && w.buffer == [] && !w.filter
                            && (w.started ==> w.cleaner == |p.clean|)
  {
    NoTable(p);
    EveryRunKeepsInvariant(p, schedule);
    hide Inv, Plan.Good, After, Init, Roomy, Plan.Script, Enabled;
    var w := After(p, Init(p), schedule);
    if Stuck(p, w) {
      StuckAtEnd(p, w);
      EndOfBody(p, w);
      OpenPathDrains(p, w);
      if w.started {
        CleanerEnds(p, w);
      }
    }
  }

  // ---------------------------------------------------------------- closing only when all is drained

  /** The client sends the close command only when nothing else can move any more. */
  ghost predicate Patient(p: Plan, schedule: seq<Choice>)
    requires !p.check.Order?
  {
    forall i | 0 <= i < |schedule| && schedule[i].Main? ::
      var w := After(p, Init(p), schedule[..i]);
      w.pc == 2 + |p.body| ==> Idle(p, w)
  }

  /** Everything accepted has been read or given up. */
  ghost predicate Settled(p: Plan, w: World) {
    w.buffer == [] && Unread(w.inbox) == [] && w.accepted == |Sends(p.body)|
  }

  lemma IdleIsSettled(p: Plan, w: World)
    requires p.Good() && p.Restores() && Inv(p, w) && w.pc == 2 + |p.body| && Idle(p, w)
    ensures Settled(p, w)
  {
    EndOfBody(p, w);
    OpenPathDrains(p, w);
    assert !w.exited;
    SocketDrains(p, w);
    hide Plan.Script, Inv, Plan.Good;
  }

  lemma SettledStays(p: Plan, w: World, c: Choice)
    requires p.Good() && Settled(p, w) && w.pc >= 2 + |p.body|
    ensures !p.check.Order? && Settled(p, Act(p, w, c)) && Act(p, w, c).gone == w.gone
  {
    ScriptAt(p, w.pc);
    hide Plan.Script, Plan.MsgOf, Load, Step, Sends, Unread, Tags;
    match c {
      case Serve(_) =>
        if w.inbox != [] {
          InboxHead(w.inbox);
          assert Unread(w.inbox[1..]) == [];
        }
      case Carry =>
        if w.wire != [] {
          InboxGrows(w.inbox, Tag(w.wire[0]));
        }
      case _ =>
    }
  }

  lemma AtMostOneCall(p: Plan, w: World, c: Choice)
    requires !p.check.Order?
    ensures var v := Act(p, w, c); v.pc == w.pc || (c.Main? && v.pc == w.pc + 1)
  {
    hide Plan.Script, Plan.MsgOf, Load, Step, Enabled, Without;
    match c {
      case Main =>
      case _ =>
    }
  }

  lemma StartsAtZero(p: Plan)
    ensures Init(p).pc == 0
  {
  }

  lemma ExitIsLate(p: Plan, w: World)
    requires Inv(p, w)
    ensures w.exited ==> w.pc > 2 + |p.body|
  {
    hide Plan.Script, Conserved, Counted, Explained, Roomed, Filtering;
  }

  lemma {:induction false} PatientRunsSettle(p: Plan, schedule: seq<Choice>)
    requires p.Good() && p.Restores() && !p.check.Order? && Patient(p, schedule)
    ensures var w := After(p, Init(p), schedule);
            (w.pc > 2 + |p.body| ==> Settled(p, w)) && (w.exited ==> Settled(p, w))
  {
    hide Inv, Plan.Good, Act, Settled, Idle, Init;
    EveryRunKeepsInvariant(p, schedule);
    var w := After(p, Init(p), schedule);
    if schedule != [] {
      var n := |schedule| - 1;
      var before, c := schedule[..n], schedule[n];
      assert forall i | 0 <= i < n :: before[i] == schedule[i] && before[..i] == schedule[..i];
      PatientRunsSettle(p, before);
      var v := After(p, Init(p), before);
      EveryRunKeepsInvariant(p, before);
      AtMostOneCall(p, v, c);
      if w.pc > 2 + |p.body| {
        if v.pc == 2 + |p.body| {
          IdleIsSettled(p, v);
        }
        SettledStays(p, v, c);
      }
    } else {
      StartsAtZero(p);
    }
    ExitIsLate(p, w);
  }
}
