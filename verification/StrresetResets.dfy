/**
 * When a reset that a test asks for can be performed: not behind the rule on all packets, and
 * otherwise in some run, for every row of the table.
 */
module StrresetResets {
  import opened Server
  import opened SsnChannel
  import opened StrresetClient
  import opened StrresetMarks
  import opened StrresetWorld
  import opened StrresetTheorems

  // ---------------------------------------------------------------- held back by the rule

  /** Up to call `k`, the rule on all packets is installed only before the first request. */
  ghost predicate RuleFirst(p: Plan, k: nat) {
    forall j | 0 <= j < k <= |p.body| && p.body[j].DropAll? :: Resets(p.body[..j]) == []
  }

  /** No reset without a request, and none performed behind that rule. */
  ghost predicate Waits(p: Plan, w: World) {
    && (w.chan.reset != NoReset ==> Resets(p.body[..Done(p, w.pc)]) != [])
    && (w.filter.all ==> w.chan.reset != Performed)
  }

  lemma ResetsStep(ops: seq<Op>, k: nat)
    requires k < |ops|
    ensures Resets(ops[..k + 1]) == Resets(ops[..k]) + if ops[k].Reset? then [ops[k].kind] else []
  {
    assert ops[..k + 1][..k] == ops[..k];
  }

  lemma CallWaits(p: Plan, k: nat, w: World, taken: bool)
    requires k <= |p.body| && RuleFirst(p, k) && Waits(p, w) && w.pc < 3 + k && Enabled(p, w, Client(taken))
    ensures Waits(p, Act(p, w, Client(taken)))
  {
    ScriptAt(p, w.pc);
    if w.pc >= 3 {
      ResetsStep(p.body, w.pc - 3);
    }
    hide Plan.Script, Resets;
  }

  lemma OtherWaits(p: Plan, w: World, c: Choice)
    requires Waits(p, w) && !c.Client?
    ensures Waits(p, Act(p, w, c)) && Act(p, w, c).pc == w.pc
  {
    hide Plan.Script, Resets, TakenOff, Server.Step;
  }

  lemma OneCallOrNone(p: Plan, w: World, c: Choice)
    ensures c.Client? ==> Act(p, w, c) == w || (Enabled(p, w, c) && Act(p, w, c).pc == w.pc + 1)
  {
    hide Plan.Script, Take;
  }

  lemma {:induction false} EveryRunWaits(p: Plan, k: nat, schedule: seq<Choice>)
    requires k <= |p.body| && RuleFirst(p, k)
    ensures var w := After(p, Init(), schedule); w.pc <= 3 + k ==> Waits(p, w)
  {
    if schedule != [] {
      hide Waits, Act, Enabled, RuleFirst;
      var n := |schedule| - 1;
      var w, c := After(p, Init(), schedule[..n]), schedule[n];
      EveryRunWaits(p, k, schedule[..n]);
      AtMostOneCall(p, w, c);
      OneCallOrNone(p, w, c);
      if c.Client? && Enabled(p, w, c) && w.pc < 3 + k {
        CallWaits(p, k, w, c.taken);
      } else if !c.Client? && w.pc <= 3 + k {
        OtherWaits(p, w, c);
      }
    }
  }

  /** If the rule on all packets comes first, no run of the script performs a reset behind it. */
  lemma NeverPerformedBehind(p: Plan, schedule: seq<Choice>)
    requires p.Good() && RuleFirst(p, |p.body|)
    ensures var w := After(p, Init(), schedule); w.filter.all ==> w.chan.reset != Performed
  {
    hide After, Plan.Good, RuleFirst, WorldInv;
    var w := After(p, Init(), schedule);
    EveryRunWaits(p, |p.body|, schedule);
    EveryRunKeepsInvariant(p, schedule);
    if w.pc >= 3 + |p.body| {
      FilterAtEnds(p, w);
    }
  }

  // ---------------------------------------------------------------- performed in some run

  /** At call `k` of the body, `n` messages transmitted, all delivered and read. */
  ghost predicate Before(w: World, k: nat, n: nat, reset: ResetState) {
    && w.pc == 3 + k && w.chan.tx == n && |w.chan.delivered| == n && w.chan.reset == reset
    && Unread(w.inbox) == 0
  }

  lemma BodyCall(p: Plan, w: World, k: nat, n: nat, reset: ResetState, taken: bool)
    requires p.Good() && k < |p.body| && Before(w, k, n, reset)
    ensures var asked := taken && p.body[k].Reset? && reset == NoReset;
            Before(Act(p, w, Client(taken)), k + 1, n, if asked then Requested else reset)
  {
    ScriptAt(p, w.pc);
    assert p.body[k] in p.body;
    assert InBody(p.body[k], p.len);
    hide Plan.Script, Piece, FilterAfter;
  }

  /** The opening: the first command is sent, carried, served and acknowledged. */
  lemma Opens(p: Plan) returns (s: seq<Choice>)
    ensures Before(After(p, Init(), s), 0, 0, NoReset)
  {
    ScriptAt(p, 0);
    ScriptAt(p, 1);
    ScriptAt(p, 2);
    hide Plan.Script;
    s := [];
    var w := Init();
    var a := Act(p, w, Client(false));
    AfterOne(p, s, Client(false));
    s := s + [Client(false)];
    var b := Act(p, a, Client(false));
    AfterOne(p, s, Client(false));
    s := s + [Client(false)];
    assert b.pc == 2 && b.wire == [SET_STRRESET] && b.inbox == [];
    var c := Act(p, b, Carry);
    AfterOne(p, s, Carry);
    s := s + [Carry];
    assert c.inbox == [Tag(SET_STRRESET)];
    var d := Act(p, c, Serve(0, 0));
    AfterOne(p, s, Serve(0, 0));
    s := s + [Serve(0, 0)];
    assert d.acks == 1;
    AfterOne(p, s, Client(false));
    s := s + [Client(false)];
  }

  /** From call `j` on: the request of call `i` alone is taken, and nothing more is transmitted. */
  lemma {:induction false} AsksAt(p: Plan, base: seq<Choice>, j: nat, n: nat, i: nat, k: nat)
    returns (s: seq<Choice>)
    requires p.Good() && j <= i < |p.body| && p.body[i].Reset? && j <= k <= |p.body|
    requires Before(After(p, Init(), base), j, n, NoReset)
    ensures Before(After(p, Init(), s), k, n, if i < k then Requested else NoReset)
  {
    hide Plan.Good, Act, After, Before;
    if k == j {
      s := base;
    } else {
      var t := AsksAt(p, base, j, n, i, k - 1);
      BodyCall(p, After(p, Init(), t), k - 1, n, if i < k - 1 then Requested else NoReset, i == k - 1);
      AfterOne(p, t, Client(i == k - 1));
      s := t + [Client(i == k - 1)];
    }
  }

  lemma FilterOf(p: Plan, w: World, k: nat)
    requires WorldInv(p, w) && w.pc == 3 + k && k <= |p.body|
    ensures w.filter == FilterAfter(p.body[..k])
  {
    hide Inv, BytesKept, Commanded;
  }

  lemma PlaceOf(w: World, k: nat, n: nat, reset: ResetState)
    requires Before(w, k, n, reset)
    ensures w.pc == 3 + k && w.chan.reset == reset && |w.chan.delivered| == n && Unread(w.inbox) == 0
  {
  }

  lemma Performs(p: Plan, w: World, k: nat, n: nat)
    requires Before(w, k, n, Requested) && !w.filter.all
    ensures Before(Act(p, w, Net(Perform)), k, n, Performed) && Act(p, w, Net(Perform)).filter == w.filter
  {
    hide Plan.Script, Unread;
    assert w.inbox + [] == w.inbox;
  }

  /** A request is answered in some run as soon as the rule on all packets is not there. */
  lemma AskedThenPerformed(p: Plan, base: seq<Choice>, j: nat, n: nat, i: nat, k: nat) returns (s: seq<Choice>)
    requires p.Good() && j <= i < k <= |p.body| && p.body[i].Reset? && !FilterAfter(p.body[..k]).all
    requires Before(After(p, Init(), base), j, n, NoReset)
    ensures var w := After(p, Init(), s);
            Before(w, k, n, Performed) && w.filter == FilterAfter(p.body[..k])
  {
    hide Plan.Good, Act, After, WorldInv, FilterAfter, Before;
    var t := AsksAt(p, base, j, n, i, k);
    var w := After(p, Init(), t);
    EveryRunKeepsInvariant(p, t);
    PlaceOf(w, k, n, Requested);
    FilterOf(p, w, k);
    Performs(p, w, k, n);
    AfterOne(p, t, Net(Perform));
    s := t + [Net(Perform)];
  }

  lemma {:induction false} ResetsOfPrefix(ops: seq<Op>, j: nat)
    requires j <= |ops|
    ensures |Resets(ops[..j])| <= |Resets(ops)|
  {
    if j < |ops| {
      ResetsOfPrefix(ops[..|ops| - 1], j);
      assert ops[..|ops| - 1][..j] == ops[..j];
    } else {
      assert ops[..j] == ops;
    }
  }

  lemma RuleBeforeFirst(p: Plan, i: nat)
    requires i < |p.body| && p.body[i].Reset? && Resets(p.body[..i]) == []
    ensures RuleFirst(p, i + 1)
  {
    forall j | 0 <= j < i && p.body[j].DropAll?
      ensures Resets(p.body[..j]) == []
    {
      ResetsOfPrefix(p.body[..i], j);
      assert p.body[..i][..j] == p.body[..j];
    }
  }

  /**
   * The first request of any script: some run performs it before the next call if and only if it is
   * not made behind the rule on all packets.
   */
  lemma PerformedAtOnceIff(p: Plan, i: nat)
    requires p.Good() && i < |p.body| && p.body[i].Reset? && Resets(p.body[..i]) == []
    ensures (exists s: seq<Choice> :: var w := After(p, Init(), s); w.pc == 4 + i && w.chan.reset == Performed)
        <==> !FilterAfter(p.body[..i]).all
  {
    SentStep(p.body, i);
    RuleBeforeFirst(p, i);
    hide Plan.Good, After, WorldInv, FilterAfter, RuleFirst, Resets;
    if !FilterAfter(p.body[..i]).all {
      var base := Opens(p);
      var s := AskedThenPerformed(p, base, 0, 0, i, i + 1);
    } else {
      forall s: seq<Choice>
        ensures var w := After(p, Init(), s); w.pc == 4 + i ==> w.chan.reset != Performed
      {
        EveryRunWaits(p, i + 1, s);
        EveryRunKeepsInvariant(p, s);
        if After(p, Init(), s).pc == 4 + i {
          FilterOf(p, After(p, Init(), s), i + 1);
        }
      }
    }
  }

  // ---------------------------------------------------------------- performed with everything delivered

  /** As long as the last message has not been sent, everything but it is everything. */
  lemma NothingLeft(p: Plan, w: World)
    requires WorldInv(p, w) && AllButLast(p, w) && w.chan.accepted < p.expected
    ensures Idle(p, w)
  {
    InTransit(w.chan);
    assert forall q | q in w.chan.flight + w.chan.held :: q.id + 1 < p.expected;
    assert forall q | q in w.chan.flight :: q in w.chan.flight + w.chan.held;
  }

  /** Any call made without a rule can find all sent before it delivered and read. */
  lemma DrainsBefore(p: Plan, j: nat) returns (s: seq<Choice>)
    requires p.Good() && j <= |p.body| && FilterAfter(p.body[..j]).Clear() && Sent(p.body[..j]) < p.expected
    ensures Before(After(p, Init(), s), j, Sent(p.body[..j]), NoReset)
  {
    hide Plan.Good, Act, After, AllButLast, Withheld, Unhurried, FilterAfter, Sent;
    s := RunsUnhurried(p, 3 + j);
    var w := After(p, Init(), s);
    EveryRunKeepsInvariant(p, s);
    assert w.chan.accepted == Sent(p.body[..j]) && w.filter == FilterAfter(p.body[..j]);
    assert !w.exited;
    hide WorldInv;
    NothingLeft(p, w);
    ChannelDrains(p, w);
    SocketDrains(p, w);
    ChannelOf(p, w);
    InTransit(w.chan);
  }

  /** A request made without a rule is performed, in some run, with all of that delivered and read. */
  lemma PerformedWhenDrained(p: Plan, i: nat) returns (s: seq<Choice>)
    requires p.Good() && i < |p.body| && p.body[i].Reset? && FilterAfter(p.body[..i]).Clear()
    requires Sent(p.body[..i]) < p.expected
    ensures var w := After(p, Init(), s);
            Before(w, i + 1, Sent(p.body[..i]), Performed) && w.filter == FilterAfter(p.body[..i + 1])
  {
    hide Plan.Good, After, FilterAfter, Sent, Before;
    SentStep(p.body, i);
    var base := DrainsBefore(p, i);
    s := AskedThenPerformed(p, base, i, Sent(p.body[..i]), i, i + 1);
  }

  // ---------------------------------------------------------------- the rows of the table

  lemma {:induction false} FirstRequest(ops: seq<Op>) returns (i: nat)
    requires Resets(ops) != []
    ensures i < |ops| && ops[i].Reset? && Resets(ops[..i]) == []
  {
    var n := |ops| - 1;
    if Resets(ops[..n]) == [] {
      i := n;
    } else {
      i := FirstRequest(ops[..n]);
      assert ops[..n][..i] == ops[..i];
    }
  }

  /** The first request of row `c`. */
  lemma RowAsks(c: nat) returns (i: nat)
    requires c < CASES
    ensures i < |PlanOf(c).body| && PlanOf(c).body[i].Reset? && Resets(PlanOf(c).body[..i]) == []
    ensures Sent(PlanOf(c).body[..i]) == if c <= 3 then 70000 else 10
    ensures FilterAfter(PlanOf(c).body[..i]) == if c <= 3 then CLEAR else if c <= 5 then DATA else ALL
  {
    hide BodyOps, Cases, Sent, FilterAfter, Resets;
    EveryRowAsks(c);
    i := FirstRequest(BodyOps(Cases(c)));
    EveryRequest(c, i);
  }

  lemma RowExpects(c: nat)
    requires c < CASES
    ensures PlanOf(c).expected == if c <= 3 then 70001 else if c <= 5 then 11 else 14
  {
    hide BodyOps;
  }

  lemma BodyEndsClear(p: Plan)
    requires p.Good()
    ensures FilterAfter(p.body[..|p.body|]).Clear()
  {
    assert p.body[..|p.body|] == p.body;
  }

  /** The loop of the last row: ten messages before the rule comes. */
  lemma LastRowLoop() returns (j: nat)
    ensures j <= |PlanOf(6).body| && FilterAfter(PlanOf(6).body[..j]) == CLEAR && Sent(PlanOf(6).body[..j]) == 10
    ensures forall i | 0 <= i < j :: !PlanOf(6).body[i].Reset?
  {
    hide FilterAfter, Sent, SendOps, CloseOps, ResetOps, ReopenOps, Marks;
    var loop := SendOps(10, 100);
    j := |loop|;
    assert PlanOf(6).body[..j] == loop;
    ComesFromNothing();
    ComesSends([], [], 0, CLEAR, 10, 100);
    assert [] + loop == loop;
    SendRunShape(10, 100);
    assert forall i | 0 <= i < j :: PlanOf(6).body[i] == loop[i] && loop[i] in loop;
  }

  /** The reset is performed behind `filter`, `n` messages having been transmitted, delivered and read. */
  ghost predicate Reached(w: World, n: nat, filter: Filter) {
    w.chan.reset == Performed && |w.chan.delivered| == n && Unread(w.inbox) == 0 && w.filter == filter
  }

  lemma IsReached(w: World, k: nat, n: nat)
    requires Before(w, k, n, Performed)
    ensures Reached(w, n, w.filter)
  {
  }

  lemma WrapRowCanReset(c: nat) returns (s: seq<Choice>)
    requires c <= 3
    ensures Reached(After(PlanOf(c), Init(), s), 70000, CLEAR)
  {
    hide Plan.Good, After, FilterAfter, Sent, Resets, PlanOf, Before, Reached;
    PlansAreGood(c);
    RowExpects(c);
    var p := PlanOf(c);
    var i := RowAsks(c);
    SentStep(p.body, i);
    s := PerformedWhenDrained(p, i);
    IsReached(After(p, Init(), s), i + 1, 70000);
  }

  lemma DataRowCanReset(c: nat) returns (s: seq<Choice>)
    requires 4 <= c <= 5
    ensures Reached(After(PlanOf(c), Init(), s), 0, DATA)
  {
    hide Plan.Good, After, FilterAfter, Sent, Resets, PlanOf, Before, Reached;
    PlansAreGood(c);
    var p := PlanOf(c);
    var i := RowAsks(c);
    SentStep(p.body, i);
    var base := Opens(p);
    s := AskedThenPerformed(p, base, 0, 0, i, i + 1);
    IsReached(After(p, Init(), s), i + 1, 0);
  }

  lemma LastRowCanReset() returns (s: seq<Choice>)
    ensures Reached(After(PlanOf(6), Init(), s), 10, CLEAR)
  {
    hide Plan.Good, After, FilterAfter, Sent, Resets, PlanOf, Before, Reached;
    PlansAreGood(6);
    RowExpects(6);
    var p := PlanOf(6);
    var i := RowAsks(6);
    var j := LastRowLoop();
    BodyEndsClear(p);
    var base := DrainsBefore(p, j);
    s := AskedThenPerformed(p, base, j, 10, i, |p.body|);
    IsReached(After(p, Init(), s), |p.body|, 10);
  }

  /**
   * Every row has a run that performs the reset it asks for, with everything transmitted so far
   * delivered and read: 70000 messages in the wrap tests; none in rows 4 and 5, where it happens
   * behind the rule on DATA chunks; ten in the last row, once the rule on all packets is gone.
   */
  lemma EveryRowCanReset(c: nat) returns (s: seq<Choice>)
    requires c < CASES
    ensures Reached(After(PlanOf(c), Init(), s),
                    if c <= 3 then 70000 else if c <= 5 then 0 else 10,
                    if c == 4 || c == 5 then DATA else CLEAR)
  {
    hide After, PlanOf, Init, Reached;
    if c <= 3 {
      s := WrapRowCanReset(c);
    } else if c <= 5 {
      s := DataRowCanReset(c);
    } else {
      s := LastRowCanReset();
    }
  }

  lemma RowRuleFirst(c: nat)
    requires c < CASES
    ensures RuleFirst(PlanOf(c), |PlanOf(c).body|)
  {
    hide BodyOps, Cases, Marks, Resets, Requests, FilterAfter, Sent;
    var ops := BodyOps(Cases(c));
    EveryRowMarks(c);
    NoRequests();
    forall j | 0 <= j < |ops| && ops[j].DropAll?
      ensures Resets(ops[..j]) == []
    {
      MarkedAt(ops, j);
      MarksOfPrefix(ops, j);
      ResetsAreMarked(ops[..j]);
      assert Marks(ops[..j]) == [];
    }
  }

  /** In no run of any row is a reset performed while all packets are held back. */
  lemma NoRowResetsBehindAll(c: nat, schedule: seq<Choice>)
    requires c < CASES
    ensures var w := After(PlanOf(c), Init(), schedule); w.filter.all ==> w.chan.reset != Performed
  {
    hide Plan.Good, After, PlanOf, RuleFirst;
    PlansAreGood(c);
    RowRuleFirst(c);
    NeverPerformedBehind(PlanOf(c), schedule);
  }

  /** The request of the last row is made with all ten messages delivered, and has to wait for the rule. */
  lemma LastRowWaits() returns (s: seq<Choice>)
    ensures var w := After(PlanOf(6), Init(), s);
            w.filter == ALL && w.chan.reset == Requested && |w.chan.delivered| == 10
  {
    hide Plan.Good, After, FilterAfter, Sent, Resets, PlanOf;
    PlansAreGood(6);
    var p := PlanOf(6);
    var i := RowAsks(6);
    SentStep(p.body, i);
    RowExpects(6);
    var j := LastRowLoop();
    var base := DrainsBefore(p, j);
    s := AsksAt(p, base, j, 10, i, i + 1);
    EveryRunKeepsInvariant(p, s);
    FilterOf(p, After(p, Init(), s), i + 1);
    hide WorldInv;
  }

  /** The first request of a row can be performed at once in all rows but the last. */
  lemma RowResetsAtOnceIff(c: nat, i: nat)
    requires c < CASES && i < |PlanOf(c).body| && PlanOf(c).body[i].Reset? && Resets(PlanOf(c).body[..i]) == []
    ensures (exists s: seq<Choice> :: var w := After(PlanOf(c), Init(), s);
                                      w.pc == 4 + i && w.chan.reset == Performed)
        <==> c != 6
  {
    hide Plan.Good, After, BodyOps, Cases, Sent, FilterAfter;
    PlansAreGood(c);
    EveryRequest(c, i);
    PerformedAtOnceIff(PlanOf(c), i);
  }
}
