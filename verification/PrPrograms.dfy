/** The eleven cases of the table: never stuck given room, and what each verdict says. */
module PrPrograms {
  import opened Server
  import opened Verdicts
  import opened PrClient
  import opened PrWorld
  import opened PrInvariant
  import opened PrTheorems
  import opened PrProgress

  /** Case `c` in an environment that gives messages and buffers these sizes. */
  function PlanOf(c: nat, cost: nat -> nat, room: nat -> nat, initial: nat): Plan
    requires c < CASES
  {
    Plan(BodyOps(Cases(c)), CleanOps(Cases(c).drop), Cases(c).check, cost, room, initial)
  }

  ghost predicate IsCase(p: Plan, c: nat) {
    c < CASES && p == PlanOf(c, p.cost, p.room, p.initial)
  }

  // ---------------------------------------------------------------- the scripts, call by call

  /** What the first `k` calls amount to. */
  ghost predicate Upto(ops: seq<Op>, k: nat, msgs: seq<Msg>, dropped: bool) {
    k <= |ops| && Sends(ops[..k]) == msgs && Dropped(ops[..k]) == dropped
  }

  lemma Begin(ops: seq<Op>)
    ensures Upto(ops, 0, [], false)
  {
  }

  lemma Next(ops: seq<Op>, k: nat, op: Op, msgs: seq<Msg>, dropped: bool)
    requires Upto(ops, k, msgs, dropped) && k < |ops| && ops[k] == op && !op.Send?
    ensures Upto(ops, k + 1, msgs, op.DropData? || (dropped && !op.FlushRules?))
  {
    assert ops[..k + 1][..k] == ops[..k];
  }

  lemma NextSend(ops: seq<Op>, k: nat, m: Msg, msgs: seq<Msg>, dropped: bool)
    requires Upto(ops, k, msgs, dropped) && k < |ops| && ops[k] == Send(m)
    ensures Upto(ops, k + 1, msgs + [m], dropped)
  {
    assert ops[..k + 1][..k] == ops[..k];
  }

  lemma End(ops: seq<Op>, msgs: seq<Msg>, dropped: bool)
    requires Upto(ops, |ops|, msgs, dropped)
    ensures Sends(ops) == msgs && Dropped(ops) == dropped
  {
    assert ops[..|ops|] == ops;
  }

  lemma LapseBody(ops: seq<Op>, a: Msg, b: Msg)
    requires ops == [DropData, Send(a), Pause(10), Send(b), FlushRules, Pause(10)]
    ensures Upto(ops, 1, [], true) && Upto(ops, 3, [a], true)
    ensures Sends(ops) == [a, b] && !Dropped(ops)
  {
    hide Upto;
    Begin(ops);
    Next(ops, 0, DropData, [], false);
    NextSend(ops, 1, a, [], true);
    assert [] + [a] == [a];
    Next(ops, 2, Pause(10), [a], true);
    NextSend(ops, 3, b, [a], true);
    assert [a] + [b] == [a, b];
    Next(ops, 4, FlushRules, [a, b], true);
    Next(ops, 5, Pause(10), [a, b], false);
    End(ops, [a, b], false);
  }

  lemma LapseThreeBody(ops: seq<Op>, a: Msg, b: Msg, c: Msg)
    requires ops == [DropData, Send(a), Pause(10), Send(b), Send(c), FlushRules, Pause(10)]
    ensures Upto(ops, 1, [], true) && Upto(ops, 3, [a], true) && Upto(ops, 4, [a, b], true)
    ensures Sends(ops) == [a, b, c] && !Dropped(ops)
  {
    hide Upto;
    Begin(ops);
    Next(ops, 0, DropData, [], false);
    NextSend(ops, 1, a, [], true);
    assert [] + [a] == [a];
    Next(ops, 2, Pause(10), [a], true);
    NextSend(ops, 3, b, [a], true);
    assert [a] + [b] == [a, b];
    NextSend(ops, 4, c, [a, b], true);
    assert [a, b] + [c] == [a, b, c];
    Next(ops, 5, FlushRules, [a, b, c], true);
    Next(ops, 6, Pause(10), [a, b, c], false);
    End(ops, [a, b, c], false);
  }

  lemma EvictBody(ops: seq<Op>, a: Msg, b: Msg)
    requires ops == [SetSendBuffer(SNDBUF), DropData, Send(a), Send(b), FlushRules, Pause(10)]
    ensures Upto(ops, 2, [], true) && Upto(ops, 3, [a], true)
    ensures Sends(ops) == [a, b] && !Dropped(ops)
  {
    hide Upto;
    Begin(ops);
    Next(ops, 0, SetSendBuffer(SNDBUF), [], false);
    Next(ops, 1, DropData, [], false);
    NextSend(ops, 2, a, [], true);
    assert [] + [a] == [a];
    NextSend(ops, 3, b, [a], true);
    assert [a] + [b] == [a, b];
    Next(ops, 4, FlushRules, [a, b], true);
    Next(ops, 5, Pause(10), [a, b], false);
    End(ops, [a, b], false);
  }

  lemma EvictThreeBody(ops: seq<Op>, a: Msg, b: Msg, c: Msg)
    requires ops == [SetSendBuffer(SNDBUF), DropData, Send(a), Send(b), Send(c), FlushRules, Pause(10)]
    ensures Upto(ops, 2, [], true) && Upto(ops, 3, [a], true) && Upto(ops, 4, [a, b], true)
    ensures Sends(ops) == [a, b, c] && !Dropped(ops)
  {
    hide Upto;
    Begin(ops);
    Next(ops, 0, SetSendBuffer(SNDBUF), [], false);
    Next(ops, 1, DropData, [], false);
    NextSend(ops, 2, a, [], true);
    assert [] + [a] == [a];
    NextSend(ops, 3, b, [a], true);
    assert [a] + [b] == [a, b];
    NextSend(ops, 4, c, [a, b], true);
    assert [a, b] + [c] == [a, b, c];
    Next(ops, 5, FlushRules, [a, b, c], true);
    Next(ops, 6, Pause(10), [a, b, c], false);
    End(ops, [a, b, c], false);
  }

  ghost predicate ThreadedScript(ops: seq<Op>, m: seq<Msg>) {
    |m| == 7
    && ops == [SetSendBuffer(SNDBUF), DropData, Send(m[0]), Send(m[1]), Send(m[2]), Send(m[3]), Send(m[4]),
               Pause(10), Spawn, Send(m[5]), Send(m[6]), Join, Pause(3)]
  }

  lemma ThreadedStart(ops: seq<Op>, m: seq<Msg>)
    requires ThreadedScript(ops, m)
    ensures Upto(ops, 2, m[..0], true) && Upto(ops, 3, m[..1], true) && Upto(ops, 4, m[..2], true)
    ensures Upto(ops, 5, m[..3], true) && Upto(ops, 6, m[..4], true) && Upto(ops, 7, m[..5], true)
  {
    hide Upto;
    Begin(ops);
    Next(ops, 0, SetSendBuffer(SNDBUF), [], false);
    Next(ops, 1, DropData, [], false);
    assert m[..0] == [];
    forall k | 0 <= k < 7
      ensures m[..k] + [m[k]] == m[..k + 1]
    {
    }
    NextSend(ops, 2, m[0], m[..0], true);
    NextSend(ops, 3, m[1], m[..1], true);
    NextSend(ops, 4, m[2], m[..2], true);
    NextSend(ops, 5, m[3], m[..3], true);
    NextSend(ops, 6, m[4], m[..4], true);
  }

  lemma ThreadedBody(ops: seq<Op>, m: seq<Msg>)
    requires ThreadedScript(ops, m)
    ensures Upto(ops, 9, m[..5], true) && Upto(ops, 10, m[..6], true)
    ensures Sends(ops) == m && Dropped(ops)
  {
    hide Upto;
    ThreadedStart(ops, m);
    Next(ops, 7, Pause(10), m[..5], true);
    Next(ops, 8, Spawn, m[..5], true);
    NextSend(ops, 9, m[5], m[..5], true);
    assert m[..5] + [m[5]] == m[..6] && m[..6] + [m[6]] == m;
    NextSend(ops, 10, m[6], m[..6], true);
    Next(ops, 11, Join, m, true);
    Next(ops, 12, Pause(3), m, true);
    End(ops, m, true);
  }

  // ---------------------------------------------------------------- the plans are sound

  /** Room taken by the messages before `n` that do not leave for `m`. */
  function Need(p: Plan, n: nat, m: Msg): nat {
    Load(p, Stays(p, n, m))
  }

  lemma NeedNext(p: Plan, n: nat, m: Msg)
    ensures Need(p, 0, m) == 0
    ensures Need(p, n + 1, m) == Need(p, n, m) + if Leaves(p.MsgOf(n), m) then 0 else p.Cost(n)
  {
    hide Plan.MsgOf, Leaves;
    assert Stays(p, n, m) + [] == Stays(p, n, m);
    LoadSplit(p, Stays(p, n, m), [n]);
    LoadOne(p, n);
  }

  lemma MsgsAre(p: Plan, m: seq<Msg>, id: nat)
    requires Sends(p.body) == m && id < |m|
    ensures p.MsgOf(id) == m[id] && p.Cost(id) == p.cost(m[id].len)
  {
  }

  /** What a send at call `k` needs, once it is known what was sent before. */
  lemma RoomIs(p: Plan, k: nat, sent: seq<Msg>, dropped: bool)
    requires k < |p.body| && p.body[k].Send? && Upto(p.body, k, sent, dropped)
    ensures var m := p.body[k].msg;
            RoomAt(p, k) <==>
              p.cost(m.len) <= p.Capacity()
              && (dropped && Spawn !in p.body[..k] ==> Need(p, |sent|, m) + p.cost(m.len) <= p.Capacity())
  {
  }

  /** The room of a test, by what its messages take. */
  ghost predicate Enough(p: Plan, k: Case) {
    match k.test
    case Lapse => p.cost(k.length) <= p.initial && p.cost(1000) <= p.initial
    case LapseUnordered => p.cost(k.length) <= p.initial && p.cost(1000) <= p.initial
    case LapseThree => 2 * p.cost(100) <= p.initial
    case Evict => p.cost(k.length) <= p.room(SNDBUF) && p.cost(1000) <= p.room(SNDBUF)
    case EvictUnordered => p.cost(k.length) <= p.room(SNDBUF) && p.cost(1000) <= p.room(SNDBUF)
    case EvictThree => p.cost(k.length) <= p.room(SNDBUF) && 2 * p.cost(1000) <= p.room(SNDBUF)
    case Threaded(_) => 4 * p.cost(1) <= p.room(SNDBUF) && p.cost(1000) <= p.room(SNDBUF)
  }

  /** The buffer sizes that keep case `c` from blocking. */
  ghost predicate Ample(p: Plan, c: nat)
    requires c < CASES
  {
    Enough(p, Cases(c))
  }

  /** A script that starts no thread and removes its own rules. */
  ghost predicate SingleThreaded(ops: seq<Op>) {
    && (forall i | 0 <= i < |ops| ::
          match ops[i]
          case SetSendBuffer(_) => i == 0
          case Send(m) => !IsCommand(m.len)
          case DropData => true
          case FlushRules => true
          case Pause(_) => true
          case _ => false)
    && !Dropped(ops)
  }

  lemma SingleThreadedIsGood(p: Plan)
    requires SingleThreaded(p.body) && !p.check.Order? && p.clean == CleanOps(1)
    ensures p.Good() && p.Restores() && Cleans(p)
    ensures forall k | 0 <= k <= |p.body| :: Spawn !in p.body[..k]
  {
    hide Dropped, Sends;
  }

  lemma LapsePlan(p: Plan, a: Msg, b: Msg)
    requires p.body == [DropData, Send(a), Pause(10), Send(b), FlushRules, Pause(10)]
    requires !p.check.Order? && !IsCommand(a.len) && !IsCommand(b.len)
    requires p.clean == CleanOps(1) && a.policy in {Lifetime, Retransmissions} && b.policy == Reliable
    ensures p.Good() && p.Restores() && Cleans(p) && Sends(p.body) == [a, b]
    ensures Roomy(p) <==> p.cost(a.len) <= p.initial && p.cost(b.len) <= p.initial
  {
    hide Sends, Dropped, Load, Stays, Upto, RoomAt, Need, Plan.Good, Plan.Restores, Cleans, Plan.MsgOf;
    LapseBody(p.body, a, b);
    assert SingleThreaded(p.body);
    SingleThreadedIsGood(p);
    RoomIs(p, 1, [], true);
    RoomIs(p, 3, [a], true);
    NeedNext(p, 0, a);
    NeedNext(p, 0, b);
    MsgsAre(p, [a, b], 0);
    assert Roomy(p) <==> RoomAt(p, 1) && RoomAt(p, 3);
  }

  lemma LapseThreePlan(p: Plan, a: Msg, b: Msg, c: Msg)
    requires p.body == [DropData, Send(a), Pause(10), Send(b), Send(c), FlushRules, Pause(10)]
    requires !p.check.Order? && a.len == b.len == c.len && !IsCommand(a.len)
    requires p.clean == CleanOps(1) && a.policy in {Lifetime, Retransmissions}
    requires b.policy == Reliable && c.policy == Reliable
    ensures p.Good() && p.Restores() && Cleans(p) && Sends(p.body) == [a, b, c]
    ensures Roomy(p) <==> 2 * p.cost(a.len) <= p.initial
  {
    hide Sends, Dropped, Load, Stays, Upto, RoomAt, Need, Plan.Good, Plan.Restores, Cleans, Plan.MsgOf;
    LapseThreeBody(p.body, a, b, c);
    assert SingleThreaded(p.body);
    SingleThreadedIsGood(p);
    RoomIs(p, 1, [], true);
    RoomIs(p, 3, [a], true);
    RoomIs(p, 4, [a, b], true);
    NeedNext(p, 0, a);
    NeedNext(p, 0, b);
    NeedNext(p, 0, c);
    NeedNext(p, 1, c);
    MsgsAre(p, [a, b, c], 0);
    MsgsAre(p, [a, b, c], 1);
    assert Roomy(p) <==> RoomAt(p, 1) && RoomAt(p, 3) && RoomAt(p, 4);
  }

  lemma EvictPlan(p: Plan, a: Msg, b: Msg)
    requires p.body == [SetSendBuffer(SNDBUF), DropData, Send(a), Send(b), FlushRules, Pause(10)]
    requires !p.check.Order? && !IsCommand(a.len) && !IsCommand(b.len)
    requires p.clean == CleanOps(1) && Yields(a, b)
    ensures p.Good() && p.Restores() && Cleans(p) && Sends(p.body) == [a, b]
    ensures Roomy(p) <==> p.cost(a.len) <= p.room(SNDBUF) && p.cost(b.len) <= p.room(SNDBUF)
  {
    hide Sends, Dropped, Load, Stays, Upto, RoomAt, Need, Plan.Good, Plan.Restores, Cleans, Plan.MsgOf;
    EvictBody(p.body, a, b);
    assert SingleThreaded(p.body);
    SingleThreadedIsGood(p);
    RoomIs(p, 2, [], true);
    RoomIs(p, 3, [a], true);
    NeedNext(p, 0, a);
    NeedNext(p, 0, b);
    MsgsAre(p, [a, b], 0);
    assert Roomy(p) <==> RoomAt(p, 2) && RoomAt(p, 3);
  }

  lemma EvictThreePlan(p: Plan, a: Msg, b: Msg, c: Msg)
    requires p.body == [SetSendBuffer(SNDBUF), DropData, Send(a), Send(b), Send(c), FlushRules, Pause(10)]
    requires !p.check.Order? && !IsCommand(a.len) && !IsCommand(b.len) && b.len == c.len
    requires p.clean == CleanOps(1) && Yields(a, b) && Yields(a, c) && !Leaves(b, c)
    ensures p.Good() && p.Restores() && Cleans(p) && Sends(p.body) == [a, b, c]
    ensures Roomy(p) <==> p.cost(a.len) <= p.room(SNDBUF) && 2 * p.cost(b.len) <= p.room(SNDBUF)
  {
    hide Sends, Dropped, Load, Stays, Upto, RoomAt, Need, Plan.Good, Plan.Restores, Cleans, Plan.MsgOf;
    EvictThreeBody(p.body, a, b, c);
    assert SingleThreaded(p.body);
    SingleThreadedIsGood(p);
    RoomIs(p, 2, [], true);
    RoomIs(p, 3, [a], true);
    RoomIs(p, 4, [a, b], true);
    NeedNext(p, 0, a);
    NeedNext(p, 0, b);
    NeedNext(p, 0, c);
    NeedNext(p, 1, c);
    MsgsAre(p, [a, b, c], 0);
    MsgsAre(p, [a, b, c], 1);
    assert Roomy(p) <==> RoomAt(p, 2) && RoomAt(p, 3) && RoomAt(p, 4);
  }

  /** Small messages of values v, v - 1, v, v, v - 1, then large ones of value v - 1. */
  ghost predicate ThreadedMsgs(m: seq<Msg>, v: int) {
    && |m| == 7
    && (forall i | 0 <= i < 7 :: m[i].policy == Priority)
    && (forall i | 0 <= i < 5 :: m[i].len == 1)
    && m[5].len == 1000 && m[6].len == 1000
    && m[0].value == v && m[2].value == v && m[3].value == v
    && m[1].value == v - 1 && m[4].value == v - 1 && m[5].value == v - 1 && m[6].value == v - 1
  }

  lemma SmallNeeds(p: Plan, m: seq<Msg>, v: int)
    requires Sends(p.body) == m && ThreadedMsgs(m, v)
    ensures Need(p, 0, m[0]) == 0 && Need(p, 1, m[1]) == 0
    ensures Need(p, 2, m[2]) == 2 * p.cost(1) && Need(p, 3, m[3]) == 3 * p.cost(1)
    ensures Need(p, 4, m[4]) == p.cost(1)
  {
    hide Sends, Load, Stays, Need, Plan.MsgOf, Plan.Cost;
    forall i | 0 <= i < 7
      ensures p.MsgOf(i) == m[i] && p.Cost(i) == p.cost(m[i].len)
    {
      MsgsAre(p, m, i);
    }
    NeedNext(p, 0, m[0]);
    NeedNext(p, 0, m[1]);
    NeedNext(p, 0, m[2]);
    NeedNext(p, 1, m[2]);
    NeedNext(p, 0, m[3]);
    NeedNext(p, 1, m[3]);
    NeedNext(p, 2, m[3]);
    NeedNext(p, 0, m[4]);
    NeedNext(p, 1, m[4]);
    NeedNext(p, 2, m[4]);
    NeedNext(p, 3, m[4]);
  }

  lemma ThreadedGood(p: Plan, m: seq<Msg>, v: int)
    requires ThreadedScript(p.body, m) && ThreadedMsgs(m, v) && !p.check.Order? && p.clean == CleanOps(1)
    ensures p.Good() && p.Restores() && Cleans(p)
    ensures Spawn !in p.body[..6] && Spawn in p.body[..9] && Spawn in p.body[..10]
  {
    hide Sends, Dropped;
    assert p.body[8] == Spawn && p.body[11] == Join;
    assert p.body[..9][8] == Spawn && p.body[..10][8] == Spawn && p.body[..11][8] == Spawn;
    assert Join in p.body && FlushRules in p.clean;
    forall i | 0 <= i < |p.body|
      ensures p.InBody(i)
    {
      if i == 11 {
        assert p.body[..11][8] == Spawn;
      }
    }
  }

  lemma ThreadedSends(p: Plan, m: seq<Msg>)
    requires ThreadedScript(p.body, m)
    ensures Roomy(p) <==> RoomAt(p, 2) && RoomAt(p, 3) && RoomAt(p, 4) && RoomAt(p, 5) && RoomAt(p, 6)
                          && RoomAt(p, 9) && RoomAt(p, 10)
    ensures p.Capacity() == p.room(SNDBUF)
  {
    hide RoomAt;
  }

  /** The sends before the other thread starts. */
  lemma SmallRoom(p: Plan, m: seq<Msg>, v: int, j: nat)
    requires ThreadedScript(p.body, m) && ThreadedMsgs(m, v) && j < 5
    requires Upto(p.body, j + 2, m[..j], true) && p.Capacity() == p.room(SNDBUF)
    ensures RoomAt(p, j + 2) <==> Need(p, j, m[j]) + p.cost(1) <= p.room(SNDBUF)
  {
    hide Upto, RoomAt, Need, Plan.Capacity;
    RoomIs(p, j + 2, m[..j], true);
    assert Spawn !in p.body[..j + 2];
  }

  /** The sends beside the other thread. */
  lemma LargeRoom(p: Plan, m: seq<Msg>, v: int, j: nat)
    requires ThreadedScript(p.body, m) && ThreadedMsgs(m, v) && 5 <= j < 7
    requires Upto(p.body, j + 4, m[..j], true) && p.Capacity() == p.room(SNDBUF)
    ensures RoomAt(p, j + 4) <==> p.cost(1000) <= p.room(SNDBUF)
  {
    hide Upto, RoomAt, Need, Plan.Capacity;
    RoomIs(p, j + 4, m[..j], true);
    assert p.body[..j + 4][8] == Spawn;
  }

  lemma ThreadedPlan(p: Plan, m: seq<Msg>, v: int)
    requires ThreadedScript(p.body, m) && ThreadedMsgs(m, v) && !p.check.Order? && p.clean == CleanOps(1)
    ensures p.Good() && p.Restores() && Cleans(p) && Sends(p.body) == m
    ensures Roomy(p) <==> 4 * p.cost(1) <= p.room(SNDBUF) && p.cost(1000) <= p.room(SNDBUF)
  {
    hide *;
    ThreadedGood(p, m, v);
    ThreadedStart(p.body, m);
    ThreadedBody(p.body, m);
    ThreadedSends(p, m);
    SmallNeeds(p, m, v);
    SmallRoom(p, m, v, 0);
    SmallRoom(p, m, v, 1);
    SmallRoom(p, m, v, 2);
    SmallRoom(p, m, v, 3);
    SmallRoom(p, m, v, 4);
    LargeRoom(p, m, v, 5);
    LargeRoom(p, m, v, 6);
  }

  // ---------------------------------------------------------------- the rows of the table

  /** The messages of a case, in the order of sending. */
  function Msgs(c: Case): seq<Msg> {
    match c.test
    case Lapse => [Msg(1, c.length, c.policy, c.value, false), Msg(1, 1000, Reliable, 0, false)]
    case LapseUnordered => [Msg(1, c.length, c.policy, c.value, true), Msg(1, 1000, Reliable, 0, true)]
    case LapseThree =>
      [Msg(1, 100, c.policy, c.value, true), Msg(1, 100, Reliable, 0, true), Msg(1, 100, Reliable, 0, false)]
    case Evict => [Msg(1, c.length, c.policy, c.value, false), Msg(1, 1000, c.policy, c.value - 1, false)]
    case EvictUnordered => [Msg(1, c.length, c.policy, c.value, true), Msg(1, 1000, c.policy, c.value - 1, true)]
    case EvictThree =>
      [Msg(1, c.length, c.policy, c.value, true), Msg(1, 1000, c.policy, c.value - 1, true),
       Msg(1, 1000, c.policy, c.value - 1, false)]
    case Threaded(spread) =>
      [Msg(if spread then 0 else 1, 1, c.policy, c.value, true), Msg(1, 1, c.policy, c.value - 1, true),
       Msg(if spread then 2 else 1, 1, c.policy, c.value, true),
       Msg(if spread then 3 else 1, 1, c.policy, c.value, true),
       Msg(if spread then 4 else 1, 1, c.policy, c.value - 1, true),
       Msg(if spread then 2 else 1, 1000, c.policy, c.value - 1, true),
       Msg(if spread then 3 else 1, 1000, c.policy, c.value - 1, false)]
  }

  /** Which sends come with which calls around them. */
  ghost predicate Laid(ops: seq<Op>, c: Case) {
    var m := Msgs(c);
    match c.test
    case Lapse => ops == [DropData, Send(m[0]), Pause(10), Send(m[1]), FlushRules, Pause(10)]
    case LapseUnordered => ops == [DropData, Send(m[0]), Pause(10), Send(m[1]), FlushRules, Pause(10)]
    case LapseThree => ops == [DropData, Send(m[0]), Pause(10), Send(m[1]), Send(m[2]), FlushRules, Pause(10)]
    case Evict => ops == [SetSendBuffer(SNDBUF), DropData, Send(m[0]), Send(m[1]), FlushRules, Pause(10)]
    case EvictUnordered => ops == [SetSendBuffer(SNDBUF), DropData, Send(m[0]), Send(m[1]), FlushRules, Pause(10)]
    case EvictThree =>
      ops == [SetSendBuffer(SNDBUF), DropData, Send(m[0]), Send(m[1]), Send(m[2]), FlushRules, Pause(10)]
    case Threaded(_) => ThreadedScript(ops, m)
  }

  /** With a drop mode the sends come behind the rule; without one no rule comes in at all. */
  lemma ScriptsLaid(c: Case)
    ensures c.drop > 0 ==> Laid(BodyOps(c), c) && CleanOps(c.drop) == [Pause(3), FlushRules, Pause(10)]
    ensures c.drop == 0 ==> DropData !in BodyOps(c) && FlushRules !in BodyOps(c) && CleanOps(0) == [Pause(3)]
  {
  }

  lemma TestsFit(p: Plan, k: Case)
    requires Laid(p.body, k) && p.check == k.check && !k.check.Order? && p.clean == CleanOps(1)
    requires !IsCommand(k.length)
    requires k.test.Evict? || k.test.EvictUnordered? || k.test.EvictThree? || k.test.Threaded? ==> k.policy == Priority
    requires k.test.Lapse? || k.test.LapseUnordered? || k.test.LapseThree? ==>
               k.policy in {Lifetime, Retransmissions}
    ensures p.Good() && p.Restores() && Cleans(p) && Sends(p.body) == Msgs(k)
    ensures Roomy(p) <==> Enough(p, k)
  {
    hide Sends, Dropped, Roomy, Plan.Good, Plan.Restores, Cleans;
    var m := Msgs(k);
    match k.test {
      case Lapse => LapsePlan(p, m[0], m[1]);
      case LapseUnordered => LapsePlan(p, m[0], m[1]);
      case LapseThree => LapseThreePlan(p, m[0], m[1], m[2]);
      case Evict => EvictPlan(p, m[0], m[1]);
      case EvictUnordered => EvictPlan(p, m[0], m[1]);
      case EvictThree => EvictThreePlan(p, m[0], m[1], m[2]);
      case Threaded(_) => ThreadedPlan(p, m, k.value);
    }
  }

  /** Each row fits the whole-run theorems, and its sends find room in exactly these sizes. */
  lemma CasesFit(p: Plan, c: nat)
    requires IsCase(p, c)
    ensures p.Good() && p.Restores() && Cleans(p) && Sends(p.body) == Msgs(Cases(c))
    ensures Roomy(p) <==> Ample(p, c)
    ensures p.check == Cases(c).check
  {
    hide Sends, Dropped, Roomy, Plan.Good, Plan.Restores, Cleans, Laid, Msgs, BodyOps;
    ScriptsLaid(Cases(c));
    TestsFit(p, Cases(c));
  }

  /** With that much room no schedule of the threads, the path and the stack gets stuck. */
  lemma NoCaseGetsStuck(p: Plan, c: nat, schedule: seq<Choice>)
    requires IsCase(p, c) && Ample(p, c)
    ensures p.Good() && !p.check.Order?
    ensures var w := After(p, Init(p), schedule);
            && (Stuck(p, w) ==> w.exited && w.pc == |p.Script()| && w.buffer == [] && !w.filter
                                && (w.started ==> w.cleaner == |p.clean|))
            && Moves(p, schedule) <= Measure(p, Init(p))
  {
    hide Plan.Good, Plan.Restores, Cleans, Roomy, After, Stuck, Moves, Measure, IsCase, Ample;
    CasesFit(p, c);
    StuckIsFinal(p, schedule);
    MovesAreBounded(p, schedule);
  }
}
