/**
 * When a sender waits for ever.  Behind the filter, before the other thread runs, a message stays
 * buffered if nothing that can come to press for room has a smaller value; what stays so decides
 * whether a later send can ever be taken.  With this the room each case needs is exact.
 */
module PrBlocking {
  import opened Sequences
  import opened Server
  import opened PrClient
  import opened PrWorld
  import opened PrInvariant
  import opened PrTheorems
  import opened PrProgress
  import opened PrPrograms

  // ---------------------------------------------------------------- runs that go on come to a stop

  lemma AfterOne(p: Plan, s: seq<Choice>, c: Choice)
    requires !p.check.Order?
    ensures After(p, Init(p), s + [c]) == Act(p, After(p, Init(p), s), c)
  {
    assert (s + [c])[..|s|] == s;
  }

  /** Every run can be carried on until no one can move. */
  lemma {:induction false} RunsStop(p: Plan, s: seq<Choice>) returns (t: seq<Choice>)
    requires p.Good()
    ensures !p.check.Order? && Stuck(p, After(p, Init(p), t))
    decreases var w := if p.check.Order? then Init(p) else After(p, Init(p), s); Measure(p, w)
  {
    NoTable(p);
    hide Measure, Inv, Plan.Good, Act, Enabled, After, Init;
    var w := After(p, Init(p), s);
    EveryRunKeepsInvariant(p, s);
    if Stuck(p, w) {
      t := s;
    } else {
      var c: Choice :| Enabled(p, w, c);
      AfterOne(p, s, c);
      EnabledStepsCount(p, w, c);
      EveryRunKeepsInvariant(p, s + [c]);
      MeasureIsNatural(p, After(p, Init(p), s + [c]));
      t := RunsStop(p, s + [c]);
    }
  }

  // ---------------------------------------------------------------- displaced only under pressure

  /** The room that message `j` and all before it take. */
  function Through(p: Plan, j: nat): nat {
    Load(p, UpTo(j + 1))
  }

  /** A message was displaced only if all messages up to its winner do not fit together. */
  ghost predicate Pressed(p: Plan, gone: seq<Loss>) {
    forall l | l in gone && l.reason.Displaced? :: Through(p, l.reason.winner) > p.Capacity()
  }

  /** What is buffered is some of what was accepted. */
  lemma BufferIsPart(p: Plan, accepted: nat, buffer: seq<nat>, read: seq<nat>, inbox: seq<Item>, gone: seq<Loss>)
    requires Conserved(accepted, buffer, read, inbox, gone)
    ensures Load(p, buffer) <= Load(p, UpTo(accepted))
  {
    hide Unread, Ids, UpTo, Load;
    forall x
      ensures multiset(buffer)[x] <= multiset(UpTo(accepted))[x]
    {
      assert multiset(UpTo(accepted))[x]
          == multiset(buffer)[x] + multiset(read + Unread(inbox))[x] + multiset(Ids(gone))[x];
    }
    LoadOfPart(p, buffer, UpTo(accepted));
  }

  lemma BlockedIsPressed(p: Plan, w: World)
    requires p.Good() && Inv(p, w) && Blocked(p, w)
    ensures Through(p, w.accepted) > p.Capacity()
  {
    ScriptAt(p, w.pc);
    hide Plan.Script, Plan.MsgOf, Load, UpTo, Plan.Good, Counted, Filtering, Commanded, Explained, Conserved;
    NextMsg(p, w.pc - 1);
    SendCapacity(p, w);
    BufferIsPart(p, w.accepted, w.buffer, w.read, w.inbox, w.gone);
    UpToGrows(w.accepted);
    LoadSplit(p, UpTo(w.accepted), [w.accepted]);
    LoadOne(p, w.accepted);
  }

  lemma DisplacesWhenBlocked(p: Plan, w: World, i: nat)
    requires Enabled(p, w, Displace(i))
    ensures i < |w.buffer| && Blocked(p, w)
  {
    hide Plan.Script, Plan.MsgOf, Load;
  }

  /** Only displacing and expiring give messages up. */
  lemma GoneStep(p: Plan, w: World, c: Choice)
    requires !p.check.Order?
    ensures var v := Act(p, w, c);
            v.gone == w.gone
            || (c.Expire? && c.i < |w.buffer| && v.gone == w.gone + [Loss(w.buffer[c.i], TimedOut)])
            || (c.Displace? && Enabled(p, w, c) && c.i < |w.buffer|
                && v.gone == w.gone + [Loss(w.buffer[c.i], Displaced(w.accepted))])
  {
    hide Plan.Script, Plan.MsgOf, Load, Step, Without;
    match c {
      case Main =>
      case _ =>
    }
  }

  lemma PressedStep(p: Plan, w: World, c: Choice)
    requires p.Good() && Inv(p, w) && Pressed(p, w.gone)
    ensures !p.check.Order? && Pressed(p, Act(p, w, c).gone)
  {
    NoTable(p);
    hide Plan.Good, Inv, Through, Enabled, Act, Blocked;
    GoneStep(p, w, c);
    if c.Displace? && Enabled(p, w, c) {
      DisplacesWhenBlocked(p, w, c.i);
      BlockedIsPressed(p, w);
    }
  }

  lemma {:induction false} EveryRunIsPressed(p: Plan, s: seq<Choice>)
    requires p.Good()
    ensures !p.check.Order? && Pressed(p, After(p, Init(p), s).gone)
  {
    NoTable(p);
    hide Act, Plan.Good, Inv, Through;
    if s != [] {
      var n := |s| - 1;
      EveryRunIsPressed(p, s[..n]);
      EveryRunKeepsInvariant(p, s[..n]);
      PressedStep(p, After(p, Init(p), s[..n]), s[n]);
    }
  }

  // ---------------------------------------------------------------- nothing delivered behind the filter

  /** Up to call `k` everything is sent behind a rule, and the main thread removes none. */
  ghost predicate Filtered(p: Plan, k: nat) {
    && k <= |p.body|
    && FlushRules !in p.body[..k]
    && (forall i | 0 <= i < k && p.body[i].Send? :: Dropped(p.body[..i]))
  }

  ghost predicate NoneDelivered(w: World) {
    w.read == [] && Unread(w.inbox) == []
  }

  /** Either nothing has been delivered, or the rule that was there has been removed for good. */
  ghost predicate HeldBack(w: World) {
    NoneDelivered(w) || (w.accepted > 0 && !w.filter)
  }

  lemma {:induction false} DroppedStays(ops: seq<Op>, i: nat, k: nat)
    requires i <= k <= |ops| && Dropped(ops[..i]) && FlushRules !in ops[..k]
    ensures Dropped(ops[..k])
  {
    if i < k {
      assert ops[..k][..k - 1] == ops[..k - 1];
      assert ops[..k][k - 1] != FlushRules;
      assert forall op | op in ops[..k - 1] :: op in ops[..k];
      DroppedStays(ops, i, k - 1);
    }
  }

  lemma {:induction false} SentFiltered(p: Plan, k: nat, d: nat)
    requires Filtered(p, k) && d <= k
    ensures Sends(p.body[..d]) != [] ==> Dropped(p.body[..d])
  {
    if d > 0 {
      SentFiltered(p, k, d - 1);
      assert p.body[..d][..d - 1] == p.body[..d - 1];
      assert p.body[d - 1] == p.body[..k][d - 1];
    }
  }

  /** Once something has been sent, the rule is missing only if the other thread removed it. */
  lemma RemovedByTheOther(p: Plan, k: nat, w: World)
    requires p.Good() && Inv(p, w) && Filtered(p, k) && w.pc <= 1 + k && w.accepted > 0
    ensures w.filter <==> FlushRules !in p.clean[..w.cleaner]
    ensures !w.started ==> w.filter
  {
    SentFiltered(p, k, Done(p, w.pc));
    assert p.clean[..0] == [];
    hide Plan.Good, Conserved, Counted, Commanded, Explained, Roomed, Filtered, Sends, Dropped;
  }

  lemma BufferedWasAccepted(p: Plan, w: World)
    requires Inv(p, w) && w.buffer != []
    ensures w.accepted > 0
  {
    Buffered(w.accepted, w.buffer, w.read, w.inbox, w.gone, 0);
    hide Conserved, Counted, Commanded, Explained, Roomed, Filtering;
  }

  /** Something is delivered only without a rule. */
  lemma DeliveryStep(p: Plan, w: World, c: Choice)
    requires !p.check.Order? && NoneDelivered(w)
    ensures var v := Act(p, w, c);
            NoneDelivered(v) || (!w.filter && w.buffer != [] && !v.filter && v.accepted == w.accepted)
  {
    hide Plan.Script, Plan.MsgOf, Load, Unread, Tags, Step, Without;
    if Enabled(p, w, c) {
      match c {
        case Main =>
        case Serve(_) => InboxHead(w.inbox);
        case Carry => InboxGrows(w.inbox, Tag(w.wire[0]));
        case _ =>
      }
    }
  }

  lemma CleanerAt(p: Plan, w: World)
    requires Inv(p, w)
    ensures w.cleaner <= |p.clean|
  {
    hide Conserved, Counted, Commanded, Explained, Roomed;
  }

  lemma CleanerGoesForward(p: Plan, w: World, c: Choice)
    requires !p.check.Order? && w.cleaner <= |p.clean|
    ensures var v := Act(p, w, c);
            w.cleaner <= v.cleaner <= |p.clean|
            && (FlushRules in p.clean[..w.cleaner] ==> FlushRules in p.clean[..v.cleaner])
            && v.accepted >= w.accepted
  {
    hide Plan.Script, Plan.MsgOf, Load, Step, Without;
    var v := Act(p, w, c);
    match c {
      case Main =>
      case _ =>
    }
    assert forall op | op in p.clean[..w.cleaner] :: op in p.clean[..v.cleaner];
  }

  lemma HeldBackStep(p: Plan, k: nat, w: World, c: Choice)
    requires p.Good() && Inv(p, w) && Filtered(p, k) && HeldBack(w)
    requires !p.check.Order? && Act(p, w, c).pc <= 1 + k
    ensures HeldBack(Act(p, w, c))
  {
    hide Plan.Good, Inv, Filtered, NoneDelivered, Act, Enabled;
    var v := Act(p, w, c);
    AtMostOneCall(p, w, c);
    if NoneDelivered(w) {
      DeliveryStep(p, w, c);
      if w.buffer != [] {
        BufferedWasAccepted(p, w);
      }
    } else {
      RemovedByTheOther(p, k, w);
      CleanerAt(p, w);
      CleanerGoesForward(p, w, c);
      StepKeepsInvariant(p, w, c);
      RemovedByTheOther(p, k, v);
    }
  }

  lemma StartsHeldBack(p: Plan)
    ensures HeldBack(Init(p))
  {
  }

  lemma {:induction false} RunsAreHeldBack(p: Plan, k: nat, s: seq<Choice>)
    requires p.Good() && Filtered(p, k)
    ensures !p.check.Order?
    ensures After(p, Init(p), s).pc <= 1 + k ==> HeldBack(After(p, Init(p), s))
  {
    NoTable(p);
    hide Act, Plan.Good, Inv, Filtered, HeldBack;
    if s == [] {
      assert HeldBack(Init(p)) by { StartsHeldBack(p); }
    } else {
      var n := |s| - 1;
      RunsAreHeldBack(p, k, s[..n]);
      EveryRunKeepsInvariant(p, s[..n]);
      var w := After(p, Init(p), s[..n]);
      AtMostOneCall(p, w, s[n]);
      if After(p, Init(p), s).pc <= 1 + k {
        HeldBackStep(p, k, w, s[n]);
      }
    }
  }

  // ---------------------------------------------------------------- what stays buffered

  /**
   * Message `id` has no limit of its own, and of the messages up to `n` that could displace it none
   * comes to press for room: all messages up to that one fit together.
   */
  ghost predicate Firm(p: Plan, id: nat, n: nat) {
    && p.MsgOf(id).policy !in {Lifetime, Retransmissions}
    && forall j | id < j <= n && j < |Sends(p.body)| && Yields(p.MsgOf(id), p.MsgOf(j)) :: Through(p, j) <= p.Capacity()
  }

  lemma FirmIsNotLost(p: Plan, w: World, i: nat)
    requires Inv(p, w) && Pressed(p, w.gone) && i < |w.gone|
    ensures !Firm(p, w.gone[i].id, w.accepted)
  {
    hide Plan.MsgOf, Through, Filtering, Counted, Commanded, Roomed, Conserved, Yields;
    assert Justified(p, w.accepted, w.gone[i]);
  }

  lemma FirmIsBuffered(p: Plan, w: World, id: nat)
    requires Inv(p, w) && Pressed(p, w.gone) && NoneDelivered(w) && id < w.accepted && Firm(p, id, w.accepted)
    ensures multiset(w.buffer)[id] >= 1
  {
    hide Firm, Pressed, Filtering, Counted, Commanded, Roomed, Unread, Ids, Explained;
    OnceEach(w.accepted, id);
    assert w.read + Unread(w.inbox) == [];
    IdsCount(w.gone);
    forall i | 0 <= i < |w.gone|
      ensures Ids(w.gone)[i] != id
    {
      FirmIsNotLost(p, w, i);
    }
    assert id !in Ids(w.gone);
    assert multiset(UpTo(w.accepted))[id] == multiset(w.buffer)[id] + multiset(Ids(w.gone))[id];
  }

  ghost predicate AllFirm(p: Plan, ids: seq<nat>, n: nat) {
    && (forall i | 0 <= i < |ids| :: ids[i] < n && Firm(p, ids[i], n))
    && (forall i, j | 0 <= i < j < |ids| :: ids[i] != ids[j])
  }

  lemma {:induction false} Distinct(s: seq<nat>, x: int)
    requires forall i, j | 0 <= i < j < |s| :: s[i] != s[j]
    ensures multiset(s)[x] == if x in s then 1 else 0
  {
    if s != [] {
      var n := |s| - 1;
      Distinct(s[..n], x);
      assert s == s[..n] + [s[n]];
    }
  }

  lemma FirmLoad(p: Plan, w: World, ids: seq<nat>)
    requires Inv(p, w) && Pressed(p, w.gone) && NoneDelivered(w) && AllFirm(p, ids, w.accepted)
    ensures Load(p, ids) <= Load(p, w.buffer)
  {
    hide Inv, Pressed, Load, Firm, NoneDelivered;
    forall x
      ensures multiset(ids)[x] <= multiset(w.buffer)[x]
    {
      Distinct(ids, x);
      if x in ids {
        FirmIsBuffered(p, w, x);
      }
    }
    LoadOfPart(p, ids, w.buffer);
  }

  // ---------------------------------------------------------------- calls no run gets past

  /** A send that does not fit leaves the sender where it is. */
  lemma NotTaken(p: Plan, w: World)
    requires !p.check.Order? && 1 <= w.pc < 1 + |p.body| && p.body[w.pc - 1].Send?
    requires Load(p, w.buffer) + p.cost(p.body[w.pc - 1].msg.len) > w.capacity
    ensures Act(p, w, Main) == w
  {
    ScriptAt(p, w.pc);
    hide Plan.Script, Load;
  }

  /** A message larger than the buffer is never taken. */
  lemma {:induction false} TooLarge(p: Plan, k: nat, s: seq<Choice>)
    requires p.Good() && k < |p.body| && p.body[k].Send? && p.cost(p.body[k].msg.len) > p.Capacity()
    ensures !p.check.Order? && After(p, Init(p), s).pc <= 1 + k
  {
    NoTable(p);
    hide Act, Plan.Good, Inv, Plan.Capacity;
    if s != [] {
      var n := |s| - 1;
      TooLarge(p, k, s[..n]);
      EveryRunKeepsInvariant(p, s[..n]);
      var w := After(p, Init(p), s[..n]);
      AtMostOneCall(p, w, s[n]);
      if w.pc == 1 + k {
        SendCapacity(p, w);
        NotTaken(p, w);
      }
    }
  }

  lemma SomeAccepted(p: Plan, ids: seq<nat>, n: nat)
    requires AllFirm(p, ids, n) && ids != []
    ensures n > 0
  {
    assert ids[0] < n;
  }

  /** A message that does not fit beside what stays buffered is never taken. */
  lemma {:induction false} Crowded(p: Plan, k: nat, ids: seq<nat>, s: seq<Choice>)
    requires p.Good() && Filtered(p, k) && k < |p.body| && p.body[k].Send? && Spawn !in p.body[..k]
    requires AllFirm(p, ids, |Sends(p.body[..k])|) && ids != []
    requires Load(p, ids) + p.cost(p.body[k].msg.len) > p.Capacity()
    ensures !p.check.Order? && After(p, Init(p), s).pc <= 1 + k
  {
    NoTable(p);
    hide Act, Plan.Good, Inv, Filtered, Plan.Capacity, AllFirm, Load;
    if s != [] {
      var n := |s| - 1;
      Crowded(p, k, ids, s[..n]);
      EveryRunKeepsInvariant(p, s[..n]);
      EveryRunIsPressed(p, s[..n]);
      RunsAreHeldBack(p, k, s[..n]);
      var w := After(p, Init(p), s[..n]);
      AtMostOneCall(p, w, s[n]);
      if w.pc == 1 + k {
        SendCapacity(p, w);
        SomeAccepted(p, ids, w.accepted);
        RemovedByTheOther(p, k, w);
        FirmLoad(p, w, ids);
        NotTaken(p, w);
      }
    }
  }

  // ---------------------------------------------------------------- the rows of the table

  /** Some call of the body is never got past. */
  ghost predicate NeverPassed(p: Plan, k: nat) {
    && k < |p.body| && !p.check.Order?
    && forall s: seq<Choice> :: After(p, Init(p), s).pc <= 1 + k
  }

  lemma TooLargeNeverPassed(p: Plan, k: nat)
    requires p.Good() && k < |p.body| && p.body[k].Send? && p.cost(p.body[k].msg.len) > p.Capacity()
    ensures NeverPassed(p, k)
  {
    NoTable(p);
    hide After, Plan.Good, Plan.Capacity;
    forall s: seq<Choice>
      ensures After(p, Init(p), s).pc <= 1 + k
    {
      TooLarge(p, k, s);
    }
  }

  lemma CrowdedNeverPassed(p: Plan, k: nat, ids: seq<nat>)
    requires p.Good() && Filtered(p, k) && k < |p.body| && p.body[k].Send? && Spawn !in p.body[..k]
    requires AllFirm(p, ids, |Sends(p.body[..k])|) && ids != []
    requires Load(p, ids) + p.cost(p.body[k].msg.len) > p.Capacity()
    ensures NeverPassed(p, k)
  {
    NoTable(p);
    hide After, Plan.Good, Filtered, AllFirm, Load, Plan.Capacity;
    forall s: seq<Choice>
      ensures After(p, Init(p), s).pc <= 1 + k
    {
      Crowded(p, k, ids, s);
    }
  }

  /** A message without a limit that none of the messages up to `n` has a smaller value than. */
  lemma FirmByValue(p: Plan, id: nat, n: nat)
    requires p.MsgOf(id).policy !in {Lifetime, Retransmissions}
    requires forall j | id < j <= n && j < |Sends(p.body)| :: !Yields(p.MsgOf(id), p.MsgOf(j))
    ensures Firm(p, id, n)
  {
  }

  lemma LapseThreeFiltered(p: Plan, a: Msg, b: Msg, c: Msg)
    requires p.body == [DropData, Send(a), Pause(10), Send(b), Send(c), FlushRules, Pause(10)]
    ensures Filtered(p, 4) && Spawn !in p.body[..4]
  {
    LapseThreeBody(p.body, a, b, c);
    hide Sends, Dropped;
  }

  lemma LapseThreeBlocks(p: Plan, a: Msg, b: Msg, c: Msg) returns (k: nat)
    requires p.body == [DropData, Send(a), Pause(10), Send(b), Send(c), FlushRules, Pause(10)]
    requires p.Good() && Sends(p.body) == [a, b, c] && a.len == b.len == c.len
    requires b.policy == Reliable && c.policy == Reliable
    requires 2 * p.cost(a.len) > p.initial
    ensures NeverPassed(p, k)
  {
    if p.cost(a.len) > p.initial {
      TooLargeNeverPassed(p, 1);
      return 1;
    }
    LapseThreeBody(p.body, a, b, c);
    hide Sends, Dropped, Load, Plan.Good, NeverPassed, Firm;
    MsgsAre(p, [a, b, c], 1);
    MsgsAre(p, [a, b, c], 2);
    hide Plan.MsgOf;
    FirmByValue(p, 1, 2);
    LoadOne(p, 1);
    LapseThreeFiltered(p, a, b, c);
    CrowdedNeverPassed(p, 4, [1]);
    k := 4;
  }

  lemma EvictThreeFiltered(p: Plan, a: Msg, b: Msg, c: Msg)
    requires p.body == [SetSendBuffer(SNDBUF), DropData, Send(a), Send(b), Send(c), FlushRules, Pause(10)]
    ensures Filtered(p, 4) && Spawn !in p.body[..4]
  {
    EvictThreeBody(p.body, a, b, c);
    hide Sends, Dropped;
  }

  lemma EvictThreeBlocks(p: Plan, a: Msg, b: Msg, c: Msg) returns (k: nat)
    requires p.body == [SetSendBuffer(SNDBUF), DropData, Send(a), Send(b), Send(c), FlushRules, Pause(10)]
    requires p.Good() && Sends(p.body) == [a, b, c] && b.len == c.len
    requires b.policy == Priority && !Yields(b, c)
    requires p.cost(a.len) > p.room(SNDBUF) || 2 * p.cost(b.len) > p.room(SNDBUF)
    ensures NeverPassed(p, k)
  {
    if p.cost(a.len) > p.room(SNDBUF) {
      TooLargeNeverPassed(p, 2);
      return 2;
    }
    EvictThreeBody(p.body, a, b, c);
    hide Sends, Dropped, Load, Plan.Good, NeverPassed, Firm;
    MsgsAre(p, [a, b, c], 1);
    MsgsAre(p, [a, b, c], 2);
    hide Plan.MsgOf;
    FirmByValue(p, 1, 2);
    LoadOne(p, 1);
    EvictThreeFiltered(p, a, b, c);
    CrowdedNeverPassed(p, 4, [1]);
    k := 4;
  }

  // The threaded tests: the sends before the thread starts are the same with and without the join.

  ghost predicate ThreadedPrefix(ops: seq<Op>, m: seq<Msg>) {
    && |m| == 7 && |ops| >= 7
    && ops[..7] == [SetSendBuffer(SNDBUF), DropData, Send(m[0]), Send(m[1]), Send(m[2]), Send(m[3]), Send(m[4])]
  }

  lemma PrefixUpto(ops: seq<Op>, m: seq<Msg>)
    requires ThreadedPrefix(ops, m)
    ensures Upto(ops, 2, m[..0], true) && Upto(ops, 3, m[..1], true) && Upto(ops, 4, m[..2], true)
    ensures Upto(ops, 5, m[..3], true) && Upto(ops, 6, m[..4], true)
  {
    hide Upto;
    forall k | 0 <= k < 7
      ensures ops[k] == ops[..7][k]
    {
    }
    Begin(ops);
    Next(ops, 0, SetSendBuffer(SNDBUF), [], false);
    Next(ops, 1, DropData, [], false);
    assert m[..0] == [];
    forall k | 0 <= k < 7
      ensures m[..k] + [m[k]] == m[..k + 1]
    {
    }
    NextSend(ops, 2, m[0], m[..0], true);
    NextSend(ops, 3, m[1], m[..1], true);
    NextSend(ops, 4, m[2], m[..2], true);
    NextSend(ops, 5, m[3], m[..3], true);
  }

  lemma PrefixFiltered(p: Plan, m: seq<Msg>, k: nat)
    requires ThreadedPrefix(p.body, m) && 2 <= k <= 6
    ensures Filtered(p, k) && Spawn !in p.body[..k]
  {
    PrefixUpto(p.body, m);
    hide Sends, Dropped;
    assert p.body[..k] == p.body[..7][..k];
    assert forall i | 0 <= i < k :: p.body[i] == p.body[..7][i];
  }

  lemma ThroughOne(p: Plan)
    ensures Through(p, 1) == p.Cost(0) + p.Cost(1)
  {
    hide Load, UpTo, Plan.Cost;
    NoIds();
    UpToGrows(0);
    UpToGrows(1);
    assert [] + [0] == [0];
    LoadOne(p, 0);
    LoadOne(p, 1);
    LoadSplit(p, [0], [1]);
  }

  lemma SmallCapacity(p: Plan, m: seq<Msg>)
    requires ThreadedPrefix(p.body, m)
    ensures p.Capacity() == p.room(SNDBUF)
    ensures p.body[2] == Send(m[0]) && p.body[4] == Send(m[2]) && p.body[5] == Send(m[3])
  {
    assert forall k | 0 <= k < 7 :: p.body[k] == p.body[..7][k];
  }

  lemma MidIsFirm(p: Plan, m: seq<Msg>, v: int)
    requires Sends(p.body) == m && ThreadedMsgs(m, v)
    ensures AllFirm(p, [1], 2)
  {
    hide Sends, Firm, Plan.MsgOf;
    MsgsAre(p, m, 1);
    MsgsAre(p, m, 2);
    FirmByValue(p, 1, 2);
  }

  lemma FirstThreeFirm(p: Plan, m: seq<Msg>, v: int)
    requires Sends(p.body) == m && ThreadedMsgs(m, v) && 2 * p.cost(1) <= p.Capacity()
    ensures AllFirm(p, [0, 1, 2], 3)
  {
    hide Sends, Plan.MsgOf, Plan.Cost, Plan.Capacity, Through;
    MsgsAre(p, m, 0);
    MsgsAre(p, m, 1);
    MsgsAre(p, m, 2);
    MsgsAre(p, m, 3);
    FirmByValue(p, 1, 3);
    FirmByValue(p, 2, 3);
    ThroughOne(p);
    assert Firm(p, 0, 3);
  }

  lemma ThreeLoad(p: Plan, m: seq<Msg>, v: int)
    requires Sends(p.body) == m && ThreadedMsgs(m, v)
    ensures Load(p, [0, 1, 2]) == 3 * p.cost(1)
  {
    hide Sends, Plan.MsgOf, Plan.Cost, Load;
    MsgsAre(p, m, 0);
    MsgsAre(p, m, 1);
    MsgsAre(p, m, 2);
    LoadOne(p, 0);
    LoadOne(p, 1);
    LoadOne(p, 2);
    LoadSplit(p, [0], [1]);
    LoadSplit(p, [0] + [1], [2]);
    assert [0] + [1] + [2] == [0, 1, 2];
  }

  /** Four small messages must fit together, or the sender never comes to start the thread. */
  lemma SmallOnesBlock(p: Plan, m: seq<Msg>, v: int) returns (k: nat)
    requires ThreadedPrefix(p.body, m) && ThreadedMsgs(m, v) && Sends(p.body) == m && p.Good()
    requires 4 * p.cost(1) > p.room(SNDBUF)
    ensures NeverPassed(p, k) && k <= 5
  {
    SmallCapacity(p, m);
    PrefixUpto(p.body, m);
    PrefixFiltered(p, m, 4);
    PrefixFiltered(p, m, 5);
    hide Sends, Dropped, Load, Plan.Good, NeverPassed, Firm, Filtered, Plan.Capacity, ThreadedPrefix;
    if p.cost(1) > p.room(SNDBUF) {
      TooLargeNeverPassed(p, 2);
      return 2;
    }
    if 2 * p.cost(1) > p.room(SNDBUF) {
      MidIsFirm(p, m, v);
      LoadOne(p, 1);
      MsgsAre(p, m, 1);
      CrowdedNeverPassed(p, 4, [1]);
      return 4;
    }
    FirstThreeFirm(p, m, v);
    ThreeLoad(p, m, v);
    CrowdedNeverPassed(p, 5, [0, 1, 2]);
    k := 5;
  }

  lemma ThreadedBlocks(p: Plan, m: seq<Msg>, v: int) returns (k: nat)
    requires ThreadedScript(p.body, m) && ThreadedMsgs(m, v) && Sends(p.body) == m && p.Good()
    requires 4 * p.cost(1) > p.room(SNDBUF) || p.cost(1000) > p.room(SNDBUF)
    ensures NeverPassed(p, k)
  {
    hide Sends, Dropped, Load, Plan.Good, NeverPassed, Firm, Filtered;
    if p.cost(1000) > p.room(SNDBUF) {
      TooLargeNeverPassed(p, 9);
      return 9;
    }
    assert ThreadedPrefix(p.body, m);
    k := SmallOnesBlock(p, m, v);
  }

  lemma TwoBlock(p: Plan, first: nat, second: nat)
    requires p.Good() && first < second < |p.body| && p.body[first].Send? && p.body[second].Send?
    requires p.cost(p.body[first].msg.len) > p.Capacity() || p.cost(p.body[second].msg.len) > p.Capacity()
    ensures NeverPassed(p, second)
  {
    hide Plan.Good, Plan.Capacity, After;
    if p.cost(p.body[second].msg.len) > p.Capacity() {
      TooLargeNeverPassed(p, second);
    } else {
      TooLargeNeverPassed(p, first);
      assert forall s: seq<Choice> :: After(p, Init(p), s).pc <= 1 + second;
    }
  }

  lemma TestBlocks(p: Plan, k: Case) returns (at: nat)
    requires p.Good() && Laid(p.body, k) && Sends(p.body) == Msgs(k) && !Enough(p, k)
    requires k.test.EvictThree? || k.test.Threaded? ==> k.policy == Priority
    ensures NeverPassed(p, at)
  {
    hide Sends, Dropped, Plan.Good, NeverPassed;
    var m := Msgs(k);
    match k.test {
      case Lapse => TwoBlock(p, 1, 3); at := 3;
      case LapseUnordered => TwoBlock(p, 1, 3); at := 3;
      case LapseThree => at := LapseThreeBlocks(p, m[0], m[1], m[2]);
      case Evict => TwoBlock(p, 2, 3); at := 3;
      case EvictUnordered => TwoBlock(p, 2, 3); at := 3;
      case EvictThree => at := EvictThreeBlocks(p, m[0], m[1], m[2]);
      case Threaded(_) => at := ThreadedBlocks(p, m, k.value);
    }
  }

  lemma EvictCases(c: nat)
    requires c < CASES
    ensures Cases(c).test.EvictThree? || Cases(c).test.Threaded? ==> Cases(c).policy == Priority
    ensures Cases(c).drop == 1
  {
  }

  lemma CaseBlocks(p: Plan, c: nat) returns (k: nat)
    requires IsCase(p, c) && !Ample(p, c)
    ensures NeverPassed(p, k)
  {
    assert c < CASES && p.body == BodyOps(Cases(c));
    hide Sends, Dropped, Roomy, Plan.Good, Plan.Restores, Cleans, BodyOps, NeverPassed;
    assert !Enough(p, Cases(c));
    hide Cases, Ample, Enough, Laid, Msgs, IsCase;
    CasesFit(p, c);
    EvictCases(c);
    ScriptsLaid(Cases(c));
    k := TestBlocks(p, Cases(c));
  }

  lemma NotPastIsNotExited(p: Plan, k: nat, s: seq<Choice>)
    requires p.Good() && NeverPassed(p, k)
    ensures !After(p, Init(p), s).exited
  {
    NoTable(p);
    hide After, Inv, Plan.Good;
    EveryRunKeepsInvariant(p, s);
    ExitIsLate(p, After(p, Init(p), s));
  }

  /**
   * For every row the room is exact.  With it, a run in which no one can move has ended; without
   * it no run ever ends, and every one comes to a point where no one can move.
   */
  lemma NeverBlocksIff(p: Plan, c: nat)
    requires IsCase(p, c)
    ensures !p.check.Order?
    ensures Ample(p, c) <==> forall s: seq<Choice> :: var w := After(p, Init(p), s); Stuck(p, w) ==> w.exited
    ensures Ample(p, c) <==> exists s: seq<Choice> :: After(p, Init(p), s).exited
  {
    CasesFit(p, c);
    NoTable(p);
    hide After, Stuck, IsCase, Init, Plan.Good, Plan.Restores, Roomy, Cleans, Ample, NeverPassed;
    var t := RunsStop(p, []);
    if Ample(p, c) {
      forall s: seq<Choice>
        ensures var w := After(p, Init(p), s); Stuck(p, w) ==> w.exited
      {
        NoCaseGetsStuck(p, c, s);
      }
    } else {
      var k := CaseBlocks(p, c);
      forall s: seq<Choice>
        ensures !After(p, Init(p), s).exited
      {
        NotPastIsNotExited(p, k, s);
      }
    }
  }
}
