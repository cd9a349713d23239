/**
 * The scheduler program as a whole: the client's calls, the association between them, the server.
 * A schedule says who moves at each step, so that a statement about every schedule is a statement
 * about every interleaving.
 *
 * What is assumed of the association: it transmits one message at a time, chosen by the scheduler,
 * never while a stream reset is pending, and delivers in the order of transmission; a pending reset
 * completes only while no rule drops the peer's answers; so does an acknowledgement reach the
 * client.  A long sleep ends with the queues drained.
 */
module NdataWorld {
  import opened Sequences
  import opened Scheduler
  import opened SchedOrder
  import opened ClosedForms
  import opened NdataCases
  import opened NdataScripts
  import opened Server

  predicate InBody(op: Op, streams: nat) {
    match op
    case Command(_) => false
    case AwaitAck => false
    case SetValue(s, _) => s < streams
    case Send(s, len, _) => s < streams && Untagged(len)
    case _ => true
  }

  /**
   * A client script: `setup`, the opening command, `body`, the closing command.  The association
   * has `streams` outgoing streams.
   */
  datatype Plan = Plan(streams: nat, setup: seq<Op>, body: seq<Op>, check: Check)
  {
    function Script(): seq<Op> {
      setup + [Command(SET_STRRESET), AwaitAck] + body + [Command(CLOSE_ASOC), AwaitAck]
    }

    ghost predicate Good() {
      && streams > 0
      && (forall i | 0 <= i < |setup| ::
            setup[i].SetPolicy? || setup[i].EnableReset? || (setup[i].SetValue? && setup[i].stream < streams))
      && (forall i | 0 <= i < |body| :: InBody(body[i], streams))
      && body != [] && body[|body| - 1] == Settle
      && (forall i | 0 <= i < |body| && body[i] == Settle :: Rules(body[..i]) == 0)
      && InTable(check, Start(0), |Sent(body)|)
    }
  }

  /**
   * `sent` and `got` are the data accepted from the client and consumed by the server; `heard` is
   * all the server has received, commands included, and `answered` how many it has acknowledged.
   */
  datatype World = World(pc: nat, q: OutQ, rules: nat, closed: bool, net: seq<Msg>, acks: nat,
                         sent: seq<Msg>, got: seq<Msg>, seen: seq<Event>, exited: bool, cb: Cb,
                         heard: seq<Event>, answered: nat)

  datatype Choice = Client | Transmit | Serve(now: int) | Reopen

  /** The association starts first come, first served. */
  function Init(p: Plan): World {
    World(0, Fresh(p.streams, Fcfs), 0, false, [], 0, [], [], [], false, Start(0), [], 0)
  }

  ghost predicate Enabled(p: Plan, w: World, c: Choice) {
    && w.q.Valid() && |w.q.queues| == p.streams > 0
    && match c
       case Client =>
         && w.pc < |p.Script()|
         && (match p.Script()[w.pc]
             case AwaitAck => w.acks > 0 && w.rules == 0
             case Settle => w.q.ring == [] && w.net == [] && !w.closed
             case SetValue(s, _) => s < p.streams
             case Send(s, _, _) => s < p.streams
             case _ => true)
       case Transmit => w.q.ring != [] && !w.closed
       case Serve(_) => w.net != [] && !w.exited && (IsCommand(w.net[0].len) || InTable(p.check, w.cb, 1))
       case Reopen => w.closed && w.rules == 0
  }

  ghost function ClientMove(op: Op, w: World): World
    requires w.q.Valid() && |w.q.queues| > 0
    requires op.AwaitAck? ==> w.acks > 0
    requires op.SetValue? ==> op.stream < |w.q.queues|
    requires op.Send? ==> op.sid < |w.q.queues|
  {
    var v := w.(pc := w.pc + 1);
    match op
    case SetPolicy(policy) => v.(q := w.q.(policy := policy))
    case SetValue(s, x) => v.(q := w.q.(value := w.q.value[s := x]))
    case Command(cmd) => v.(q := Enqueue(w.q, 0, cmd))
    case AwaitAck => v.(acks := w.acks - 1)
    case DropInput => v.(rules := w.rules + 1)
    case ResetStreams => v.(closed := true)
    case FlushRules => v.(rules := 0)
    case Send(s, len, _) =>
      v.(q := Enqueue(w.q, s, len), sent := w.sent + [Msg(s, w.q.count[s], w.q.clock, len)])
    case _ => v
  }

  ghost function ServeMove(p: Plan, w: World, now: int): World
    requires w.net != [] && (IsCommand(w.net[0].len) || InTable(p.check, w.cb, 1))
  {
    var m := w.net[0];
    var e := Recv(m.sid, m.len, now);
    var v := w.(net := w.net[1..], heard := w.heard + [e]);
    if m.len == SET_STRRESET then v.(acks := w.acks + 1, answered := w.answered + 1)
    else if m.len == CLOSE_ASOC then v.(acks := w.acks + 1, answered := w.answered + 1, exited := true)
    else
      v.(got := w.got + [m], seen := w.seen + [e], cb := Step(p.check, w.cb, e))
  }

  /** One step; a component that cannot move leaves the world as it is. */
  ghost function Act(p: Plan, w: World, c: Choice): World {
    if !Enabled(p, w, c) then w
    else match c
         case Client => ClientMove(p.Script()[w.pc], w)
         case Transmit => w.(q := Pop(w.q), net := w.net + [Next(w.q)])
         case Serve(now) => ServeMove(p, w, now)
         case Reopen => w.(closed := false)
  }

  ghost function After(p: Plan, w: World, schedule: seq<Choice>): World {
    if schedule == [] then w
    else Act(p, After(p, w, schedule[..|schedule| - 1]), schedule[|schedule| - 1])
  }

  // ---------------------------------------------------------------- the invariant

  function On(msgs: seq<Msg>, s: nat): seq<Msg> {
    if msgs == [] then []
    else On(msgs[..|msgs| - 1], s) + if msgs[|msgs| - 1].sid == s then [msgs[|msgs| - 1]] else []
  }

  lemma {:induction false} OnSplit(a: seq<Msg>, b: seq<Msg>, s: nat)
    ensures On(a + b, s) == On(a, s) + On(b, s)
  {
    if b == [] {
      assert a + b == a;
    } else {
      OnSplit(a, b[..|b| - 1], s);
      assert (a + b)[..|a + b| - 1] == a + b[..|b| - 1];
    }
  }

  /** On every stream: delivered, then in flight, then waiting, is what was accepted. */
  ghost predicate Conserved(queues: seq<seq<Msg>>, net: seq<Msg>, got: seq<Msg>, sent: seq<Msg>) {
    forall s | 0 <= s < |queues| :: On(got + net, s) + queues[s] == On(sent, s)
  }

  /** Messages as the client submitted them. */
  ghost predicate AsSubmitted(msgs: seq<Msg>, subs: seq<Submission>) {
    && |msgs| == |subs|
    && forall i | 0 <= i < |msgs| :: msgs[i].sid == subs[i].sid && msgs[i].len == subs[i].len
  }

  /** The events the server saw are the messages it consumed. */
  ghost predicate AsSeen(seen: seq<Event>, got: seq<Msg>) {
    && |seen| == |got|
    && forall i | 0 <= i < |got| :: seen[i].Recv? && seen[i].sid == got[i].sid && seen[i].len == got[i].len
  }

  ghost predicate Counted(p: Plan, w: World) {
    && AsSeen(w.seen, w.got)
    && InTable(p.check, Start(0), |w.seen|)
    && w.cb == Fold(p.check, Start(0), w.seen)
  }

  ghost predicate DataOnly(msgs: seq<Msg>, streams: nat) {
    forall i | 0 <= i < |msgs| :: Untagged(msgs[i].len) && msgs[i].sid < streams
  }

  /** The association after the calls of `ops`, none of which sends. */
  ghost function Configured(ops: seq<Op>, streams: nat): (q: OutQ)
    requires forall i | 0 <= i < |ops| ::
               ops[i].SetPolicy? || ops[i].EnableReset? || (ops[i].SetValue? && ops[i].stream < streams)
    ensures Idle(q) && q.Valid() && |q.queues| == streams
    ensures q.clock == 0
  {
    if ops == [] then Fresh(streams, Fcfs)
    else
      var q := Configured(ops[..|ops| - 1], streams);
      match ops[|ops| - 1]
      case SetPolicy(policy) => q.(policy := policy)
      case SetValue(s, x) => q.(value := q.value[s := x])
      case _ => q
  }

  ghost predicate Quiet(w: World) {
    w.q.ring == [] && w.net == []
  }

  /** A command alone in the queues `before`, and the queues it leaves behind. */
  ghost predicate Errand(before: OutQ, m: Msg, after: OutQ, cmd: nat, streams: nat) {
    && before.Valid() && |before.queues| == streams > 0 && before.ring != []
    && Next(before) == m && Pop(before) == after && m.len == cmd
    && after.Valid() && |after.queues| == streams && after.ring == []
  }

  /** The command is waiting, in flight, or consumed and acknowledged. */
  ghost predicate Outstanding(w: World, before: OutQ, m: Msg, after: OutQ, served: bool) {
    || (w.q == before && w.net == [] && w.acks == 0 && !served)
    || (w.q == after && w.net == [m] && w.acks == 0 && !served)
    || (w.q == after && w.net == [] && w.acks == 1 && served)
  }

  lemma CommandAlone(base: OutQ, cmd: nat)
    requires Idle(base) && |base.queues| > 0
    ensures var q := Enqueue(base, 0, cmd);
            && q.ring != [] && Errand(q, Next(q), Pop(q), cmd, |base.queues|)
            && Idle(Pop(q))
            && Pop(q).value == base.value && Pop(q).policy == base.policy
  {
    var q := Enqueue(base, 0, cmd);
    assert q.queues[0] == [Msg(0, base.count[0], base.clock, cmd)];
    assert q.ring == [0] && BestFrom(q, 0) == 0;
    assert Pop(q).queues == base.queues;
  }

  ghost predicate Untouched(w: World) {
    && w.sent == [] && w.got == [] && w.seen == [] && !w.exited && w.cb == Start(0)
    && w.rules == 0 && !w.closed
  }

  /** How far the body has run. */
  function BodyAt(p: Plan, pc: nat): int {
    pc - |p.setup| - 2
  }

  ghost predicate SetupPhase(p: Plan, w: World)
    requires p.Good()
  {
    && w.pc <= |p.setup|
    && w.q == Configured(p.setup[..w.pc], p.streams) && w.net == [] && w.acks == 0
    && Untouched(w)
  }

  /** The association with the opening command waiting, and after it has left. */
  ghost function Opened(p: Plan): (q: OutQ)
    requires p.Good()
    ensures q.Valid()
  {
    Enqueue(Configured(p.setup, p.streams), 0, SET_STRRESET)
  }

  ghost predicate OpeningWith(p: Plan, w: World, before: OutQ, m: Msg, after: OutQ)
    requires p.Good()
  {
    && w.pc == |p.setup| + 1
    && Untouched(w)
    && Errand(before, m, after, SET_STRRESET, p.streams)
    && Idle(after)
    && (exists served :: Outstanding(w, before, m, after, served))
  }

  ghost predicate OpeningPhase(p: Plan, w: World)
    requires p.Good()
  {
    var q := Opened(p);
    q.ring != [] && OpeningWith(p, w, q, Next(q), Pop(q))
  }

  ghost predicate BodyPhase(p: Plan, w: World)
    requires p.Good()
  {
    var k := BodyAt(p, w.pc);
    && 0 <= k <= |p.body|
    && w.q.Valid() && |w.q.queues| == p.streams > 0
    && !w.exited && w.acks == 0
    && w.rules == Rules(p.body[..k])
    && Conserved(w.q.queues, w.net, w.got, w.sent)
    && AsSubmitted(w.sent, Sent(p.body[..k]))
    && DataOnly(w.sent, p.streams) && DataOnly(w.net, p.streams) && DataOnly(w.got, p.streams)
    && Counted(p, w)
    && |w.got| + |w.net| + Size(w.q.queues) == |w.sent|
    && (k == |p.body| ==> Quiet(w) && !w.closed)
  }

  /** Everything accepted has been consumed, in its stream's order. */
  ghost predicate Complete(p: Plan, w: World) {
    && (forall s | 0 <= s < p.streams :: On(w.got, s) == On(w.sent, s))
    && |w.got| == |w.sent| && DataOnly(w.got, p.streams) && DataOnly(w.sent, p.streams)
    && AsSubmitted(w.sent, Sent(p.body))
    && Counted(p, w)
  }

  ghost predicate ClosingWith(p: Plan, w: World, before: OutQ, m: Msg, after: OutQ)
    requires p.Good()
  {
    && w.pc == |p.setup| + 2 + |p.body| + 1
    && w.rules == 0 && !w.closed
    && Complete(p, w)
    && Errand(before, m, after, CLOSE_ASOC, p.streams)
    && Outstanding(w, before, m, after, w.exited)
  }

  ghost predicate ClosingPhase(p: Plan, w: World)
    requires p.Good()
  {
    exists before, m, after :: ClosingWith(p, w, before, m, after)
  }

  ghost predicate FinalPhase(p: Plan, w: World)
    requires p.Good()
  {
    && w.pc == |p.Script()|
    && w.exited && Quiet(w) && !w.closed && w.rules == 0 && w.acks == 0
    && w.q.Valid() && |w.q.queues| == p.streams > 0
    && Complete(p, w)
  }

  ghost predicate Inv(p: Plan, w: World)
    requires p.Good()
  {
    SetupPhase(p, w) || OpeningPhase(p, w) || BodyPhase(p, w) || ClosingPhase(p, w) || FinalPhase(p, w)
  }
}
