/**
 * The reset program as a whole.  The client sends and asks for resets, stream 1 carries the data,
 * stream 0 the commands; a command overtakes data of stream 1 freely.  A rule on DATA chunks holds
 * back data and commands, a rule on all packets holds back the reset request as well.
 *
 * Whether a reset request is taken, performed or denied is left to the schedule, and so is the
 * number of bytes each receive call returns, as long as no piece looks like a command.
 */
module StrresetWorld {
  import opened Sequences
  import opened Server
  import opened Verdicts
  import opened SsnChannel
  import opened StrresetClient

  /** `expected` messages of `len` bytes are what the check function waits for. */
  datatype Plan = Plan(body: seq<Op>, len: nat, expected: nat)
  {
    function Script(): seq<Op> {
      ScriptOf(body)
    }

    function Check(): Check {
      Total(Times(expected, len))
    }

    ghost predicate Good() {
      && len > 0
      && Piece(body, expected, len)
      && FilterAfter(body).Clear()
    }
  }

  /** What lies at the server's socket: a command, or what is left of a message. */
  datatype Item = Tag(cmd: nat) | Rest(left: nat)

  /** `heard` is all the server has received, `answered` how many commands it has acknowledged. */
  datatype World = World(pc: nat, chan: Channel, filter: Filter, wire: seq<nat>, inbox: seq<Item>,
                         acks: nat, seen: seq<Event>, exited: bool, cb: Cb,
                         heard: seq<Event>, answered: nat)

  datatype Choice =
    | Client(taken: bool)          // `taken`: the stack is willing to start a reset
    | Net(step: Step)
    | Carry                        // the command reaches the server
    | Serve(n: nat, now: int)

  function Init(): World {
    World(0, Open(), Filter(false, false), [], [], 0, [], false, Start(1), [], 0)
  }

  predicate Enabled(p: Plan, w: World, c: Choice) {
    match c
    case Client(_) => w.pc < |p.Script()| && (p.Script()[w.pc] == AwaitAck ==> w.acks > 0)
    case Net(s) =>
      CanStep(w.chan, s) && (match s
                             case Accept => false
                             case Request => false
                             case Arrive(_) => w.filter.Clear()
                             case Repeat(_) => w.filter.Clear()
                             case Perform => !w.filter.all
                             case Deny => !w.filter.all
                             case _ => true)
    case Carry => w.wire != [] && w.filter.Clear()
    case Serve(n, _) =>
      w.inbox != [] && !w.exited
      && (w.inbox[0].Rest? ==> 0 < n <= w.inbox[0].left && !IsCommand(n))
  }

  function ClientMove(op: Op, w: World, taken: bool): World
    requires op.AwaitAck? ==> w.acks > 0
  {
    var v := w.(pc := w.pc + 1, filter := Filtered(w.filter, op));
    match op
    case Command(cmd) => v.(wire := w.wire + [cmd])
    case AwaitAck => v.(acks := w.acks - 1)
    case Send(_) => v.(chan := Take(w.chan, Accept))
    case Reset(_) => if taken && CanStep(w.chan, Request) then v.(chan := Take(w.chan, Request)) else v
    case _ => v
  }

  /** The head of the socket with `n` bytes read. */
  function TakenOff(inbox: seq<Item>, n: nat): seq<Item>
    requires inbox != [] && inbox[0].Rest? && n <= inbox[0].left
  {
    (if n == inbox[0].left then [] else [Rest(inbox[0].left - n)]) + inbox[1..]
  }

  function ServeMove(p: Plan, w: World, n: nat, now: int): World
    requires w.inbox != [] && (w.inbox[0].Rest? ==> n <= w.inbox[0].left)
  {
    match w.inbox[0]
    case Tag(cmd) =>
      var v := w.(inbox := w.inbox[1..], heard := w.heard + [Recv(0, cmd, now)],
                  acks := w.acks + 1, answered := w.answered + 1);
      if cmd == CLOSE_ASOC then v.(exited := true) else v
    case Rest(left) =>
      var e := Recv(1, n, now);
      w.(inbox := TakenOff(w.inbox, n), heard := w.heard + [e], seen := w.seen + [e],
         cb := Server.Step(p.Check(), w.cb, e))
  }

  /** One step; a component that cannot move leaves the world as it is. */
  function Act(p: Plan, w: World, c: Choice): World {
    if !Enabled(p, w, c) then w
    else match c
         case Client(taken) => ClientMove(p.Script()[w.pc], w, taken)
         case Net(s) =>
           var after := Take(w.chan, s);
           w.(chan := after,
              inbox := w.inbox + if |after.delivered| > |w.chan.delivered| then [Rest(p.len)] else [])
         case Carry => w.(wire := w.wire[1..], inbox := w.inbox + [Tag(w.wire[0])])
         case Serve(n, now) => ServeMove(p, w, n, now)
  }

  function After(p: Plan, w: World, schedule: seq<Choice>): World {
    if schedule == [] then w
    else Act(p, After(p, w, schedule[..|schedule| - 1]), schedule[|schedule| - 1])
  }

  // ---------------------------------------------------------------- what waits at the socket

  function Unread(inbox: seq<Item>): nat {
    if inbox == [] then 0
    else Unread(inbox[..|inbox| - 1])
         + match inbox[|inbox| - 1] case Rest(left) => left case Tag(_) => 0
  }

  function Tags(inbox: seq<Item>): seq<nat> {
    if inbox == [] then []
    else Tags(inbox[..|inbox| - 1])
         + match inbox[|inbox| - 1] case Rest(_) => [] case Tag(cmd) => [cmd]
  }

  lemma {:induction false} InboxSplit(a: seq<Item>, b: seq<Item>)
    ensures Unread(a + b) == Unread(a) + Unread(b)
    ensures Tags(a + b) == Tags(a) + Tags(b)
  {
    if b == [] {
      assert a + b == a;
    } else {
      InboxSplit(a, b[..|b| - 1]);
      assert (a + b)[..|a + b| - 1] == a + b[..|b| - 1];
    }
  }

  lemma InboxOne(i: Item)
    ensures Unread([i]) == match i case Rest(left) => left case Tag(_) => 0
    ensures Tags([i]) == match i case Rest(_) => [] case Tag(cmd) => [cmd]
  {
    assert [i][..0] == [];
  }

  lemma InboxGrows(inbox: seq<Item>, i: Item)
    ensures Unread(inbox + [i]) == Unread(inbox) + match i case Rest(left) => left case Tag(_) => 0
    ensures Tags(inbox + [i]) == Tags(inbox) + match i case Rest(_) => [] case Tag(cmd) => [cmd]
  {
    InboxSplit(inbox, [i]);
    InboxOne(i);
  }

  lemma InboxHead(inbox: seq<Item>)
    requires inbox != []
    ensures Unread(inbox) == Unread(inbox[1..]) + match inbox[0] case Rest(left) => left case Tag(_) => 0
    ensures Tags(inbox) == (match inbox[0] case Rest(_) => [] case Tag(cmd) => [cmd]) + Tags(inbox[1..])
  {
    assert inbox == [inbox[0]] + inbox[1..];
    InboxSplit([inbox[0]], inbox[1..]);
    InboxOne(inbox[0]);
  }

  // ---------------------------------------------------------------- the invariant

  /** How many calls of the body have been made. */
  function Done(p: Plan, pc: nat): nat {
    if pc < 3 then 0 else if pc - 3 < |p.body| then pc - 3 else |p.body|
  }

  /** Messages accepted so far are those sent so far. */
  ghost predicate SentSoFar(p: Plan, pc: nat, accepted: nat, filter: Filter) {
    && accepted == Sent(p.body[..Done(p, pc)])
    && filter == FilterAfter(p.body[..Done(p, pc)])
  }

  /** Every byte delivered by the association is in a counted piece or still waiting. */
  ghost predicate BytesKept(p: Plan, delivered: nat, inbox: seq<Item>, seen: seq<Event>, cb: Cb) {
    && Positive(seen)
    && Sum(seen) + Unread(inbox) == Times(delivered, p.len)
    && cb == Fold(p.Check(), Start(1), seen)
    && (forall i | i in inbox && i.Rest? :: i.left > 0)
  }

  /** A command is on the wire, at the socket, or acknowledged. */
  ghost predicate Outstanding(cmd: nat, wire: seq<nat>, tags: seq<nat>, acks: nat) {
    || (wire == [cmd] && tags == [] && acks == 0)
    || (wire == [] && tags == [cmd] && acks == 0)
    || (wire == [] && tags == [] && acks == 1)
  }

  /** At most one command is outstanding, and the server has exited once it answered the last. */
  ghost predicate Commanded(p: Plan, pc: nat, wire: seq<nat>, tags: seq<nat>, acks: nat, exited: bool) {
    var last := |p.body| + 4;
    && pc <= last + 1
    && (pc == 2 ==> Outstanding(SET_STRRESET, wire, tags, acks))
    && (pc == last ==> Outstanding(CLOSE_ASOC, wire, tags, acks))
    && (pc != 2 && pc != last ==> wire == [] && tags == [] && acks == 0)
    && (exited <==> pc > last || (pc == last && acks == 1))
  }

  ghost predicate WorldInv(p: Plan, w: World) {
    && Inv(w.chan)
    && SentSoFar(p, w.pc, w.chan.accepted, w.filter)
    && BytesKept(p, |w.chan.delivered|, w.inbox, w.seen, w.cb)
    && Commanded(p, w.pc, w.wire, Tags(w.inbox), w.acks, w.exited)
  }

  lemma ScriptAt(p: Plan, pc: nat)
    ensures |p.Script()| == |p.body| + 5
    ensures pc < |p.Script()| ==>
      p.Script()[pc] == (if pc == 0 then EnableReset
                         else if pc == 1 then Command(SET_STRRESET)
                         else if pc == 2 then AwaitAck
                         else if pc < 3 + |p.body| then p.body[pc - 3]
                         else if pc == 3 + |p.body| then Command(CLOSE_ASOC)
                         else AwaitAck)
  {
  }

  lemma SentStep(ops: seq<Op>, k: nat)
    requires k < |ops|
    ensures Sent(ops[..k + 1]) == Sent(ops[..k]) + if ops[k].Send? then 1 else 0
    ensures FilterAfter(ops[..k + 1]) == Filtered(FilterAfter(ops[..k]), ops[k])
  {
    assert ops[..k + 1][..k] == ops[..k];
  }

  lemma AcceptKeeps(c: Channel)
    requires Inv(c)
    ensures Inv(Take(c, Accept))
    ensures Take(c, Accept).accepted == c.accepted + 1 && Take(c, Accept).delivered == c.delivered
  {
    StepKeeps(c, Accept);
  }

  lemma RequestKeeps(c: Channel)
    requires Inv(c) && CanStep(c, Request)
    ensures Inv(Take(c, Request))
    ensures Take(c, Request).accepted == c.accepted && Take(c, Request).delivered == c.delivered
  {
    StepKeeps(c, Request);
  }

  /** A client call that stays within the script. */
  lemma ClientKeeps(p: Plan, w: World, taken: bool)
    requires p.Good() && WorldInv(p, w) && Enabled(p, w, Client(taken))
    ensures WorldInv(p, Act(p, w, Client(taken)))
  {
    ScriptAt(p, w.pc);
    var op := p.Script()[w.pc];
    if 3 <= w.pc < 3 + |p.body| {
      assert op in p.body;
      SentStep(p.body, w.pc - 3);
    }
    hide Plan.Script, Inv, Piece, Sent, FilterAfter, Take, BytesKept, Tags;
    if op.Send? {
      AcceptKeeps(w.chan);
    } else if op.Reset? && taken && CanStep(w.chan, Request) {
      RequestKeeps(w.chan);
    }
  }

  /** A network step delivers one message or none. */
  lemma DeliversOneOrNone(c: Channel, s: Step)
    requires Inv(c) && CanStep(c, s)
    ensures var d := Take(c, s);
            && |c.delivered| <= |d.delivered| <= |c.delivered| + 1
            && (!s.Accept? ==> d.accepted == c.accepted)
  {
    hide Inv;
  }

  /** A message handed over by the association waits at the socket. */
  lemma DeliveryKeeps(p: Plan, delivered: nat, inbox: seq<Item>, seen: seq<Event>, cb: Cb)
    requires p.len > 0 && BytesKept(p, delivered, inbox, seen, cb)
    ensures BytesKept(p, delivered + 1, inbox + [Rest(p.len)], seen, cb)
    ensures Tags(inbox + [Rest(p.len)]) == Tags(inbox)
  {
    hide Fold, Sum, Unread, Tags;
    InboxGrows(inbox, Rest(p.len));
  }

  lemma NetCan(p: Plan, w: World, s: Step)
    requires Enabled(p, w, Net(s))
    ensures CanStep(w.chan, s) && !s.Accept? && !s.Request?
  {
  }

  lemma LenPositive(p: Plan)
    requires p.Good()
    ensures p.len > 0
  {
  }

  lemma NetKeeps(p: Plan, w: World, s: Step)
    requires p.Good() && WorldInv(p, w) && Enabled(p, w, Net(s))
    ensures WorldInv(p, Act(p, w, Net(s)))
  {
    hide Plan.Script, Inv, Plan.Good, SentSoFar, Take, BytesKept, Commanded, Tags, Enabled, CanStep;
    NetCan(p, w, s);
    LenPositive(p);
    StepKeeps(w.chan, s);
    DeliversOneOrNone(w.chan, s);
    DeliveryKeeps(p, |w.chan.delivered|, w.inbox, w.seen, w.cb);
    assert w.inbox + [] == w.inbox;
  }

  lemma CarryKeeps(p: Plan, w: World)
    requires p.Good() && WorldInv(p, w) && Enabled(p, w, Carry)
    ensures WorldInv(p, Act(p, w, Carry))
  {
    hide Plan.Script, Inv, Plan.Good, Sent, FilterAfter, Fold;
    InboxGrows(w.inbox, Tag(w.wire[0]));
  }

  lemma FoldOne(target: int, d: seq<Event>, e: Event)
    requires Positive(d) && e.Recv? && e.len > 0
    ensures Positive(d + [e]) && Sum(d + [e]) == Sum(d) + e.len
    ensures Fold(Total(target), Start(1), d + [e])
         == Server.Step(Total(target), Fold(Total(target), Start(1), d), e)
  {
    assert (d + [e])[..|d|] == d;
    FoldLast(Total(target), Start(1), d + [e]);
  }

  lemma TakenOffCounts(inbox: seq<Item>, n: nat)
    requires inbox != [] && inbox[0].Rest? && n <= inbox[0].left
    ensures Unread(TakenOff(inbox, n)) == Unread(inbox) - n && Tags(TakenOff(inbox, n)) == Tags(inbox)
    ensures forall i | i in TakenOff(inbox, n) && i.Rest? && i !in inbox :: i.left > 0
  {
    var later := TakenOff(inbox, n);
    InboxHead(inbox);
    if n == inbox[0].left {
      assert later == inbox[1..];
    } else {
      InboxHead(later);
      assert later[1..] == inbox[1..];
    }
  }

  /** A receive call takes some bytes off the head of the socket and counts them. */
  lemma PieceKeeps(p: Plan, delivered: nat, inbox: seq<Item>, seen: seq<Event>, cb: Cb, n: nat, now: int)
    requires inbox != [] && inbox[0].Rest? && 0 < n <= inbox[0].left
    requires BytesKept(p, delivered, inbox, seen, cb)
    ensures var e := Recv(1, n, now);
            && BytesKept(p, delivered, TakenOff(inbox, n), seen + [e], Server.Step(p.Check(), cb, e))
            && Tags(TakenOff(inbox, n)) == Tags(inbox)
  {
    hide Times, Server.Step, Fold, Sum, Unread, Tags, TakenOff;
    TakenOffCounts(inbox, n);
    FoldOne(p.Check().target, seen, Recv(1, n, now));
  }

  lemma TagKeeps(p: Plan, delivered: nat, inbox: seq<Item>, seen: seq<Event>, cb: Cb)
    requires inbox != [] && inbox[0].Tag?
    requires BytesKept(p, delivered, inbox, seen, cb)
    ensures BytesKept(p, delivered, inbox[1..], seen, cb)
    ensures Tags(inbox) == [inbox[0].cmd] + Tags(inbox[1..])
    ensures |Tags(inbox)| == 1 ==> Tags(inbox) == [inbox[0].cmd] && Tags(inbox[1..]) == []
  {
    hide Times, Fold;
    InboxHead(inbox);
    assert |Tags(inbox)| == 1 + |Tags(inbox[1..])|;
  }

  lemma ServeKeeps(p: Plan, w: World, n: nat, now: int)
    requires p.Good() && WorldInv(p, w) && Enabled(p, w, Serve(n, now))
    ensures WorldInv(p, Act(p, w, Serve(n, now)))
  {
    hide Plan.Script, Inv, Plan.Good, SentSoFar, BytesKept, Server.Step, Plan.Check;
    if w.inbox[0].Rest? {
      PieceKeeps(p, |w.chan.delivered|, w.inbox, w.seen, w.cb, n, now);
    } else {
      TagKeeps(p, |w.chan.delivered|, w.inbox, w.seen, w.cb);
    }
  }
}
