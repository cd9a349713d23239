/**
 * The partial-reliability program as a whole: the sending thread, the cleaning thread, the send
 * buffer between them and the path, the path, the server.
 *
 * What is assumed of the stack: a send is taken when the message fits beside what is buffered and
 * blocks otherwise; while a message of the priority policy is blocked, buffered messages of that
 * policy with a larger value may be abandoned, in any order and number (section 3.2 of RFC 7496);
 * a message with a lifetime or a limited number of retransmissions may be abandoned at any time;
 * a buffered message is delivered, in any order, only while no rule drops it.  How much room a
 * message takes and how much there is are parameters.
 */
module PrWorld {
  import opened Sequences
  import opened Server
  import opened PrClient

  // ---------------------------------------------------------------- scripts

  function Sends(ops: seq<Op>): seq<Msg> {
    if ops == [] then []
    else Sends(ops[..|ops| - 1]) + if ops[|ops| - 1].Send? then [ops[|ops| - 1].msg] else []
  }

  /** The filter as the calls alone leave it. */
  predicate Dropped(ops: seq<Op>) {
    ops != []
    && var op := ops[|ops| - 1];
       op.DropData? || (!op.FlushRules? && Dropped(ops[..|ops| - 1]))
  }

  const NOBODY := Msg(0, 0, Reliable, 0, false)

  datatype Plan = Plan(body: seq<Op>, clean: seq<Op>, check: Check, cost: nat -> nat, room: nat -> nat, initial: nat)
  {
    function Script(): seq<Op> {
      ScriptOf(body)
    }

    /** Message `id` is the `id`-th the script sends. */
    function MsgOf(id: nat): Msg {
      var m := Sends(body);
      if id < |m| then m[id] else NOBODY
    }

    function Cost(id: nat): nat {
      cost(MsgOf(id).len)
    }

    /** The size of the send buffer once the first call of the body has been made. */
    function Capacity(): nat {
      if body != [] && body[0].SetSendBuffer? then room(body[0].size) else initial
    }

    ghost predicate Good() {
      && !check.Order?
      && (forall i | 0 <= i < |body| :: InBody(i))
      && (forall op | op in clean :: op.Pause? || op.FlushRules?)
    }

    /** Rules the script leaves behind are removed by the other thread, which it waits for. */
    ghost predicate Restores() {
      Dropped(body) ==> Join in body && FlushRules in clean
    }

    /** What call `i` of the body may be. */
    ghost predicate InBody(i: nat)
      requires i < |body|
    {
      match body[i]
      case SetSendBuffer(_) => i == 0
      case DropData => Spawn !in body[..i]
      case Spawn => Spawn !in body[..i]
      case Join => Spawn in body[..i]
      case Send(m) => !IsCommand(m.len)
      case FlushRules => true
      case Pause(_) => true
      case _ => false
    }
  }

  // ---------------------------------------------------------------- the state

  datatype Reason = TimedOut | Displaced(winner: nat)

  /** A message given up, and why. */
  datatype Loss = Loss(id: nat, reason: Reason)

  datatype Item = Tag(cmd: nat) | Data(id: nat)

  /** `heard` is all the server has received, `answered` how many commands it has acknowledged. */
  datatype World = World(pc: nat, started: bool, cleaner: nat, filter: bool, capacity: nat,
                         accepted: nat, buffer: seq<nat>, gone: seq<Loss>,
                         wire: seq<nat>, inbox: seq<Item>, acks: nat,
                         read: seq<nat>, seen: seq<Event>, exited: bool, cb: Cb,
                         heard: seq<Event>, answered: nat)

  datatype Choice =
    | Main
    | Cleaner
    | Deliver(i: nat)
    | Displace(i: nat)             // give up buffered message `i` for the one that is blocked
    | Expire(i: nat)
    | Carry                        // the command reaches the server
    | Serve(now: int)

  function Init(p: Plan): World {
    World(0, false, 0, false, p.initial, 0, [], [], [], [], 0, [], [], false, Start(1), [], 0)
  }

  function Load(p: Plan, ids: seq<nat>): nat {
    if ids == [] then 0 else Load(p, ids[..|ids| - 1]) + p.Cost(ids[|ids| - 1])
  }

  predicate Fits(p: Plan, w: World, m: Msg) {
    Load(p, w.buffer) + p.cost(m.len) <= w.capacity
  }

  predicate AtSend(p: Plan, w: World) {
    w.pc < |p.Script()| && p.Script()[w.pc].Send?
  }

  /** The sending thread is waiting for room. */
  predicate Blocked(p: Plan, w: World) {
    AtSend(p, w) && !Fits(p, w, p.Script()[w.pc].msg)
  }

  /** `a` may be given up in favour of `b`. */
  predicate Yields(a: Msg, b: Msg) {
    a.policy == Priority && b.policy == Priority && b.value < a.value
  }

  predicate Enabled(p: Plan, w: World, c: Choice) {
    match c
    case Main =>
      w.pc < |p.Script()|
      && (match p.Script()[w.pc]
          case Send(m) => Fits(p, w, m)
          case Join => w.cleaner == |p.clean|
          case AwaitAck => w.acks > 0
          case _ => true)
    case Cleaner => w.started && w.cleaner < |p.clean|
    case Deliver(i) => i < |w.buffer| && !w.filter
    case Displace(i) =>
      i < |w.buffer| && Blocked(p, w) && Yields(p.MsgOf(w.buffer[i]), p.Script()[w.pc].msg)
    case Expire(i) =>
      i < |w.buffer| && p.MsgOf(w.buffer[i]).policy in {Lifetime, Retransmissions}
    case Carry => w.wire != [] && !w.filter
    case Serve(_) => w.inbox != [] && !w.exited
  }

  function Without(s: seq<nat>, i: nat): seq<nat>
    requires i < |s|
  {
    s[..i] + s[i + 1..]
  }

  function MainMove(p: Plan, op: Op, w: World): World
    requires op.AwaitAck? ==> w.acks > 0
  {
    var v := w.(pc := w.pc + 1);
    match op
    case SetSendBuffer(size) => v.(capacity := p.room(size))
    case DropData => v.(filter := true)
    case FlushRules => v.(filter := false)
    case Send(_) => v.(accepted := w.accepted + 1, buffer := w.buffer + [w.accepted])
    case Spawn => v.(started := true)
    case Command(cmd) => v.(wire := w.wire + [cmd])
    case AwaitAck => v.(acks := w.acks - 1)
    case _ => v
  }

  function ServeMove(p: Plan, w: World, now: int): World
    requires w.inbox != [] && !p.check.Order?
  {
    match w.inbox[0]
    case Tag(cmd) =>
      var v := w.(inbox := w.inbox[1..], heard := w.heard + [Recv(0, cmd, now)],
                  acks := w.acks + 1, answered := w.answered + 1);
      if cmd == CLOSE_ASOC then v.(exited := true) else v
    case Data(id) =>
      var e := Recv(p.MsgOf(id).sid, p.MsgOf(id).len, now);
      w.(inbox := w.inbox[1..], heard := w.heard + [e], read := w.read + [id], seen := w.seen + [e],
         cb := Step(p.check, w.cb, e))
  }

  /** One step; a component that cannot move leaves the world as it is. */
  function Act(p: Plan, w: World, c: Choice): World
    requires !p.check.Order?
  {
    if !Enabled(p, w, c) then w
    else match c
         case Main => MainMove(p, p.Script()[w.pc], w)
         case Cleaner =>
           w.(cleaner := w.cleaner + 1, filter := w.filter && p.clean[w.cleaner] != FlushRules)
         case Deliver(i) =>
           w.(buffer := Without(w.buffer, i), inbox := w.inbox + [Data(w.buffer[i])])
         case Displace(i) =>
           w.(buffer := Without(w.buffer, i), gone := w.gone + [Loss(w.buffer[i], Displaced(w.accepted))])
         case Expire(i) =>
           w.(buffer := Without(w.buffer, i), gone := w.gone + [Loss(w.buffer[i], TimedOut)])
         case Carry => w.(wire := w.wire[1..], inbox := w.inbox + [Tag(w.wire[0])])
         case Serve(now) => ServeMove(p, w, now)
  }

  function After(p: Plan, w: World, schedule: seq<Choice>): World
    requires !p.check.Order?
  {
    if schedule == [] then w
    else Act(p, After(p, w, schedule[..|schedule| - 1]), schedule[|schedule| - 1])
  }

  // ---------------------------------------------------------------- the invariant

  function Unread(inbox: seq<Item>): seq<nat> {
    if inbox == [] then []
    else Unread(inbox[..|inbox| - 1]) + if inbox[|inbox| - 1].Data? then [inbox[|inbox| - 1].id] else []
  }

  function Tags(inbox: seq<Item>): seq<nat> {
    if inbox == [] then []
    else Tags(inbox[..|inbox| - 1]) + if inbox[|inbox| - 1].Tag? then [inbox[|inbox| - 1].cmd] else []
  }

  function Ids(gone: seq<Loss>): seq<nat> {
    if gone == [] then [] else Ids(gone[..|gone| - 1]) + [gone[|gone| - 1].id]
  }

  /** How many calls of the body have been made. */
  function Done(p: Plan, pc: nat): nat {
    if pc < 1 then 0 else if pc - 1 < |p.body| then pc - 1 else |p.body|
  }

  /** Each accepted message is in exactly one place. */
  ghost predicate Conserved(accepted: nat, buffer: seq<nat>, read: seq<nat>, inbox: seq<Item>, gone: seq<Loss>) {
    multiset(buffer) + multiset(read + Unread(inbox)) + multiset(Ids(gone)) == multiset(UpTo(accepted))
  }

  /** A message is given up for its own policy or for a later one of strictly smaller value. */
  ghost predicate Justified(p: Plan, accepted: nat, l: Loss) {
    match l.reason
    case TimedOut => p.MsgOf(l.id).policy in {Lifetime, Retransmissions}
    case Displaced(winner) =>
      && l.id < winner <= accepted && winner < |Sends(p.body)|
      && Yields(p.MsgOf(l.id), p.MsgOf(winner))
  }

  ghost predicate Explained(p: Plan, accepted: nat, gone: seq<Loss>) {
    forall l | l in gone :: Justified(p, accepted, l)
  }

  ghost predicate Roomed(p: Plan, w: World) {
    && Load(p, w.buffer) <= w.capacity
    && w.capacity == if Done(p, w.pc) == 0 then p.initial else p.Capacity()
  }

  ghost predicate Filtering(p: Plan, pc: nat, started: bool, cleaner: nat, filter: bool) {
    var done := p.body[..Done(p, pc)];
    && started == (Spawn in done)
    && cleaner <= |p.clean|
    && (!started ==> cleaner == 0)
    && (Join in done ==> cleaner == |p.clean|)
    && filter == (Dropped(done) && FlushRules !in p.clean[..cleaner])
  }

  ghost predicate Outstanding(wire: seq<nat>, tags: seq<nat>, acks: nat) {
    || (wire == [CLOSE_ASOC] && tags == [] && acks == 0)
    || (wire == [] && tags == [CLOSE_ASOC] && acks == 0)
    || (wire == [] && tags == [] && acks == 1)
  }

  ghost predicate Commanded(p: Plan, pc: nat, wire: seq<nat>, tags: seq<nat>, acks: nat, exited: bool) {
    var last := |p.body| + 3;
    && pc <= last + 1
    && (pc == last ==> Outstanding(wire, tags, acks))
    && (pc != last ==> wire == [] && tags == [] && acks == 0)
    && (exited <==> pc > last || (pc == last && acks == 1))
  }

  ghost predicate Counted(p: Plan, read: seq<nat>, seen: seq<Event>, cb: Cb) {
    && !p.check.Order?
    && |seen| == |read|
    && (forall i | 0 <= i < |read| :: seen[i].Recv? && seen[i].len == p.MsgOf(read[i]).len)
    && cb == Fold(p.check, Start(1), seen)
  }

  ghost predicate Inv(p: Plan, w: World) {
    && w.accepted == |Sends(p.body[..Done(p, w.pc)])|
    && Conserved(w.accepted, w.buffer, w.read, w.inbox, w.gone)
    && Explained(p, w.accepted, w.gone)
    && Roomed(p, w)
    && Filtering(p, w.pc, w.started, w.cleaner, w.filter)
    && Commanded(p, w.pc, w.wire, Tags(w.inbox), w.acks, w.exited)
    && Counted(p, w.read, w.seen, w.cb)
  }
}
