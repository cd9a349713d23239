/**
 * One ordered stream of an association as the reset tests see it: 16-bit stream sequence numbers
 * (section 6.5 of RFC 4960) that wrap, and that a stream or association reset sets back to 0
 * (sections 5.1.2, 5.2.2, 5.1.4 and 5.2.4 of RFC 6525).
 *
 * This is the environment of the test program.  Messages carry an identity so that what is proved
 * can be stated; neither side looks at it.  A packet that has been sent and has not arrived stays
 * in flight until it does, in any order: losses are delays.  Once it has arrived, further copies of
 * it may arrive, as long as the receiver is no more than half the number space past it and no reset
 * has come in between.
 */
module SsnChannel {
  import opened Sequences

  const MODULUS := 65536
  const HALF := 32768

  function Ssn(n: int): (s: nat)
    ensures s < MODULUS
  {
    n % MODULUS
  }

  /** The receiver's comparison: `a` lies in the half of the number space before `b`. */
  predicate IsOld(a: nat, b: nat) {
    (a - b) % MODULUS >= HALF
  }

  datatype Packet = Packet(id: nat, ssn: nat)

  datatype ResetState = NoReset | Requested | Performed

  /**
   * `accepted` messages were taken from the application, numbers below `tx` have been transmitted.
   * The two bases are the identities that carry number 0 at each side; no step consults them.
   */
  datatype Channel = Channel(accepted: nat, tx: nat, ssn: nat, flight: set<Packet>, held: set<Packet>,
                             due: nat, delivered: seq<nat>, reset: ResetState,
                             senderBase: nat, receiverBase: nat)

  function Open(): Channel {
    Channel(0, 0, 0, {}, {}, 0, [], NoReset, 0, 0)
  }

  datatype Step =
    | Accept                       // the application sends
    | Transmit                     // the next message leaves with the next number
    | Arrive(p: Packet)            // the first copy
    | Repeat(id: nat)              // another copy of one that has arrived
    | Release(p: Packet)           // a held packet has become the expected one
    | Request                      // a reset request is taken
    | Perform                      // the peer resets its side
    | Confirm                      // the answer reaches the sender
    | Deny                         // the peer refuses

  /** The packet that carries message `id` when `base` carries number 0. */
  function Carrier(base: nat, id: nat): Packet {
    Packet(id, Ssn(id - base))
  }

  predicate CanStep(c: Channel, s: Step) {
    match s
    case Accept => true
    case Transmit => c.tx < c.accepted && c.reset == NoReset && c.tx < |c.delivered| + HALF
    case Arrive(p) => p in c.flight
    case Repeat(id) =>
      c.reset != Performed && c.senderBase <= id && |c.delivered| <= id + HALF
      && (id < |c.delivered| || (id > |c.delivered| && Carrier(c.senderBase, id) in c.held))
    case Release(p) => p in c.held && p.ssn == c.due
    case Request => c.reset == NoReset
    case Perform => c.reset == Requested && c.tx == |c.delivered|
    case Confirm => c.reset == Performed
    case Deny => c.reset == Requested
  }

  function Deliver(c: Channel, p: Packet): Channel {
    c.(delivered := c.delivered + [p.id], due := Ssn(c.due + 1))
  }

  /** What the receiver does with a packet, knowing only its number and the one that is due. */
  function Receive(c: Channel, p: Packet): Channel {
    if p.ssn == c.due then Deliver(c, p)
    else if IsOld(p.ssn, c.due) then c
    else c.(held := c.held + {p})
  }

  function Take(c: Channel, s: Step): Channel
    requires CanStep(c, s)
  {
    match s
    case Accept => c.(accepted := c.accepted + 1)
    case Transmit =>
      c.(tx := c.tx + 1, ssn := Ssn(c.ssn + 1), flight := c.flight + {Packet(c.tx, c.ssn)})
    case Arrive(p) => Receive(c.(flight := c.flight - {p}), p)
    case Repeat(id) => Receive(c, Carrier(c.senderBase, id))
    case Release(p) => Deliver(c.(held := c.held - {p}), p)
    case Request => c.(reset := Requested)
    case Perform => c.(reset := Performed, due := 0, receiverBase := |c.delivered|)
    case Confirm => c.(reset := NoReset, ssn := 0, senderBase := c.tx)
    case Deny => c.(reset := NoReset)
  }

  ghost predicate Inv(c: Channel) {
    var d := |c.delivered|;
    && d <= c.tx <= c.accepted && c.tx - d <= HALF
    && c.delivered == UpTo(d)
    && c.senderBase <= d && c.receiverBase <= d
    && c.ssn == Ssn(c.tx - c.senderBase)
    && c.due == Ssn(d - c.receiverBase)
    && (c.reset != Performed ==> c.receiverBase == c.senderBase)
    && (c.reset == Performed ==> d == c.tx && c.receiverBase == d)
    && c.flight !! c.held
    && (forall p | p in c.flight + c.held :: d <= p.id < c.tx && p == Carrier(c.senderBase, p.id))
    && (forall id | d <= id < c.tx :: Carrier(c.senderBase, id) in c.flight + c.held)
  }

  // ---------------------------------------------------------------- arithmetic of the wrap

  /** Two numbers less than a full turn apart are told apart. */
  lemma WithinATurn(a: int, b: int)
    requires 0 <= b - a < MODULUS && Ssn(a) == Ssn(b)
    ensures a == b
  {
  }

  lemma DifferenceWraps(a: int, b: int)
    ensures (Ssn(b) - Ssn(a)) % MODULUS == (b - a) % MODULUS
  {
  }

  /** Message `k` after the expected one is not taken for an old one. */
  predicate TakenAsNew(d: int, k: int) {
    !IsOld(Ssn(d + k), Ssn(d))
  }

  /**
   * The window is exactly right: the receiver takes none of the next `w` messages for an old one,
   * wherever it stands, if and only if `w` is at most half the number space.
   */
  lemma HalfIsTheLimit(w: nat)
    ensures (forall d: int, k: int | 0 <= k < w :: TakenAsNew(d, k)) <==> w <= HALF
  {
    forall d: int, k: int | 0 <= k < w && w <= HALF
      ensures TakenAsNew(d, k)
    {
      DifferenceWraps(d, d + k);
    }
    assert !TakenAsNew(0, HALF);
  }

  /** Stepping a wrapped number is wrapping the stepped one. */
  lemma SsnStep(n: int)
    ensures Ssn(Ssn(n) + 1) == Ssn(n + 1)
  {
  }

  // ---------------------------------------------------------------- every step keeps it

  /** Among what is outstanding, the expected number names the next message and no other. */
  lemma ExpectedIsNext(c: Channel, p: Packet)
    requires Inv(c) && p in c.flight + c.held
    ensures p.ssn == c.due <==> p.id == |c.delivered|
    ensures !IsOld(p.ssn, c.due)
    ensures c.receiverBase == c.senderBase
  {
    var d := |c.delivered|;
    assert c.reset != Performed;
    if p.ssn == c.due {
      WithinATurn(d - c.senderBase, p.id - c.senderBase);
    }
    DifferenceWraps(d - c.senderBase, p.id - c.senderBase);
  }

  lemma DeliverKeeps(c: Channel, p: Packet, e: Channel)
    requires Inv(c) && p in c.flight + c.held && p.ssn == c.due
    requires e == Deliver(c.(flight := c.flight - {p}, held := c.held - {p}), p)
    ensures Inv(e)
  {
    ExpectedIsNext(c, p);
    var d := |c.delivered|;
    SsnStep(d - c.receiverBase);
    assert e.delivered == UpTo(d + 1);
    forall id | d + 1 <= id < e.tx
      ensures Carrier(e.senderBase, id) in e.flight + e.held
    {
      assert Carrier(c.senderBase, id) in c.flight + c.held;
    }
  }

  lemma TransmitKeeps(c: Channel)
    requires Inv(c) && CanStep(c, Transmit)
    ensures Inv(Take(c, Transmit))
  {
    SsnStep(c.tx - c.senderBase);
    var e := Take(c, Transmit);
    assert Carrier(c.senderBase, c.tx) == Packet(c.tx, c.ssn);
    forall id | |c.delivered| <= id < e.tx
      ensures Carrier(e.senderBase, id) in e.flight + e.held
    {
      assert id < c.tx ==> Carrier(c.senderBase, id) in c.flight + c.held;
    }
  }

  lemma HoldKeeps(c: Channel, p: Packet)
    requires Inv(c) && p in c.flight
    ensures Inv(c.(flight := c.flight - {p}, held := c.held + {p}))
  {
    assert (c.flight - {p}) + (c.held + {p}) == c.flight + c.held;
  }

  lemma ArriveKeeps(c: Channel, p: Packet)
    requires Inv(c) && p in c.flight
    ensures Inv(Take(c, Arrive(p)))
  {
    ExpectedIsNext(c, p);
    if p.ssn == c.due {
      assert c.held - {p} == c.held;
      DeliverKeeps(c, p, Take(c, Arrive(p)));
    } else {
      HoldKeeps(c, p);
    }
  }

  lemma BehindIsOld(d: int, id: int)
    requires 0 < d - id <= HALF
    ensures (id - d) % MODULUS >= HALF
  {
  }

  /** A copy of a message that was handed over is taken for an old one, one that waits changes nothing. */
  lemma CopyIsIgnored(c: Channel, id: nat)
    requires Inv(c) && CanStep(c, Repeat(id))
    ensures Take(c, Repeat(id)) == c
  {
    var d := |c.delivered|;
    var p := Carrier(c.senderBase, id);
    DifferenceWraps(d - c.senderBase, id - c.senderBase);
    if id < d {
      BehindIsOld(d, id);
    } else {
      ExpectedIsNext(c, p);
      assert c.held + {p} == c.held;
    }
  }

  lemma ReleaseKeeps(c: Channel, p: Packet)
    requires Inv(c) && CanStep(c, Release(p))
    ensures Inv(Take(c, Release(p)))
  {
    assert c.flight - {p} == c.flight;
    DeliverKeeps(c, p, Take(c, Release(p)));
  }

  lemma NoneOutstanding(c: Channel)
    requires Inv(c) && c.tx == |c.delivered|
    ensures c.flight == {} && c.held == {}
  {
    assert forall p | p in c.flight + c.held :: false;
    assert forall p | p in c.flight :: p in c.flight + c.held;
    assert forall p | p in c.held :: p in c.flight + c.held;
  }

  lemma ResetKeeps(c: Channel, s: Step)
    requires Inv(c) && CanStep(c, s) && (s.Request? || s.Perform? || s.Confirm? || s.Deny? || s.Accept?)
    ensures Inv(Take(c, s))
  {
    if s.Perform? || s.Confirm? {
      NoneOutstanding(c);
    }
  }

  lemma StepKeeps(c: Channel, s: Step)
    requires Inv(c) && CanStep(c, s)
    ensures Inv(Take(c, s))
  {
    hide Inv, Take;
    match s {
      case Transmit => TransmitKeeps(c);
      case Arrive(p) => ArriveKeeps(c, p);
      case Release(p) => ReleaseKeeps(c, p);
      case Repeat(id) => CopyIsIgnored(c, id);
      case _ => ResetKeeps(c, s);
    }
  }

  /** The receiver never throws a message away as old. */
  lemma NothingDropped(c: Channel, p: Packet)
    requires Inv(c) && p in c.flight
    ensures Take(c, Arrive(p)).held + Take(c, Arrive(p)).flight + {p} == c.held + c.flight
         || Take(c, Arrive(p)).delivered == c.delivered + [p.id]
  {
    ExpectedIsNext(c, p);
  }

  /** Whatever is outstanding, something of it can move. */
  lemma OutstandingMoves(c: Channel)
    requires Inv(c) && c.tx > |c.delivered| && c.flight == {}
    ensures CanStep(c, Release(Carrier(c.senderBase, |c.delivered|)))
  {
    var d := |c.delivered|;
    assert Carrier(c.senderBase, d) in c.flight + c.held;
    assert c.reset != Performed;
  }
}
