/**
 * Abandonment and ordering, the mechanism behind the partial-reliability tests: a sender that has
 * given messages up tells the receiver to step over them (sections 3.5 and 3.6 of RFC 3758).
 *
 * Messages are numbered 0, 1, ... in the order of sending; an ordered message also has a number
 * within its stream.  Those in `gone` were given up while the path was blocked and never arrive.
 * The others arrive in any order; a forward chunk may be delayed or repeated.
 */
module ForwardTsn {
  import opened PrClient

  datatype Config = Config(msgs: seq<Msg>, gone: set<nat>)
  {
    predicate Ordered(t: nat) {
      t < |msgs| && !msgs[t].unordered
    }

    predicate On(t: nat, s: nat) {
      Ordered(t) && msgs[t].sid == s
    }

    /** Ordered messages on stream `s` before `t`. */
    function Before(t: nat, s: nat): nat
      requires t <= |msgs|
    {
      if t == 0 then 0 else Before(t - 1, s) + if On(t - 1, s) then 1 else 0
    }

    /** The number of an ordered message within its stream. */
    function Ssn(t: nat): nat
      requires t < |msgs|
    {
      Before(t, msgs[t].sid)
    }

    /** The message with number `j` on stream `s`, among the first `n`; `|msgs|` if there is none. */
    function At(n: nat, s: nat, j: nat): (t: nat)
      requires n <= |msgs|
      ensures t == |msgs| || (t < n && On(t, s) && Before(t, s) == j)
    {
      if n == 0 then |msgs|
      else if On(n - 1, s) && Before(n - 1, s) == j then n - 1
      else At(n - 1, s, j)
    }

    /** How far the messages given up reach without a gap from `a`. */
    function Reach(a: nat): (b: nat)
      ensures a <= b
      ensures a <= |msgs| ==> b <= |msgs|
      ensures forall t | a <= t < b :: t in gone
      ensures b < |msgs| ==> b !in gone
      decreases |msgs| - a
    {
      if a < |msgs| && a in gone then Reach(a + 1) else a
    }

    /** One past the largest number on stream `s` given up between `a` and `b`. */
    function Target(s: nat, a: nat, b: nat): nat
      requires b <= |msgs|
      decreases b
    {
      if b <= a then 0
      else
        var rest := Target(s, a, b - 1);
        if On(b - 1, s) && Before(b - 1, s) + 1 > rest then Before(b - 1, s) + 1 else rest
    }
  }

  /**
   * The receiver: what has come, how far that goes without a gap, per stream the number expected
   * next, ordered messages that wait, what the application got.  `ack` is what the sender knows.
   */
  datatype State = State(received: set<nat>, cum: nat, next: seq<nat>, held: set<nat>,
                         delivered: seq<nat>, ack: nat)

  datatype Step =
    | Arrive(t: nat)
    | Release(t: nat)
    | Cumulate                     // the next message in order has come
    | Acknowledge
    | Forward(a: nat)              // a forward chunk written when `a` was acknowledged

  function Open(streams: nat): State {
    State({}, 0, seq(streams, _ => 0), {}, [], 0)
  }

  predicate CanStep(c: Config, w: State, s: Step) {
    match s
    case Arrive(t) => t < |c.msgs| && t !in c.gone && t !in w.received
    case Release(t) =>
      t in w.held && t < |c.msgs| && c.msgs[t].sid < |w.next| && w.next[c.msgs[t].sid] == c.Ssn(t)
    case Cumulate => w.cum in w.received
    case Acknowledge => w.ack != w.cum
    case Forward(a) => a <= w.ack && c.Reach(a) > w.cum && c.Reach(a) <= |c.msgs|
  }

  /** Hands over what waits on stream `s` below number `k`, in order, and expects `k` next. */
  function Skip(c: Config, w: State, s: nat, k: nat): (v: State)
    requires s < |w.next|
    ensures v == w.(next := v.next, held := v.held, delivered := v.delivered) && |v.next| == |w.next|
    decreases k - w.next[s]
  {
    var j := w.next[s];
    if j >= k then w
    else
      var t := c.At(|c.msgs|, s, j);
      var u := w.(next := w.next[s := j + 1]);
      Skip(c, if t in w.held then u.(held := w.held - {t}, delivered := w.delivered + [t]) else u, s, k)
  }

  /** That for streams 0 to `s - 1`, each up to its target in the chunk. */
  function SkipAll(c: Config, w: State, a: nat, b: nat, s: nat): (v: State)
    requires s <= |w.next| && b <= |c.msgs|
    ensures v == w.(next := v.next, held := v.held, delivered := v.delivered) && |v.next| == |w.next|
  {
    if s == 0 then w
    else
      var u := SkipAll(c, w, a, b, s - 1);
      Skip(c, u, s - 1, c.Target(s - 1, a, b))
  }

  function Take(c: Config, w: State, s: Step): State
    requires CanStep(c, w, s)
  {
    match s
    case Arrive(t) =>
      var v := w.(received := w.received + {t});
      if c.msgs[t].unordered then v.(delivered := w.delivered + [t]) else v.(held := w.held + {t})
    case Release(t) =>
      w.(held := w.held - {t}, delivered := w.delivered + [t],
         next := w.next[c.msgs[t].sid := w.next[c.msgs[t].sid] + 1])
    case Cumulate => w.(cum := w.cum + 1)
    case Acknowledge => w.(ack := w.cum)
    case Forward(a) =>
      var b := c.Reach(a);
      SkipAll(c, w, a, b, |w.next|).(cum := b)
  }

  // ---------------------------------------------------------------- numbers within a stream

  lemma {:induction false} BeforeGrows(c: Config, t: nat, u: nat, s: nat)
    requires t < u <= |c.msgs|
    ensures c.Before(t, s) <= c.Before(u, s)
    ensures c.On(t, s) ==> c.Before(t, s) < c.Before(u, s)
  {
    if t + 1 < u {
      BeforeGrows(c, t, u - 1, s);
    }
  }

  /** Every smaller number belongs to an earlier message of the stream. */
  lemma {:induction false} NumberTaken(c: Config, n: nat, s: nat, j: nat) returns (t: nat)
    requires n <= |c.msgs| && j < c.Before(n, s)
    ensures t < n && c.On(t, s) && c.Before(t, s) == j
  {
    if c.On(n - 1, s) && c.Before(n - 1, s) == j {
      t := n - 1;
    } else {
      t := NumberTaken(c, n - 1, s, j);
    }
  }

  lemma {:induction false} AtFinds(c: Config, n: nat, t: nat, s: nat)
    requires t < n <= |c.msgs| && c.On(t, s)
    ensures c.At(n, s, c.Before(t, s)) == t
  {
    if t < n - 1 {
      BeforeGrows(c, t, n - 1, s);
      AtFinds(c, n - 1, t, s);
    }
  }

  lemma {:induction false} TargetCovers(c: Config, s: nat, a: nat, b: nat, t: nat)
    requires a <= t < b <= |c.msgs| && c.On(t, s)
    ensures c.Before(t, s) < c.Target(s, a, b)
  {
    if t < b - 1 {
      TargetCovers(c, s, a, b - 1, t);
    }
  }

  /** A number below the target is that of a message below the reach. */
  lemma {:induction false} TargetBelow(c: Config, s: nat, a: nat, b: nat)
    requires a <= b <= |c.msgs|
    ensures c.Target(s, a, b) <= c.Before(b, s)
  {
    if a < b {
      TargetBelow(c, s, a, b - 1);
    }
  }

  // ---------------------------------------------------------------- the invariant

  /** What waits or has been handed over is exactly what has come, each once. */
  ghost predicate Once(w: State) {
    && (forall t :: t in w.received <==> t in w.delivered || t in w.held)
    && (forall t | t in w.held :: t !in w.delivered)
    && (forall i, j | 0 <= i < j < |w.delivered| :: w.delivered[i] != w.delivered[j])
  }

  /** Below the expected number everything is settled, from it on nothing was handed over. */
  ghost predicate Pointed(c: Config, w: State, s: nat)
    requires s < |w.next|
  {
    && (forall t | 0 <= t < |c.msgs| && c.On(t, s) && c.Before(t, s) < w.next[s] :: t in w.delivered || t in c.gone)
    && (forall t | t in w.delivered && c.On(t, s) :: c.Before(t, s) < w.next[s])
    && (forall t | t in w.held && c.On(t, s) :: w.next[s] <= c.Before(t, s))
  }

  ghost predicate InStreamOrder(c: Config, d: seq<nat>) {
    forall i, j | 0 <= i < j < |d| && c.Ordered(d[i]) && c.Ordered(d[j]) && c.msgs[d[i]].sid == c.msgs[d[j]].sid ::
      d[i] < d[j]
  }

  /** The part of the invariant that concerns what the application sees. */
  ghost predicate Handed(c: Config, w: State) {
    && (forall t | 0 <= t < |c.msgs| :: c.msgs[t].sid < |w.next|)
    && (forall t | t in w.received :: t < |c.msgs| && t !in c.gone)
    && (forall t | t in w.held :: c.Ordered(t))
    && Once(w)
    && (forall s | 0 <= s < |w.next| :: Pointed(c, w, s))
    && InStreamOrder(c, w.delivered)
  }

  /** Everything below `b` has come or was given up. */
  ghost predicate Accounted(c: Config, w: State, b: nat) {
    forall t | 0 <= t < b :: t in w.received || t in c.gone
  }

  ghost predicate Inv(c: Config, w: State) {
    && Handed(c, w)
    && w.ack <= w.cum <= |c.msgs|
    && Accounted(c, w, w.cum)
    && (forall t | 0 <= t < w.cum && t in c.gone && c.Ordered(t) :: c.Ssn(t) < w.next[c.msgs[t].sid])
  }

  // ---------------------------------------------------------------- every step keeps it

  /** Handing over the message that is expected. */
  function HandOver(w: State, t: nat, s: nat): State
    requires s < |w.next|
  {
    w.(held := w.held - {t}, delivered := w.delivered + [t], next := w.next[s := w.next[s] + 1])
  }

  lemma SameNumber(c: Config, t: nat, u: nat, s: nat)
    requires c.On(t, s) && c.On(u, s) && c.Before(t, s) == c.Before(u, s)
    ensures t == u
  {
    if t < u {
      BeforeGrows(c, t, u, s);
    } else if u < t {
      BeforeGrows(c, u, t, s);
    }
  }

  lemma HandOverPoints(c: Config, w: State, t: nat, s: nat, r: nat)
    requires Once(w) && s < |w.next| && r < |w.next| && Pointed(c, w, r) && t in w.held
    requires c.On(t, s) && c.Before(t, s) == w.next[s]
    ensures Pointed(c, HandOver(w, t, s), r)
  {
    hide Config.Before;
    var v := HandOver(w, t, s);
    assert v.delivered[|w.delivered|] == t;
    forall u | 0 <= u < |c.msgs| && c.On(u, r) && c.Before(u, r) < v.next[r]
      ensures u in v.delivered || u in c.gone
    {
      if r == s && c.Before(u, r) == w.next[s] {
        SameNumber(c, t, u, s);
      }
    }
    forall u | u in v.held && c.On(u, r)
      ensures v.next[r] <= c.Before(u, r)
    {
      if r == s && c.Before(u, r) == w.next[s] {
        SameNumber(c, t, u, s);
      }
    }
  }

  lemma HandOverOrder(c: Config, w: State, t: nat, s: nat)
    requires s < |w.next| && Pointed(c, w, s) && InStreamOrder(c, w.delivered)
    requires c.On(t, s) && c.Before(t, s) == w.next[s]
    ensures InStreamOrder(c, w.delivered + [t])
  {
    hide Config.Before;
    forall i | 0 <= i < |w.delivered| && c.On(w.delivered[i], s)
      ensures w.delivered[i] < t
    {
      var u := w.delivered[i];
      assert c.Before(u, s) < w.next[s];
      if u > t {
        BeforeGrows(c, t, u, s);
      }
    }
  }

  lemma HandOverKeeps(c: Config, w: State, t: nat, s: nat)
    requires Handed(c, w) && s < |w.next| && t in w.held && c.On(t, s) && c.Before(t, s) == w.next[s]
    ensures Handed(c, HandOver(w, t, s))
  {
    var v := HandOver(w, t, s);
    forall r | 0 <= r < |v.next|
      ensures Pointed(c, v, r)
    {
      assert Pointed(c, w, r);
      HandOverPoints(c, w, t, s, r);
    }
    HandOverOrder(c, w, t, s);
    hide Config.Before, Pointed, InStreamOrder;
    assert Once(v);
  }

  /** Passing over a number whose message was given up. */
  lemma PassOver(c: Config, w: State, s: nat)
    requires Handed(c, w) && s < |w.next|
    requires forall t | 0 <= t < |c.msgs| && c.On(t, s) && c.Before(t, s) == w.next[s] :: t in c.gone
    ensures Handed(c, w.(next := w.next[s := w.next[s] + 1]))
  {
    hide Config.Before, InStreamOrder;
    var v := w.(next := w.next[s := w.next[s] + 1]);
    forall r | 0 <= r < |v.next|
      ensures Pointed(c, v, r)
    {
      assert Pointed(c, w, r);
      forall u | u in v.held && c.On(u, r)
        ensures v.next[r] <= c.Before(u, r)
      {
        assert u in w.received;
      }
    }
  }

  lemma SameReceived(c: Config, w: State, u: State, b: nat)
    requires Accounted(c, w, b) && u.received == w.received
    ensures Accounted(c, u, b)
  {
  }

  lemma SkipOne(c: Config, w: State, s: nat, k: nat, b: nat)
    requires Handed(c, w) && s < |w.next| && b <= |c.msgs| && Accounted(c, w, b)
    requires w.next[s] < k <= c.Before(b, s)
    ensures var t := c.At(|c.msgs|, s, w.next[s]);
            Handed(c, if t in w.held then HandOver(w, t, s) else w.(next := w.next[s := w.next[s] + 1]))
  {
    var j := w.next[s];
    var t := NumberTaken(c, b, s, j);
    AtFinds(c, |c.msgs|, t, s);
    if t in w.held {
      HandOverKeeps(c, w, t, s);
    } else {
      assert t in c.gone by {
        assert Pointed(c, w, s);
        hide Config.Before;
        assert t in w.received ==> t in w.delivered;
      }
      forall u | 0 <= u < |c.msgs| && c.On(u, s) && c.Before(u, s) == w.next[s]
        ensures u in c.gone
      {
        SameNumber(c, t, u, s);
      }
      PassOver(c, w, s);
    }
  }

  /** Stepping to number `k` loses nothing, when everything below it has come or was given up. */
  lemma {:induction false} SkipKeeps(c: Config, w: State, s: nat, k: nat, b: nat)
    requires Handed(c, w) && s < |w.next| && b <= |c.msgs| && Accounted(c, w, b) && k <= c.Before(b, s)
    ensures var v := Skip(c, w, s, k);
            && Handed(c, v) && v.next[s] >= k && v.next[s] >= w.next[s]
            && (forall r | 0 <= r < |w.next| && r != s :: v.next[r] == w.next[r])
            && v.held <= w.held
    decreases k - w.next[s]
  {
    hide Handed, Accounted, Config.Before, Config.At;
    var j := w.next[s];
    if j < k {
      var t := c.At(|c.msgs|, s, j);
      var u := if t in w.held then HandOver(w, t, s) else w.(next := w.next[s := j + 1]);
      SkipOne(c, w, s, k, b);
      SameReceived(c, w, u, b);
      SkipKeeps(c, u, s, k, b);
    }
  }

  lemma {:induction false} SkipAllKeeps(c: Config, w: State, a: nat, b: nat, s: nat)
    requires Handed(c, w) && s <= |w.next| && a <= b <= |c.msgs| && Accounted(c, w, b)
    ensures var v := SkipAll(c, w, a, b, s);
            && Handed(c, v)
            && (forall r | 0 <= r < |w.next| :: v.next[r] >= w.next[r])
            && (forall r | 0 <= r < s :: v.next[r] >= c.Target(r, a, b))
            && v.held <= w.held
  {
    hide Handed, Accounted, Config.Before, Config.Target, Skip;
    if s > 0 {
      SkipAllKeeps(c, w, a, b, s - 1);
      var u := SkipAll(c, w, a, b, s - 1);
      SameReceived(c, w, u, b);
      TargetBelow(c, s - 1, a, b);
      SkipKeeps(c, u, s - 1, c.Target(s - 1, a, b), b);
    }
  }

  lemma ReachAccounted(c: Config, w: State, a: nat)
    requires Inv(c, w) && a <= w.ack
    ensures Accounted(c, w, c.Reach(a))
  {
    hide Handed;
  }

  lemma StreamsKnown(c: Config, w: State, t: nat)
    requires Handed(c, w) && t < |c.msgs|
    ensures c.msgs[t].sid < |w.next|
  {
  }

  lemma NewCum(c: Config, w: State, cum: nat)
    requires Handed(c, w)
    ensures Handed(c, w.(cum := cum))
  {
    var v := w.(cum := cum);
    assert forall s | 0 <= s < |w.next| :: Pointed(c, w, s) ==> Pointed(c, v, s);
    hide Config.Before, InStreamOrder;
  }

  lemma ForwardKeeps(c: Config, w: State, a: nat)
    requires Inv(c, w) && CanStep(c, w, Forward(a))
    ensures Inv(c, Take(c, w, Forward(a)))
    ensures Take(c, w, Forward(a)).held <= w.held
  {
    var b := c.Reach(a);
    ReachAccounted(c, w, a);
    SkipAllKeeps(c, w, a, b, |w.next|);
    var v := Take(c, w, Forward(a));
    NewCum(c, SkipAll(c, w, a, b, |w.next|), b);
    SameReceived(c, w, v, b);
    forall t | 0 <= t < b && t in c.gone && c.Ordered(t)
      ensures t < |c.msgs| && c.msgs[t].sid < |v.next| && c.Ssn(t) < v.next[c.msgs[t].sid]
    {
      StreamsKnown(c, w, t);
      hide Handed, Accounted, Config.Before, Config.Target, SkipAll;
      if t >= w.cum {
        TargetCovers(c, c.msgs[t].sid, a, b, t);
      }
    }
    hide Handed, Accounted, Config.Before, Config.Target, SkipAll;
  }

  lemma ArriveKeeps(c: Config, w: State, t: nat)
    requires Inv(c, w) && CanStep(c, w, Arrive(t))
    ensures Inv(c, Take(c, w, Arrive(t)))
  {
    hide Config.Before;
    var v := Take(c, w, Arrive(t));
    assert c.msgs[t].unordered ==> v.delivered[|w.delivered|] == t;
    forall s | 0 <= s < |v.next|
      ensures Pointed(c, v, s)
    {
      assert Pointed(c, w, s);
    }
    assert Once(v);
    assert InStreamOrder(c, v.delivered);
    hide Pointed, InStreamOrder, Once;
  }

  lemma ReleaseKeeps(c: Config, w: State, t: nat)
    requires Inv(c, w) && CanStep(c, w, Release(t))
    ensures Inv(c, Take(c, w, Release(t)))
  {
    var s := c.msgs[t].sid;
    HandOverKeeps(c, w, t, s);
    hide Handed, Config.Before;
  }

  lemma CountKeeps(c: Config, w: State, s: Step)
    requires Inv(c, w) && CanStep(c, w, s) && (s.Cumulate? || s.Acknowledge?)
    ensures Inv(c, Take(c, w, s))
  {
    var v := Take(c, w, s);
    NewCum(c, w, v.cum);
    assert forall s | 0 <= s < |w.next| :: Pointed(c, w, s) ==> Pointed(c, v, s);
    hide Pointed, InStreamOrder, Config.Before;
    assert w.cum in w.received ==> w.cum < |c.msgs| && w.cum !in c.gone;
  }

  lemma StepKeeps(c: Config, w: State, s: Step)
    requires Inv(c, w) && CanStep(c, w, s)
    ensures Inv(c, Take(c, w, s))
  {
    hide Inv, Take;
    match s {
      case Arrive(t) => ArriveKeeps(c, w, t);
      case Release(t) => ReleaseKeeps(c, w, t);
      case Forward(a) => ForwardKeeps(c, w, a);
      case _ => CountKeeps(c, w, s);
    }
  }

  // ---------------------------------------------------------------- whole runs

  function After(c: Config, w: State, schedule: seq<Step>): State {
    if schedule == [] then w
    else
      var v, s := After(c, w, schedule[..|schedule| - 1]), schedule[|schedule| - 1];
      if CanStep(c, v, s) then Take(c, v, s) else v
  }

  ghost predicate Streams(c: Config, streams: nat) {
    forall t | 0 <= t < |c.msgs| :: c.msgs[t].sid < streams
  }

  lemma {:induction false} EveryRunKeepsInvariant(c: Config, streams: nat, schedule: seq<Step>)
    requires Streams(c, streams)
    ensures Inv(c, After(c, Open(streams), schedule))
  {
    if schedule == [] {
      assert InStreamOrder(c, []);
    } else {
      var n := |schedule| - 1;
      EveryRunKeepsInvariant(c, streams, schedule[..n]);
      hide Inv, Take, CanStep;
      var v := After(c, Open(streams), schedule[..n]);
      if CanStep(c, v, schedule[n]) {
        StepKeeps(c, v, schedule[n]);
      }
    }
  }

  /**
   * In every run, whatever was given up and however chunks overtake each other: no message that was
   * given up and no message twice is handed over, and the ordered ones keep their stream's order.
   */
  lemma OnlyTheRestInOrder(c: Config, streams: nat, schedule: seq<Step>)
    requires Streams(c, streams)
    ensures var d := After(c, Open(streams), schedule).delivered;
            && (forall t | t in d :: t < |c.msgs| && t !in c.gone)
            && (forall i, j | 0 <= i < j < |d| :: d[i] != d[j])
            && InStreamOrder(c, d)
  {
    EveryRunKeepsInvariant(c, streams, schedule);
    hide After, Pointed, InStreamOrder;
  }

  /** Nothing can happen any more. */
  ghost predicate Quiescent(c: Config, w: State) {
    forall s: Step :: !CanStep(c, w, s)
  }

  lemma GapReached(c: Config, a: nat)
    ensures a < |c.msgs| && a in c.gone ==> a < c.Reach(a) <= |c.msgs|
  {
  }

  lemma QuietMeansCounted(c: Config, w: State)
    requires Inv(c, w) && Quiescent(c, w)
    ensures forall t | 0 <= t < |c.msgs| && t !in c.gone :: t in w.received
    ensures w.cum == |c.msgs|
  {
    assert !CanStep(c, w, Cumulate) && !CanStep(c, w, Acknowledge) && !CanStep(c, w, Forward(w.ack));
    forall t | 0 <= t < |c.msgs| && t !in c.gone
      ensures t in w.received
    {
      assert !CanStep(c, w, Arrive(t));
    }
    hide Handed, Config.Reach;
    GapReached(c, w.cum);
  }

  lemma HeldIsBlocked(c: Config, w: State, t: nat)
    requires Inv(c, w) && Quiescent(c, w) && t in w.held
    ensures t < |c.msgs| && c.msgs[t].sid < |w.next| && w.next[c.msgs[t].sid] < c.Ssn(t)
  {
    assert Pointed(c, w, c.msgs[t].sid);
    assert !CanStep(c, w, Release(t));
    hide Config.Before, InStreamOrder;
  }

  /** The message the stream is waiting for. */
  lemma Blocker(c: Config, w: State, t: nat) returns (u: nat)
    requires t < |c.msgs| && c.msgs[t].sid < |w.next| && w.next[c.msgs[t].sid] < c.Ssn(t)
    ensures u < t && c.On(u, c.msgs[t].sid) && c.Before(u, c.msgs[t].sid) == w.next[c.msgs[t].sid]
  {
    u := NumberTaken(c, t, c.msgs[t].sid, w.next[c.msgs[t].sid]);
  }

  lemma PassedBy(c: Config, w: State, u: nat, s: nat)
    requires Inv(c, w) && u < w.cum && c.On(u, s)
    ensures s < |w.next| && (u in c.gone ==> c.Before(u, s) < w.next[s])
  {
    StreamsKnown(c, w, u);
    hide Handed, Accounted, Config.Before;
  }

  lemma BlockerWaits(c: Config, w: State, t: nat, u: nat)
    requires Inv(c, w) && w.cum == |c.msgs| && t < |c.msgs| && c.msgs[t].sid < |w.next|
    requires forall t | 0 <= t < |c.msgs| && t !in c.gone :: t in w.received
    requires u < t && c.On(u, c.msgs[t].sid) && c.Before(u, c.msgs[t].sid) == w.next[c.msgs[t].sid]
    ensures u in w.held
  {
    assert Pointed(c, w, c.msgs[t].sid);
    PassedBy(c, w, u, c.msgs[t].sid);
    hide Config.Before, InStreamOrder;
  }

  /** No message waits behind one that was given up. */
  lemma {:induction false} NoneHeld(c: Config, w: State, t: nat)
    requires Inv(c, w) && Quiescent(c, w)
    ensures t !in w.held
    decreases t
  {
    QuietMeansCounted(c, w);
    if t in w.held {
      HeldIsBlocked(c, w, t);
      var u := Blocker(c, w, t);
      NoneHeld(c, w, u);
      BlockerWaits(c, w, t, u);
    }
  }

  /**
   * Never stuck: when nothing can happen any more, exactly the messages that were not given up have
   * been handed over, and none is left waiting.
   */
  lemma QuietMeansDelivered(c: Config, streams: nat, schedule: seq<Step>)
    requires Streams(c, streams)
    ensures var w := After(c, Open(streams), schedule);
            Quiescent(c, w) ==>
              w.held == {} && forall t :: t in w.delivered <==> 0 <= t < |c.msgs| && t !in c.gone
  {
    EveryRunKeepsInvariant(c, streams, schedule);
    hide After, Quiescent;
    var w := After(c, Open(streams), schedule);
    if Quiescent(c, w) {
      QuietMeansCounted(c, w);
      forall t | t in w.held
        ensures false
      {
        NoneHeld(c, w, t);
      }
      assert Once(w);
      hide Pointed, InStreamOrder, Accounted;
    }
  }

  // ---------------------------------------------------------------- no run goes on for ever

  function Measure(c: Config, w: State): int {
    2 * (|c.msgs| - |w.received|) + |w.held| + 2 * (|c.msgs| - w.cum) + (w.cum - w.ack)
  }

  lemma {:induction false} Smaller(a: set<nat>, b: set<nat>)
    requires a <= b
    ensures |a| <= |b|
  {
    if a != {} {
      var x :| x in a;
      Smaller(a - {x}, b - {x});
    }
  }

  lemma StepsCount(c: Config, w: State, s: Step)
    requires Inv(c, w) && CanStep(c, w, s)
    ensures Measure(c, Take(c, w, s)) < Measure(c, w)
  {
    match s {
      case Forward(a) =>
        ForwardKeeps(c, w, a);
        hide Inv, SkipAll;
        Smaller(Take(c, w, s).held, w.held);
      case Arrive(t) =>
        hide Handed, Accounted;
        assert |w.received + {t}| == |w.received| + 1;
        assert |w.held + {t}| <= |w.held| + 1;
      case Release(t) =>
        hide Handed, Accounted;
        assert |w.held - {t}| == |w.held| - 1;
      case _ =>
        hide Handed, Accounted;
    }
  }

  lemma {:induction false} AtMost(s: set<nat>, n: nat)
    requires forall x | x in s :: x < n
    ensures |s| <= n
  {
    if n > 0 {
      AtMost(s - {n - 1}, n - 1);
      assert |s| <= |s - {n - 1}| + 1;
    } else {
      assert s == {};
    }
  }

  lemma MeasureIsNatural(c: Config, w: State)
    requires Inv(c, w)
    ensures Measure(c, w) >= 0
  {
    AtMost(w.received, |c.msgs|);
    hide Pointed, InStreamOrder, Accounted, Once;
  }

  /** How many steps of a schedule could be taken. */
  ghost function Moves(c: Config, w: State, schedule: seq<Step>): nat {
    if schedule == [] then 0
    else
      var n := |schedule| - 1;
      Moves(c, w, schedule[..n]) + if CanStep(c, After(c, w, schedule[..n]), schedule[n]) then 1 else 0
  }

  lemma {:induction false} MovesUseWork(c: Config, streams: nat, schedule: seq<Step>)
    requires Streams(c, streams)
    ensures Moves(c, Open(streams), schedule) + Measure(c, After(c, Open(streams), schedule))
            <= Measure(c, Open(streams))
  {
    hide Inv, Take, CanStep, Measure, Streams, Open;
    if schedule != [] {
      var n := |schedule| - 1;
      MovesUseWork(c, streams, schedule[..n]);
      EveryRunKeepsInvariant(c, streams, schedule[..n]);
      var w := After(c, Open(streams), schedule[..n]);
      if CanStep(c, w, schedule[n]) {
        StepsCount(c, w, schedule[n]);
      }
    }
  }

  /** No run goes on for ever: at most four steps a message have an effect. */
  lemma MovesAreBounded(c: Config, streams: nat, schedule: seq<Step>)
    requires Streams(c, streams)
    ensures Moves(c, Open(streams), schedule) <= 4 * |c.msgs|
  {
    MovesUseWork(c, streams, schedule);
    EveryRunKeepsInvariant(c, streams, schedule);
    MeasureIsNatural(c, After(c, Open(streams), schedule));
    hide Moves, After, Inv;
  }
}
