/** Whole runs of the partial-reliability program, under every schedule of the two threads. */
module PrTheorems {
  import opened Sequences
  import opened Server
  import opened PrClient
  import opened PrWorld
  import opened PrInvariant

  // ---------------------------------------------------------------- the buffer is never overfull

  lemma BufferNeverOverfull(p: Plan, schedule: seq<Choice>)
    requires p.Good()
    ensures var w := After(p, Init(p), schedule);
            Load(p, w.buffer) <= w.capacity
  {
    hide After, Plan.Good, Conserved, Filtering, Counted, Commanded, Explained, Init;
    EveryRunKeepsInvariant(p, schedule);
  }

  // ---------------------------------------------------------------- what is given up

  lemma NoIds()
    ensures UpTo(0) == []
  {
  }

  lemma UpToGrows(n: nat)
    ensures UpTo(n + 1) == UpTo(n) + [n]
  {
  }

  lemma OneMoreId(n: nat)
    ensures multiset(UpTo(n + 1)) == multiset(UpTo(n)) + multiset{n}
  {
    UpToGrows(n);
    hide UpTo;
  }

  lemma {:induction false} OnceEach(n: nat, id: nat)
    ensures multiset(UpTo(n))[id] == if id < n then 1 else 0
  {
    hide UpTo;
    if n > 0 {
      OnceEach(n - 1, id);
      OneMoreId(n - 1);
    } else {
      NoIds();
    }
  }

  /** Every message is in exactly one place: buffered, delivered, or given up. */
  lemma OnePlaceEach(p: Plan, schedule: seq<Choice>, id: nat)
    requires p.Good()
    ensures var w := After(p, Init(p), schedule);
            multiset(w.buffer)[id] + multiset(w.read + Unread(w.inbox))[id] + multiset(Ids(w.gone))[id]
            == if id < w.accepted then 1 else 0
  {
    NoTable(p);
    hide After, Plan.Good, Filtering, Counted, Commanded, Explained, Init, Unread, Ids, Roomed;
    EveryRunKeepsInvariant(p, schedule);
    OnceEach(After(p, Init(p), schedule).accepted, id);
  }

  /** A message is given up for its own limit, or for a later one of strictly smaller value. */
  lemma LossesAreJustified(p: Plan, schedule: seq<Choice>, l: Loss)
    requires p.Good() && l in After(p, Init(p), schedule).gone
    ensures Justified(p, After(p, Init(p), schedule).accepted, l)
  {
    hide After, Plan.Good, Conserved, Filtering, Counted, Commanded, Roomed, Init, Justified;
    EveryRunKeepsInvariant(p, schedule);
  }

  /** No message of the priority policy has a smaller value. */
  ghost predicate Smallest(p: Plan, id: nat) {
    p.MsgOf(id).policy == Priority
    && forall other | 0 <= other < |Sends(p.body)| ::
         p.MsgOf(other).policy == Priority ==> p.MsgOf(id).value <= p.MsgOf(other).value
  }

  lemma SmallestUnjustified(p: Plan, accepted: nat, l: Loss)
    requires Smallest(p, l.id)
    ensures !Justified(p, accepted, l)
  {
    hide Plan.MsgOf;
  }

  /** The most important messages are never given up. */
  lemma SmallestSurvive(p: Plan, schedule: seq<Choice>, l: Loss)
    requires p.Good() && Smallest(p, l.id)
    ensures l !in After(p, Init(p), schedule).gone
  {
    NoTable(p);
    hide After, Plan.Good, Init, Smallest, Justified;
    SmallestUnjustified(p, After(p, Init(p), schedule).accepted, l);
    if l in After(p, Init(p), schedule).gone {
      LossesAreJustified(p, schedule, l);
    }
  }

  /** Less in a bag weighs less. */
  lemma {:induction false} LoadOfPart(p: Plan, a: seq<nat>, b: seq<nat>)
    requires multiset(a) <= multiset(b)
    ensures Load(p, a) <= Load(p, b)
    ensures |a| == |b| ==> Load(p, a) == Load(p, b)
  {
    hide Plan.MsgOf, Plan.Cost;
    if a == [] {
      assert |b| == 0 ==> b == [];
    } else {
      var n := |a| - 1;
      assert a == a[..n] + [a[n]];
      assert multiset(a) == multiset(a[..n]) + multiset{a[n]};
      assert a[n] in multiset(b);
      var i :| 0 <= i < |b| && b[i] == a[n];
      WithoutCounts(b, i);
      LoadWithout(p, b, i);
      forall x
        ensures multiset(a[..n])[x] <= multiset(Without(b, i))[x]
      {
        assert multiset(a)[x] <= multiset(b)[x];
      }
      LoadOfPart(p, a[..n], Without(b, i));
    }
  }

  /** The same scripts with every message taking as much room as it has bytes. */
  function ByteCount(p: Plan, ids: seq<nat>): nat {
    Load(p.(cost := (n: nat) => n), ids)
  }

  lemma {:induction false} IdsCount(gone: seq<Loss>)
    ensures |Ids(gone)| == |gone|
    ensures forall i | 0 <= i < |gone| :: Ids(gone)[i] == gone[i].id
  {
    if gone != [] {
      IdsCount(gone[..|gone| - 1]);
    }
  }

  /** Bytes buffered, delivered and given up add up to the bytes accepted. */
  lemma BytesConserved(p: Plan, w: World)
    requires Conserved(w.accepted, w.buffer, w.read, w.inbox, w.gone)
    ensures ByteCount(p, w.buffer) + ByteCount(p, w.read + Unread(w.inbox)) + ByteCount(p, Ids(w.gone))
         == ByteCount(p, UpTo(w.accepted))
    ensures |w.buffer| + |w.read + Unread(w.inbox)| + |w.gone| == w.accepted
  {
    hide Load, Unread, Ids, UpTo;
    var q := p.(cost := (n: nat) => n);
    var a := w.buffer + (w.read + Unread(w.inbox));
    var all := a + Ids(w.gone);
    LoadSplit(q, w.buffer, w.read + Unread(w.inbox));
    LoadSplit(q, a, Ids(w.gone));
    assert multiset(all) == multiset(UpTo(w.accepted));
    assert |all| == |multiset(all)|;
    LoadOfPart(q, all, UpTo(w.accepted));
    IdsCount(w.gone);
  }

  lemma EveryRunConservesBytes(p: Plan, schedule: seq<Choice>)
    requires p.Good()
    ensures var w := After(p, Init(p), schedule);
            ByteCount(p, w.buffer) + ByteCount(p, w.read + Unread(w.inbox)) + ByteCount(p, Ids(w.gone))
            == ByteCount(p, UpTo(w.accepted))
  {
    NoTable(p);
    hide After, Plan.Good, Filtering, Counted, Commanded, Explained, Init, Unread, Ids, Roomed, Conserved, ByteCount;
    EveryRunKeepsInvariant(p, schedule);
    BytesConserved(p, After(p, Init(p), schedule));
  }

  // ---------------------------------------------------------------- the filter at the close

  lemma EndOfBody(p: Plan, w: World)
    requires p.Good() && p.Restores() && Inv(p, w) && w.pc >= 1 + |p.body|
    ensures !w.filter && w.accepted == |Sends(p.body)|
  {
    assert p.body[..|p.body|] == p.body && p.clean[..|p.clean|] == p.clean;
    hide Plan.Script, Conserved, Explained, Roomed, Commanded, Counted, Sends, Dropped;
  }

  /** The close command is sent with no rule installed, whoever removed it. */
  lemma ClosedWithoutRules(p: Plan, schedule: seq<Choice>)
    requires p.Good() && p.Restores()
    ensures var w := After(p, Init(p), schedule);
            w.pc >= 1 + |p.body| ==> !w.filter
  {
    NoTable(p);
    hide After, Plan.Good, Inv, Init;
    EveryRunKeepsInvariant(p, schedule);
    var w := After(p, Init(p), schedule);
    if w.pc >= 1 + |p.body| {
      EndOfBody(p, w);
    }
  }

  lemma {:induction false} LoadGrows(p: Plan, a: nat, b: nat)
    requires a <= b
    ensures Load(p, UpTo(a)) <= Load(p, UpTo(b))
  {
    if a < b {
      LoadGrows(p, a, b - 1);
      assert UpTo(b)[..b - 1] == UpTo(b - 1);
    }
  }

  // ---------------------------------------------------------------- in-order delivery

  ghost predicate InOrder(schedule: seq<Choice>) {
    forall i | 0 <= i < |schedule| && schedule[i].Deliver? :: schedule[i].i == 0
  }

  ghost predicate Increasing(s: seq<nat>) {
    forall i, j | 0 <= i < j < |s| :: s[i] < s[j]
  }

  /** Read, waiting at the socket, waiting in the buffer: in the order of sending. */
  ghost predicate Queued(w: World) {
    var all := w.read + Unread(w.inbox) + w.buffer;
    Increasing(all) && forall i | 0 <= i < |all| :: all[i] < w.accepted
  }

  lemma IncreasingPart(s: seq<nat>, i: nat, n: nat)
    requires Increasing(s) && i < |s| && forall k | 0 <= k < |s| :: s[k] < n
    ensures Increasing(Without(s, i)) && forall k | 0 <= k < |Without(s, i)| :: Without(s, i)[k] < n
  {
  }

  lemma QueuedMain(p: Plan, w: World)
    requires !p.check.Order? && Queued(w) && Enabled(p, w, Main)
    ensures Queued(Act(p, w, Main))
  {
    hide Plan.Script, Plan.MsgOf, Unread, Tags, Load, Step;
    var v := Act(p, w, Main);
    var all := w.read + Unread(w.inbox) + w.buffer;
    if v.buffer == w.buffer {
      assert v.read + Unread(v.inbox) + v.buffer == all;
    } else {
      assert v.read + Unread(v.inbox) + v.buffer == all + [w.accepted];
    }
  }

  lemma WithoutTail(a: seq<nat>, b: seq<nat>, i: nat)
    requires i < |b|
    ensures a + Without(b, i) == Without(a + b, |a| + i)
  {
  }

  lemma QueuedLoss(w: World, i: nat, r: Reason)
    requires Queued(w) && i < |w.buffer|
    ensures Queued(w.(buffer := Without(w.buffer, i), gone := w.gone + [Loss(w.buffer[i], r)]))
  {
    hide Unread, Increasing;
    var a := w.read + Unread(w.inbox);
    IncreasingPart(a + w.buffer, |a| + i, w.accepted);
    WithoutTail(a, w.buffer, i);
    hide Without;
  }

  lemma QueuedStep(p: Plan, w: World, c: Choice)
    requires !p.check.Order? && Queued(w) && (c.Deliver? ==> c.i == 0)
    ensures Queued(Act(p, w, c))
  {
    hide Plan.Script, Plan.MsgOf, Unread, Tags, Load, Step, Increasing;
    if Enabled(p, w, c) {
      var a := w.read + Unread(w.inbox);
      match c {
        case Main => QueuedMain(p, w);
        case Deliver(i) =>
          InboxGrows(w.inbox, Data(w.buffer[0]));
          assert w.read + (Unread(w.inbox) + [w.buffer[0]]) + Without(w.buffer, 0) == a + w.buffer;
        case Displace(i) => QueuedLoss(w, i, Displaced(w.accepted));
        case Expire(i) => QueuedLoss(w, i, TimedOut);
        case Carry =>
          InboxGrows(w.inbox, Tag(w.wire[0]));
          assert Unread(w.inbox + [Tag(w.wire[0])]) == Unread(w.inbox);
        case Serve(_) => ReadOrder(w.read, w.inbox);
        case _ =>
      }
    }
  }

  lemma NothingQueued(p: Plan)
    ensures Queued(Init(p))
  {
  }

  lemma {:induction false} InOrderRunsQueue(p: Plan, schedule: seq<Choice>)
    requires !p.check.Order? && InOrder(schedule)
    ensures Queued(After(p, Init(p), schedule))
  {
    hide Act, Queued;
    if schedule != [] {
      var n := |schedule| - 1;
      assert forall i | 0 <= i < n :: schedule[..n][i] == schedule[i];
      InOrderRunsQueue(p, schedule[..n]);
      QueuedStep(p, After(p, Init(p), schedule[..n]), schedule[n]);
    } else {
      NothingQueued(p);
    }
  }
}
