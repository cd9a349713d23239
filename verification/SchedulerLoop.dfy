/**
 * The scheduler as a program that updates its queues in place: it keeps a ring of streams, looks
 * through it for the one to serve, and moves that stream to the end.  Each method is proved against
 * the function of the same name, so that the orders proved of the functions are those of the loop.
 */
module SchedulerLoop {
  import opened Scheduler

  lemma DrainOne(q: OutQ)
    requires q.Valid() && q.ring != []
    ensures Drain(q) == [Next(q)] + Drain(Pop(q))
    ensures Size(Pop(q).queues) < Size(q.queues)
  {
    hide OutQ.Valid, Pop, Next, Size;
  }

  lemma DrainNone(q: OutQ)
    requires q.Valid() && q.ring == []
    ensures Drain(q) == []
  {
  }

  class Association {
    var policy: Policy
    var value: seq<int>
    var queues: seq<seq<Msg>>
    var ring: seq<nat>
    var count: seq<nat>
    var clock: nat

    ghost function State(): OutQ
      reads this
    {
      OutQ(policy, value, queues, ring, count, clock)
    }

    constructor (streams: nat, policy: Policy)
      ensures State() == Fresh(streams, policy)
    {
      this.policy := policy;
      value, queues, ring := seq(streams, _ => 0), seq(streams, _ => []), [];
      count, clock := seq(streams, _ => 0), 0;
    }

    method Accept(sid: nat, len: nat)
      requires State().Valid() && sid < |queues|
      modifies this`queues, this`ring, this`count, this`clock
      ensures State() == Scheduler.Enqueue(old(State()), sid, len)
    {
      if queues[sid] == [] {
        ring := ring + [sid];
      }
      queues := queues[sid := queues[sid] + [Msg(sid, count[sid], clock, len)]];
      count := count[sid := count[sid] + 1];
      clock := clock + 1;
    }

    method WeightOf(s: nat) returns (w: int)
      requires State().Valid() && s < |queues| && queues[s] != []
      ensures w == Weight(State(), s)
    {
      match policy {
        case Fcfs => w := queues[s][0].stamp;
        case Prio => w := value[s];
        case Rr => w := 0;
      }
    }

    /** One pass over the ring; the first of the best streams wins. */
    method Pick() returns (k: nat)
      requires State().Valid() && ring != []
      ensures k == BestFrom(State(), 0)
    {
      k := 0;
      RingMember(State(), 0);
      var best := WeightOf(ring[0]);
      for j := 1 to |ring|
        invariant k < j
        invariant ring[k] < |queues| && queues[ring[k]] != [] && best == Weight(State(), ring[k])
        invariant forall i | 0 <= i < j :: best <= Weight(State(), ring[i])
        invariant forall i | 0 <= i < k :: best < Weight(State(), ring[i])
      {
        RingMember(State(), j);
        var w := WeightOf(ring[j]);
        if w < best {
          k, best := j, w;
        }
      }
    }

    method Transmit() returns (m: Msg)
      requires State().Valid() && ring != []
      modifies this`queues, this`ring
      ensures m == Next(old(State())) && State() == Pop(old(State()))
    {
      var k := Pick();
      RingMember(State(), k);
      var s := ring[k];
      m := queues[s][0];
      queues := queues[s := queues[s][1..]];
      ring := ring[..k] + ring[k + 1..] + if queues[s] == [] then [] else [s];
    }

    /** Everything that waits, sent in order. */
    method TransmitAll() returns (sent: seq<Msg>)
      requires State().Valid()
      modifies this`queues, this`ring
      ensures sent == Drain(old(State())) && ring == [] && State().Empty()
    {
      hide OutQ.Valid, Drain, Pop, Next, Size, OutQ.Empty;
      sent := [];
      ghost var all := Drain(State());
      while ring != []
        invariant State().Valid()
        invariant sent + Drain(State()) == all
        decreases Size(queues)
      {
        ghost var q := State();
        DrainOne(q);
        var m := Transmit();
        sent := sent + [m];
        assert sent + Drain(Pop(q)) == all;
      }
      DrainNone(State());
      NothingWaiting(State());
    }
  }
}
