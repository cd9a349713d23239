/**
 * The send loops message by message: stream, length and order flag of every send, for any bounds and
 * any random sequence; and which settings and rules surround them.
 */
module NdataSends {
  import opened Sequences
  import opened Scheduler
  import opened SchedOrder
  import opened NdataCases
  import opened NdataScripts
  import Server

  // ---------------------------------------------------------------- the send calls alone

  /** The send calls among the calls, in order. */
  function Handed(ops: seq<Op>): seq<Op> {
    if ops == [] then []
    else Handed(ops[..|ops| - 1]) + if ops[|ops| - 1].Send? then [ops[|ops| - 1]] else []
  }

  lemma {:induction false} HandedSplit(a: seq<Op>, b: seq<Op>)
    ensures Handed(a + b) == Handed(a) + Handed(b)
  {
    if b == [] {
      assert a + b == a;
    } else {
      HandedSplit(a, b[..|b| - 1]);
      assert (a + b)[..|a + b| - 1] == a + b[..|b| - 1];
    }
  }

  lemma {:induction false} AllHanded(ops: seq<Op>)
    requires forall i | 0 <= i < |ops| :: ops[i].Send?
    ensures Handed(ops) == ops
  {
    if ops != [] {
      AllHanded(ops[..|ops| - 1]);
    }
  }

  lemma {:induction false} NoneHanded(ops: seq<Op>)
    requires forall i | 0 <= i < |ops| :: !ops[i].Send?
    ensures Handed(ops) == []
  {
    if ops != [] {
      NoneHanded(ops[..|ops| - 1]);
    }
  }

  /** What is handed over is what is sent. */
  lemma {:induction false} HandedIsSent(ops: seq<Op>)
    ensures |Handed(ops)| == |Sent(ops)|
    ensures forall i | 0 <= i < |Sent(ops)| ::
              Handed(ops)[i].Send? && Sent(ops)[i] == Submission(Handed(ops)[i].sid, Handed(ops)[i].len)
  {
    if ops != [] {
      HandedIsSent(ops[..|ops| - 1]);
    }
  }

  // ---------------------------------------------------------------- equal messages

  lemma {:induction false} RunAt(sid: nat, each: nat, len: nat, unordered: bool)
    ensures |RunOps(sid, each, len, unordered)| == each
    ensures forall k | 0 <= k < each :: RunOps(sid, each, len, unordered)[k] == Send(sid, len, unordered)
  {
    if each > 0 {
      RunAt(sid, each - 1, len, unordered);
    }
  }

  lemma {:induction false} SweepLength(hi: nat, each: nat, len: nat, unordered: bool)
    ensures |SweepOps(0, hi, each, len, unordered)| == Times(hi, each)
  {
    if hi > 0 {
      SweepLength(hi - 1, each, len, unordered);
      RunAt(hi - 1, each, len, unordered);
    }
  }

  lemma {:induction false} SweepAt(hi: nat, each: nat, len: nat, unordered: bool, s: nat, k: nat)
    requires s < hi && k < each
    ensures var i := Times(s, each) + k;
            i < Times(hi, each) == |SweepOps(0, hi, each, len, unordered)|
            && SweepOps(0, hi, each, len, unordered)[i] == Send(s, len, unordered)
  {
    SweepLength(hi, each, len, unordered);
    SweepLength(hi - 1, each, len, unordered);
    RunAt(hi - 1, each, len, unordered);
    TimesGrows(s + 1, hi, each);
    if s < hi - 1 {
      SweepAt(hi - 1, each, len, unordered, s, k);
    }
  }

  lemma {:induction false} SteadyLength(repeats: nat, streams: nat, each: nat, len: nat, unordered: bool)
    ensures |SteadyOps(repeats, streams, each, len, unordered)| == Times(repeats, Times(streams, each))
  {
    hide SweepOps;
    if repeats > 0 {
      SteadyLength(repeats - 1, streams, each, len, unordered);
      SweepLength(streams, each, len, unordered);
    }
  }

  lemma {:induction false} SteadyRowAt(repeats: nat, streams: nat, each: nat, len: nat, unordered: bool,
                                       r: nat, s: nat, k: nat)
    requires r < repeats && s < streams && k < each
    ensures var i := Times(r, Times(streams, each)) + Times(s, each) + k;
            i < |SteadyOps(repeats, streams, each, len, unordered)|
            && SteadyOps(repeats, streams, each, len, unordered)[i] == Send(s, len, unordered)
  {
    hide SweepOps;
    SteadyLength(repeats - 1, streams, each, len, unordered);
    SweepAt(streams, each, len, unordered, s, k);
    if r < repeats - 1 {
      SteadyRowAt(repeats - 1, streams, each, len, unordered, r, s, k);
    }
  }

  /** Send `k` on stream `s` in sweep `r` of the three nested loops, whatever their bounds. */
  lemma SteadyAt(repeats: nat, streams: nat, each: nat, len: nat, unordered: bool, r: nat, s: nat, k: nat)
    requires r < repeats && s < streams && k < each
    ensures |SteadyOps(repeats, streams, each, len, unordered)| == repeats * (streams * each)
    ensures var i := r * (streams * each) + s * each + k;
            i < |SteadyOps(repeats, streams, each, len, unordered)|
            && SteadyOps(repeats, streams, each, len, unordered)[i] == Send(s, len, unordered)
  {
    hide SteadyOps;
    SteadyLength(repeats, streams, each, len, unordered);
    SteadyRowAt(repeats, streams, each, len, unordered, r, s, k);
    TimesIsProduct(streams, each);
    TimesIsProduct(repeats, streams * each);
    TimesIsProduct(r, streams * each);
    TimesIsProduct(s, each);
  }

  // ---------------------------------------------------------------- ordered and unordered by turns

  lemma {:induction false} PairAt(sid: nat, each: nat, len: nat)
    ensures |PairOps(sid, each, len)| == 2 * each
    ensures forall i | 0 <= i < 2 * each :: PairOps(sid, each, len)[i] == Send(sid, len, i % 2 == 1)
  {
    if each > 0 {
      PairAt(sid, each - 1, len);
    }
  }

  lemma {:induction false} PairSweepLength(hi: nat, each: nat, len: nat)
    ensures |PairSweepOps(hi, each, len)| == Times(hi, 2 * each)
  {
    if hi > 0 {
      PairSweepLength(hi - 1, each, len);
      PairAt(hi - 1, each, len);
    }
  }

  lemma {:induction false} PairSweepAt(hi: nat, each: nat, len: nat, s: nat, k: nat)
    requires s < hi && k < 2 * each
    ensures var i := Times(s, 2 * each) + k;
            i < Times(hi, 2 * each) == |PairSweepOps(hi, each, len)|
            && PairSweepOps(hi, each, len)[i] == Send(s, len, k % 2 == 1)
  {
    hide PairOps;
    PairSweepLength(hi, each, len);
    PairSweepLength(hi - 1, each, len);
    PairAt(hi - 1, each, len);
    TimesGrows(s + 1, hi, 2 * each);
    if s < hi - 1 {
      PairSweepAt(hi - 1, each, len, s, k);
    }
  }

  lemma {:induction false} MixedLength(repeats: nat, streams: nat, each: nat, len: nat)
    ensures |MixedOps(repeats, streams, each, len)| == Times(repeats, Times(streams, 2 * each))
  {
    hide PairSweepOps;
    if repeats > 0 {
      MixedLength(repeats - 1, streams, each, len);
      PairSweepLength(streams, each, len);
    }
  }

  lemma {:induction false} MixedRowAt(repeats: nat, streams: nat, each: nat, len: nat, r: nat, s: nat, k: nat)
    requires r < repeats && s < streams && k < 2 * each
    ensures var i := Times(r, Times(streams, 2 * each)) + Times(s, 2 * each) + k;
            i < |MixedOps(repeats, streams, each, len)|
            && MixedOps(repeats, streams, each, len)[i] == Send(s, len, k % 2 == 1)
  {
    hide PairSweepOps;
    MixedLength(repeats - 1, streams, each, len);
    PairSweepAt(streams, each, len, s, k);
    if r < repeats - 1 {
      MixedRowAt(repeats - 1, streams, each, len, r, s, k);
    }
  }

  /** Send `k` on stream `s` in sweep `r`: the even ones ordered, the odd ones unordered. */
  lemma MixedAt(repeats: nat, streams: nat, each: nat, len: nat, r: nat, s: nat, k: nat)
    requires r < repeats && s < streams && k < 2 * each
    ensures |MixedOps(repeats, streams, each, len)| == repeats * (streams * (2 * each))
    ensures var i := r * (streams * (2 * each)) + s * (2 * each) + k;
            i < |MixedOps(repeats, streams, each, len)|
            && MixedOps(repeats, streams, each, len)[i] == Send(s, len, k % 2 == 1)
  {
    hide MixedOps;
    MixedLength(repeats, streams, each, len);
    MixedRowAt(repeats, streams, each, len, r, s, k);
    TimesIsProduct(streams, 2 * each);
    TimesIsProduct(repeats, streams * (2 * each));
    TimesIsProduct(r, streams * (2 * each));
    TimesIsProduct(s, 2 * each);
  }

  // ---------------------------------------------------------------- random lengths

  lemma {:induction false} FuzzRunAt(rnd: Draws, at: nat, span: nat, sid: nat, each: nat)
    requires span > 0
    ensures |FuzzRunOps(rnd, at, span, sid, each)| == each
    ensures forall k | 0 <= k < each ::
              FuzzRunOps(rnd, at, span, sid, each)[k] == Send(sid, rnd(at + k) % span + 20, false)
  {
    if each > 0 {
      FuzzRunAt(rnd, at, span, sid, each - 1);
    }
  }

  lemma {:induction false} FuzzSweepAt(rnd: Draws, at: nat, span: nat, hi: nat)
    requires span > 0
    ensures |FuzzSweepOps(rnd, at, span, hi)| == 10 * hi
    ensures forall i | 0 <= i < 10 * hi ::
              FuzzSweepOps(rnd, at, span, hi)[i] == Send(i / 10, rnd(at + i) % span + 20, false)
  {
    hide FuzzRunOps;
    if hi > 0 {
      var h := hi - 1;
      FuzzSweepAt(rnd, at, span, h);
      FuzzRunAt(rnd, at + 10 * h, span, h, 10);
      forall i | 0 <= i < 10 * hi
        ensures FuzzSweepOps(rnd, at, span, hi)[i] == Send(i / 10, rnd(at + i) % span + 20, false)
      {
        if i >= 10 * h {
          assert FuzzSweepOps(rnd, at, span, hi)[i] == FuzzRunOps(rnd, at + 10 * h, span, h, 10)[i - 10 * h];
          assert at + 10 * h + (i - 10 * h) == at + i;
        }
      }
    }
  }

  /** Row, column and place of entry `j` of sweep `r`. */
  lemma Digits(r: nat, j: nat)
    requires j < 100
    ensures (100 * r + j) / 100 == r && (100 * r + j) % 100 == j && (100 * r + j) / 10 % 10 == j / 10
  {
  }

  lemma {:induction false} FuzzAt(rnd: Draws, at: nat, repeats: nat)
    ensures |FuzzOps(rnd, at, repeats)| == 100 * repeats
    ensures forall i | 0 <= i < 100 * repeats ::
              FuzzOps(rnd, at, repeats)[i] == Send(i / 10 % 10, rnd(at + i) % 1500 + 20, false)
  {
    hide FuzzSweepOps;
    if repeats > 0 {
      var r := repeats - 1;
      FuzzAt(rnd, at, r);
      FuzzSweepAt(rnd, at + 100 * r, 1500, 10);
      forall i | 0 <= i < 100 * repeats
        ensures FuzzOps(rnd, at, repeats)[i] == Send(i / 10 % 10, rnd(at + i) % 1500 + 20, false)
      {
        if i >= 100 * r {
          var j := i - 100 * r;
          Digits(r, j);
          assert FuzzOps(rnd, at, repeats)[i] == FuzzSweepOps(rnd, at + 100 * r, 1500, 10)[j];
          assert at + 100 * r + j == at + i;
        }
      }
    }
  }

  /** The fuzz loop: one draw a send, ten sends on each of ten streams in every sweep. */
  lemma FuzzSendsWhatWasDrawn(rnd: Draws, at: nat, repeats: nat, r: nat, s: nat, k: nat)
    requires r < repeats && s < 10 && k < 10
    ensures |Sent(FuzzOps(rnd, at, repeats))| == |Handed(FuzzOps(rnd, at, repeats))| == 100 * repeats
    ensures var i := 100 * r + 10 * s + k;
            && Sent(FuzzOps(rnd, at, repeats))[i] == Submission(s, rnd(at + i) % 1500 + 20)
            && Handed(FuzzOps(rnd, at, repeats))[i] == Send(s, rnd(at + i) % 1500 + 20, false)
  {
    FuzzAt(rnd, at, repeats);
    hide FuzzOps, Sent, Handed;
    AllHanded(FuzzOps(rnd, at, repeats));
    HandedIsSent(FuzzOps(rnd, at, repeats));
    Digits(r, 10 * s + k);
  }

  lemma SetupHandsNothing(c: Case)
    ensures Handed(SetupOps(c)) == []
  {
    hide SetupOps;
    SetupOnly(c);
    NoneHanded(SetupOps(c));
  }

  lemma SweepHanded(rnd: Draws, at: nat, span: nat)
    requires span > 0
    ensures Handed(FuzzSweepOps(rnd, at, span, 10)) == FuzzSweepOps(rnd, at, span, 10)
    ensures |FuzzSweepOps(rnd, at, span, 10)| == 100
  {
    hide FuzzSweepOps;
    FuzzSweepAt(rnd, at, span, 10);
    AllHanded(FuzzSweepOps(rnd, at, span, 10));
  }

  lemma SwitchingGrows(rnd: Draws, at: nat, r: nat)
    ensures Handed(SwitchingOps(rnd, at, r + 1))
         == Handed(SwitchingOps(rnd, at, r)) + FuzzSweepOps(rnd, at + 101 * r + 1, 3000, 10)
  {
    hide FuzzSweepOps, SetupOps, Cases, Handed;
    var a, b := SwitchingOps(rnd, at, r), SetupOps(Cases(Switched(rnd, at, r)));
    SetupHandsNothing(Cases(Switched(rnd, at, r)));
    SweepHanded(rnd, at + 101 * r + 1, 3000);
    HandedSplit(a + b, FuzzSweepOps(rnd, at + 101 * r + 1, 3000, 10));
    HandedSplit(a, b);
  }

  /** Send `i` of the switching loop: the first draw of each round chose the case. */
  function SwitchingSend(rnd: Draws, at: nat, i: nat): Op {
    Send(i / 10 % 10, rnd(at + 101 * (i / 100) + 1 + i % 100) % 3000 + 20, false)
  }

  lemma SwitchingRow(rnd: Draws, at: nat, r: nat, j: nat)
    requires j < 100
    ensures |FuzzSweepOps(rnd, at + 101 * r + 1, 3000, 10)| == 100
    ensures FuzzSweepOps(rnd, at + 101 * r + 1, 3000, 10)[j] == SwitchingSend(rnd, at, 100 * r + j)
  {
    hide FuzzSweepOps;
    FuzzSweepAt(rnd, at + 101 * r + 1, 3000, 10);
    Digits(r, j);
  }

  lemma NothingSwitched(rnd: Draws, at: nat)
    ensures SwitchingOps(rnd, at, 0) == [] && Handed(SwitchingOps(rnd, at, 0)) == []
  {
  }

  lemma {:induction false} SwitchingLength(rnd: Draws, at: nat, repeats: nat)
    ensures |Handed(SwitchingOps(rnd, at, repeats))| == 100 * repeats
  {
    hide *;
    if repeats == 0 {
      NothingSwitched(rnd, at);
    } else {
      SwitchingLength(rnd, at, repeats - 1);
      SwitchingGrows(rnd, at, repeats - 1);
      SweepHanded(rnd, at + 101 * (repeats - 1) + 1, 3000);
    }
  }

  lemma {:induction false} SwitchingAt(rnd: Draws, at: nat, repeats: nat, i: nat)
    requires i < 100 * repeats
    ensures |Handed(SwitchingOps(rnd, at, repeats))| == 100 * repeats
    ensures Handed(SwitchingOps(rnd, at, repeats))[i] == SwitchingSend(rnd, at, i)
  {
    hide *;
    var r := repeats - 1;
    SwitchingLength(rnd, at, repeats);
    SwitchingLength(rnd, at, r);
    SwitchingGrows(rnd, at, r);
    if i < 100 * r {
      SwitchingAt(rnd, at, r, i);
    } else {
      SwitchingRow(rnd, at, r, i - 100 * r);
    }
  }

  /** The switching loop: a draw for the case, then a hundred for the sends of the round. */
  lemma SwitchingSendsWhatWasDrawn(rnd: Draws, at: nat, repeats: nat, r: nat, s: nat, k: nat)
    requires r < repeats && s < 10 && k < 10
    ensures |Sent(SwitchingOps(rnd, at, repeats))| == |Handed(SwitchingOps(rnd, at, repeats))| == 100 * repeats
    ensures var i, j := 100 * r + 10 * s + k, at + 101 * r + 1 + 10 * s + k;
            && Sent(SwitchingOps(rnd, at, repeats))[i] == Submission(s, rnd(j) % 3000 + 20)
            && Handed(SwitchingOps(rnd, at, repeats))[i] == Send(s, rnd(j) % 3000 + 20, false)
  {
    hide SwitchingOps, Sent, Handed;
    SwitchingAt(rnd, at, repeats, 100 * r + 10 * s + k);
    HandedIsSent(SwitchingOps(rnd, at, repeats));
    Digits(r, 10 * s + k);
  }

  // ---------------------------------------------------------------- the rows of the table

  lemma NothingAround(cork: bool)
    ensures Handed(CorkOps(cork)) == [] && Handed(UncorkOps(cork)) == []
  {
    NoneHanded(CorkOps(cork));
    NoneHanded(UncorkOps(cork));
  }

  /** Corking, uncorking and waiting hand nothing over. */
  lemma HandedInBody(c: nat, rnd: Draws)
    requires c < CASES
    ensures Handed(BodyOps(c, rnd)) == Handed(TrafficOps(Cases(c).traffic, rnd, 0))
  {
    hide Cases, TrafficOps, CorkOps, UncorkOps, Handed;
    var a, b := CorkOps(Cases(c).cork), UncorkOps(Cases(CaseAfter(c, rnd, 0)).cork);
    var t := TrafficOps(Cases(c).traffic, rnd, 0);
    NothingAround(Cases(c).cork);
    NothingAround(Cases(CaseAfter(c, rnd, 0)).cork);
    HandedSplit(a + t, b);
    HandedSplit(a, t);
  }

  lemma HandedThenWait(ops: seq<Op>)
    ensures Handed(ops + [Settle]) == Handed(ops)
  {
    assert (ops + [Settle])[..|ops|] == ops;
  }

  lemma LoopOfRow(t: Traffic, rnd: Draws)
    requires t.Steady? ==> Untagged(t.length) && t.length > 0
    ensures Handed(TrafficOps(t, rnd, 0))
         == match t
            case Conformance => SweepOps(1, 4, 3, 1024, false)
            case Steady(repeats, len, unordered) => SteadyOps(repeats, 10, 10, len, unordered)
            case Mixed(repeats) => MixedOps(repeats, 10, 5, 1024)
            case Fuzz(repeats) => FuzzOps(rnd, 0, repeats)
            case Switching(repeats) => Handed(SwitchingOps(rnd, 0, repeats))
  {
    hide SweepOps, SteadyOps, MixedOps, FuzzOps, SwitchingOps, Handed;
    match t {
      case Conformance =>
        SweepSends(1, 4, 3, 1024, false);
        AllHanded(SweepOps(1, 4, 3, 1024, false));
      case Steady(repeats, len, unordered) =>
        HandedThenWait(SteadyOps(repeats, 10, 10, len, unordered));
        SteadySends(repeats, 10, 10, len, unordered);
        AllHanded(SteadyOps(repeats, 10, 10, len, unordered));
      case Mixed(repeats) =>
        HandedThenWait(MixedOps(repeats, 10, 5, 1024));
        MixedSends(repeats, 10, 5, 1024);
        AllHanded(MixedOps(repeats, 10, 5, 1024));
      case Fuzz(repeats) =>
        HandedThenWait(FuzzOps(rnd, 0, repeats));
        FuzzSends(rnd, 0, repeats);
        AllHanded(FuzzOps(rnd, 0, repeats));
      case Switching(repeats) =>
        HandedThenWait(SwitchingOps(rnd, 0, repeats));
    }
  }

  /** What the nested loops of a row hand over at place `k` of stream `s` in sweep `r`. */
  function Expected(t: Traffic, rnd: Draws, r: nat, s: nat, k: nat): Op {
    match t
    case Conformance => Send(s + 1, 1024, false)
    case Steady(_, len, unordered) => Send(s, len, unordered)
    case Mixed(_) => Send(s, 1024, k % 2 == 1)
    case Fuzz(_) => Send(s, rnd(100 * r + 10 * s + k) % 1500 + 20, false)
    case Switching(_) => Send(s, rnd(101 * r + 1 + 10 * s + k) % 3000 + 20, false)
  }

  lemma FuzzIsAllSends(rnd: Draws, repeats: nat)
    ensures Handed(FuzzOps(rnd, 0, repeats)) == FuzzOps(rnd, 0, repeats)
  {
    hide FuzzOps;
    FuzzSends(rnd, 0, repeats);
    AllHanded(FuzzOps(rnd, 0, repeats));
  }

  lemma LoopSends(t: Traffic, rnd: Draws, r: nat, s: nat, k: nat)
    requires t.Steady? ==> Untagged(t.length) && t.length > 0
    requires !t.Conformance? && r < t.repeats && s < 10 && k < 10
    ensures |Handed(TrafficOps(t, rnd, 0))| == 100 * t.repeats
    ensures Handed(TrafficOps(t, rnd, 0))[100 * r + 10 * s + k] == Expected(t, rnd, r, s, k)
  {
    hide SteadyOps, MixedOps, FuzzOps, SwitchingOps, Handed, TrafficOps, Sent;
    LoopOfRow(t, rnd);
    match t {
      case Steady(repeats, len, unordered) => SteadyAt(repeats, 10, 10, len, unordered, r, s, k);
      case Mixed(repeats) => MixedAt(repeats, 10, 5, 1024, r, s, k);
      case Fuzz(repeats) =>
        FuzzSendsWhatWasDrawn(rnd, 0, repeats, r, s, k);
        FuzzIsAllSends(rnd, repeats);
      case Switching(repeats) => SwitchingSendsWhatWasDrawn(rnd, 0, repeats, r, s, k);
    }
  }

  lemma RowSizes(c: nat)
    requires c < CASES
    ensures Cases(c).cork <==> Cases(c).traffic.Conformance?
    ensures var t := Cases(c).traffic;
            && (t.Steady? ==> Untagged(t.length) && t.length > 0)
            && (t.Mixed? || t.Fuzz? || t.Switching? ==> t.repeats == 10000)
  {
  }

  /**
   * Every performance and fuzz row: the message at place `k` of stream `s` in sweep `r`, with its
   * length and whether it is ordered; there are a hundred for each sweep, and 10000 sweeps where the
   * lengths are drawn or mixed.
   */
  lemma EveryRowSends(c: nat, rnd: Draws, r: nat, s: nat, k: nat)
    requires c < CASES && !Cases(c).cork && s < 10 && k < 10
    ensures var t := Cases(c).traffic;
            !t.Conformance? && (r < t.repeats ==>
              && |Handed(BodyOps(c, rnd))| == |Sent(BodyOps(c, rnd))| == 100 * t.repeats
              && Handed(BodyOps(c, rnd))[100 * r + 10 * s + k] == Expected(t, rnd, r, s, k)
              && (t.Mixed? || t.Fuzz? || t.Switching? ==> t.repeats == 10000))
  {
    hide BodyOps, Sent, Cases, Handed, TrafficOps;
    RowSizes(c);
    HandedInBody(c, rnd);
    HandedIsSent(BodyOps(c, rnd));
    if r < Cases(c).traffic.repeats {
      LoopSends(Cases(c).traffic, rnd, r, s, k);
    }
  }

  lemma FirstStreamsAt(s: nat, k: nat)
    requires s < 3 && k < 3
    ensures |SweepOps(1, 4, 3, 1024, false)| == 9
    ensures SweepOps(1, 4, 3, 1024, false)[3 * s + k] == Send(s + 1, 1024, false)
  {
    hide RunOps;
    RunAt(1, 3, 1024, false);
    RunAt(2, 3, 1024, false);
    RunAt(3, 3, 1024, false);
    assert SweepOps(1, 1, 3, 1024, false) == [];
    assert SweepOps(1, 2, 3, 1024, false) == RunOps(1, 3, 1024, false);
    assert SweepOps(1, 3, 3, 1024, false) == RunOps(1, 3, 1024, false) + RunOps(2, 3, 1024, false);
  }

  /** The conformance rows send three ordered messages on each of the streams 1 to 3. */
  lemma CorkedRowsSend(c: nat, rnd: Draws, s: nat, k: nat)
    requires c < CASES && Cases(c).cork && s < 3 && k < 3
    ensures |Handed(BodyOps(c, rnd))| == |Sent(BodyOps(c, rnd))| == 9
    ensures Handed(BodyOps(c, rnd))[3 * s + k] == Send(s + 1, 1024, false)
  {
    hide BodyOps, Sent, Cases, Handed, TrafficOps, SweepOps;
    RowSizes(c);
    HandedInBody(c, rnd);
    HandedIsSent(BodyOps(c, rnd));
    LoopOfRow(Cases(c).traffic, rnd);
    FirstStreamsAt(s, k);
  }

  // ---------------------------------------------------------------- the reset request refused

  lemma {:induction false} RulesUntouched(ops: seq<Op>)
    requires DropInput !in ops
    ensures Rules(ops) == 0
  {
    if ops != [] {
      assert ops[|ops| - 1] in ops;
      RulesUntouched(ops[..|ops| - 1]);
    }
  }

  lemma OpeningCalls(c: nat, op: Op)
    requires c < CASES && op in OpeningOps(c)
    ensures !op.Send? && op != DropInput && op != FlushRules && op != ResetStreams
    ensures op.Command? ==> op.cmd == Server.SET_STRRESET
  {
    hide SetupOps, Cases;
    SetupOnly(Cases(c));
    if op in SetupOps(Cases(c)) {
      var i :| 0 <= i < |SetupOps(Cases(c))| && SetupOps(Cases(c))[i] == op;
    }
  }

  /**
   * A refused reset ends the process: the calls are those of the accepted run up to the request,
   * then the rule is removed, and nothing is sent, neither data nor the close command.
   */
  lemma RefusalEndsTheProcess(c: nat, rnd: Draws)
    requires c < CASES && Cases(c).cork
    ensures var ops := ClientOps(c, rnd, false);
            var k := |ops| - 1;
            && k < |ClientOps(c, rnd, true)|
            && ops == ClientOps(c, rnd, true)[..k] + [FlushRules]
            && ClientOps(c, rnd, true)[k] == ResetStreams && ops[k - 1] == DropInput
            && Sent(ops) == [] && Rules(ops) == 0
            && ResetStreams !in ops && Command(Server.CLOSE_ASOC) !in ops
  {
    hide Cases, TrafficOps, OpeningOps, Sent, Rules;
    var a := OpeningOps(c);
    var ops := ClientOps(c, rnd, false);
    assert ops == (a + [DropInput]) + [FlushRules];
    forall op | op in ops
      ensures !op.Send? && op != ResetStreams && op != Command(Server.CLOSE_ASOC)
      ensures op in a ==> op != DropInput && op != FlushRules
    {
      if op in a {
        OpeningCalls(c, op);
      }
    }
    NoSends(ops);
    RulesUntouched(a);
    RulesAfterOne(a, DropInput);
    RulesAfterOne(a + [DropInput], FlushRules);
    var all := ClientOps(c, rnd, true);
    assert all == a + ([DropInput, ResetStreams] + TrafficOps(Cases(c).traffic, rnd, 0)
                       + UncorkOps(Cases(CaseAfter(c, rnd, 0)).cork)) + CLOSING;
    assert all[..|a| + 1] == a + [DropInput];
  }

  /** A case that does not cork makes no request that could be refused. */
  lemma UncorkedNeverAsks(c: nat, rnd: Draws, accepted: bool)
    requires c < CASES && !Cases(c).cork
    ensures ResetStreams !in ClientOps(c, rnd, accepted) && DropInput !in ClientOps(c, rnd, accepted)
    ensures ClientOps(c, rnd, accepted) == ClientOps(c, rnd, true)
  {
    hide Cases, TrafficOps, OpeningOps;
    TrafficOnly(c, rnd);
    forall op | op in OpeningOps(c)
      ensures op != ResetStreams && op != DropInput
    {
      OpeningCalls(c, op);
    }
  }

  // ---------------------------------------------------------------- which rules the reopening removes

  lemma CorkedRows(c: nat)
    requires c < CASES
    ensures Cases(c).cork <==> c in {0, 1, 7, 13}
  {
  }

  lemma SwitchingRounds(c: nat)
    requires c < CASES && Cases(c).traffic.Switching?
    ensures Cases(c).traffic.repeats == 10000 && !Cases(c).cork
  {
  }

  /**
   * After the switching loop the client decides by the case drawn last whether to remove rules: it
   * does so exactly if that case corks, although none was installed.
   */
  lemma SwitchingReopens(c: nat, rnd: Draws)
    requires c < CASES && Cases(c).traffic.Switching?
    ensures FlushRules in BodyOps(c, rnd) <==> rnd(101 * 9999) % CASES in {0, 1, 7, 13}
    ensures DropInput !in BodyOps(c, rnd)
  {
    hide Cases, TrafficOps;
    SwitchingRounds(c);
    TrafficOnly(c, rnd);
    CorkedRows(CaseAfter(c, rnd, 0));
    var t := TrafficOps(Cases(c).traffic, rnd, 0);
    assert FlushRules !in t && DropInput !in t;
    assert BodyOps(c, rnd) == [] + t + UncorkOps(Cases(CaseAfter(c, rnd, 0)).cork);
  }
}
