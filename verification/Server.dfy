/**
 * The receiving process.  The three conformance programs share one server loop: a message whose
 * length is one of two command numbers is a command, any other message goes to the case's check
 * function, and the loop ends with the verdict in `cb[1]` when the close command arrives.  They
 * differ in the check functions and in the verdict they start from.
 */
module Server {

  const SET_STRRESET := 11
  const CLOSE_ASOC := 12
  const ACK := 13

  predicate IsCommand(len: int) {
    len == SET_STRRESET || len == CLOSE_ASOC
  }

  /** One return of the receive call; `now` is the wall clock at that moment. */
  datatype Event = Recv(sid: nat, len: nat, now: int) | RecvError

  predicate IsData(e: Event) {
    e.Recv? && !IsCommand(e.len)
  }

  /** The check functions, each with the constants its source writes out. */
  datatype Check =
    | Order(sids: seq<nat>)        // compare the stream with the case's table
    | Count(target: int)           // report when `target` messages have come
    | Bytes(target: int)           // report when `target` bytes have come
    | Tally                        // add up, never object
    | LastLength(length: int)      // judge the latest message only
    | FirstThenBoth(unit: int)     // one unit first, two units from then on
    | FourTotals                   // running totals 1, 2, 1002, 2002, then nothing
    | Total(target: int)           // latch when the running total hits `target`

  /** The counters of the context, and the clock-independent part of what was printed. */
  datatype Cb = Cb(cb0: int, cb1: int, cb2: int, cb3: int, cb4: int, reports: seq<int>)

  function Start(verdict: int): Cb {
    Cb(0, verdict, 0, 0, 0, [])
  }

  predicate InTable(check: Check, cb: Cb, n: nat) {
    check.Order? ==> 0 <= cb.cb0 && cb.cb0 + n <= |check.sids|
  }

  function Flag(bad: bool): int {
    if bad then 1 else 0
  }

  /** One call of the check function. */
  function Step(check: Check, before: Cb, e: Event): Cb
    requires e.Recv? && InTable(check, before, 1)
  {
    var cb := before.(cb2 := e.len);
    match check
    case Order(sids) =>
      cb.(cb1 := if e.sid != sids[cb.cb0] then 1 else cb.cb1, cb0 := cb.cb0 + 1)
    case Count(target) =>
      var n := cb.cb0 + 1;
      if n == 1 then cb.(cb0 := n, cb3 := e.now)
      else if n == target then cb.(cb0 := n, reports := cb.reports + [n])
      else cb.(cb0 := n)
    case Bytes(target) =>
      var n := cb.cb0 + e.len;
      if cb.cb3 == 0 then cb.(cb0 := n, cb3 := e.now)
      else if n == target then cb.(cb0 := n, reports := cb.reports + [n])
      else cb.(cb0 := n)
    case Tally =>
      cb.(cb0 := cb.cb0 + e.len)
    case LastLength(length) =>
      cb.(cb1 := Flag(e.len != length))
    case FirstThenBoth(unit) =>
      var n, total := cb.cb3 + 1, cb.cb4 + e.len;
      cb.(cb3 := n, cb4 := total, cb1 := Flag(total != if n == 1 then unit else 2 * unit))
    case FourTotals =>
      var n, total := cb.cb3 + 1, cb.cb4 + e.len;
      cb.(cb3 := n, cb4 := total,
          cb1 := if n == 1 then Flag(total != 1)
                 else if n == 2 then Flag(total != 2)
                 else if n == 3 then Flag(total != 1002)
                 else if n == 4 then Flag(total != 2002)
                 else cb.cb1)
    case Total(target) =>
      var total := cb.cb3 + e.len;
      cb.(cb3 := total, cb1 := if total == target then 0 else cb.cb1)
  }

  /** The check function over a whole sequence of data messages. */
  function Fold(check: Check, cb: Cb, data: seq<Event>): Cb
    requires forall i | 0 <= i < |data| :: data[i].Recv?
    requires InTable(check, cb, |data|)
    decreases |data|
  {
    if data == [] then cb
    else
      var before := Fold(check, cb, data[..|data| - 1]);
      if InTable(check, before, 1) then Step(check, before, data[|data| - 1]) else before
  }

  /** The data among what was received. */
  function Data(inbox: seq<Event>): (d: seq<Event>)
    ensures |d| <= |inbox|
    ensures forall i | 0 <= i < |d| :: IsData(d[i])
  {
    if inbox == [] then []
    else Data(inbox[..|inbox| - 1])
         + if IsData(inbox[|inbox| - 1]) then [inbox[|inbox| - 1]] else []
  }

  function Commands(inbox: seq<Event>): nat {
    if inbox == [] then 0
    else Commands(inbox[..|inbox| - 1])
         + if inbox[|inbox| - 1].Recv? && IsCommand(inbox[|inbox| - 1].len) then 1 else 0
  }

  predicate Ends(e: Event) {
    e.RecvError? || e.len == CLOSE_ASOC
  }

  datatype Outcome =
    | Waiting                      // still in the receive call
    | Exited(verdict: int)
    | Died                         // the receive call failed

  /** A check function sees the new length, not the previous one. */
  lemma LengthIsSetFirst(check: Check, cb: Cb, e: Event)
    requires e.Recv? && InTable(check, cb, 1)
    ensures Step(check, cb.(cb2 := e.len), e) == Step(check, cb, e)
  {
  }

  /** What the loop has done once `used` receive calls have returned. */
  ghost predicate Served(check: Check, verdict: int, inbox: seq<Event>,
                         used: nat, acks: nat, outcome: Outcome, cb: Cb)
  {
    && used <= |inbox|
    && InTable(check, Start(verdict), |Data(inbox[..used])|)
    && cb == Fold(check, Start(verdict), Data(inbox[..used]))
    && acks == Commands(inbox[..used])
    && (forall i | 0 <= i < used - 1 :: !Ends(inbox[i]))
    && outcome == if used == 0 || !Ends(inbox[used - 1]) then Waiting
                  else if inbox[used - 1].RecvError? then Died
                  else Exited(cb.cb1)
  }

  lemma {:induction false} DataGrows(inbox: seq<Event>, i: nat)
    requires i <= |inbox|
    ensures |Data(inbox[..i])| <= |Data(inbox)|
  {
    if i < |inbox| {
      DataGrows(inbox[..|inbox| - 1], i);
      assert inbox[..|inbox| - 1][..i] == inbox[..i];
    } else {
      assert inbox[..i] == inbox;
    }
  }

  lemma {:induction false} DataOfPrefix(inbox: seq<Event>, i: nat)
    requires i < |inbox|
    ensures Data(inbox[..i + 1]) == Data(inbox[..i]) + if IsData(inbox[i]) then [inbox[i]] else []
    ensures Commands(inbox[..i + 1])
         == Commands(inbox[..i]) + if inbox[i].Recv? && IsCommand(inbox[i].len) then 1 else 0
    ensures |Data(inbox[..i + 1])| <= |Data(inbox)|
  {
    assert inbox[..i + 1][..i] == inbox[..i];
    DataGrows(inbox, i + 1);
  }

  /** The table index counts the messages compared so far. */
  lemma {:induction false} OrderIndex(check: Check, cb: Cb, data: seq<Event>)
    requires forall i | 0 <= i < |data| :: data[i].Recv?
    requires InTable(check, cb, |data|)
    ensures check.Order? ==> Fold(check, cb, data).cb0 == cb.cb0 + |data|
  {
    if data != [] {
      OrderIndex(check, cb, data[..|data| - 1]);
    }
  }

  /** One more receive, as the specification sees it. */
  lemma OneMore(check: Check, verdict: int, inbox: seq<Event>, used: nat, acks: nat, cb: Cb)
    requires used < |inbox| && InTable(check, Start(verdict), |Data(inbox)|)
    requires Served(check, verdict, inbox, used, acks, Waiting, cb)
    ensures var e := inbox[used];
            if e.RecvError? then Served(check, verdict, inbox, used + 1, acks, Died, cb)
            else if e.len == CLOSE_ASOC then
              Served(check, verdict, inbox, used + 1, acks + 1, Exited(cb.cb1), cb)
            else if e.len == SET_STRRESET then
              Served(check, verdict, inbox, used + 1, acks + 1, Waiting, cb)
            else
              InTable(check, cb, 1)
              && Served(check, verdict, inbox, used + 1, acks, Waiting, Step(check, cb, e))
  {
    DataOfPrefix(inbox, used);
    OrderIndex(check, Start(verdict), Data(inbox[..used]));
    var e := inbox[used];
    if IsData(e) {
      var d := Data(inbox[..used]);
      assert (d + [e])[..|d|] == d;
    } else {
      assert Data(inbox[..used + 1]) == Data(inbox[..used]);
    }
  }

  /** Counters and flags as the program keeps them: updated in place. */
  class Context {
    const check: Check
    var cb: array<int>             // the fifth slot is the one past the end that two checks use
    var sid: nat                   // stream number of the latest message
    var clock: int
    var reports: seq<int>

    ghost predicate Valid()
      reads this
    {
      cb.Length == 5
    }

    ghost function State(): Cb
      reads this, cb
      requires Valid()
    {
      Cb(cb[0], cb[1], cb[2], cb[3], cb[4], reports)
    }

    constructor (check: Check)
      ensures Valid() && fresh(cb) && this.check == check && State() == Start(0)
    {
      this.check := check;
      cb := new int[5](_ => 0);
      sid, clock, reports := 0, 0, [];
    }

    method AssertOrder()
      requires Valid() && check.Order? && 0 <= cb[0] < |check.sids| && cb[2] >= 0
      modifies cb
      ensures State() == Step(check, old(State()), Recv(sid, old(cb[2]), clock))
    {
      if sid != check.sids[cb[0]] {
        cb[1] := 1;
      }
      cb[0] := cb[0] + 1;
    }

    method AssertCount()
      requires Valid() && check.Count? && cb[2] >= 0
      modifies this`reports, cb
      ensures cb == old(cb)
      ensures State() == Step(check, old(State()), Recv(sid, old(cb[2]), clock))
    {
      cb[0] := cb[0] + 1;
      if cb[0] == 1 {
        cb[3] := clock;
      } else if cb[0] == check.target {
        reports := reports + [cb[0]];
      }
    }

    method AssertBytes()
      requires Valid() && check.Bytes? && cb[2] >= 0
      modifies this`reports, cb
      ensures cb == old(cb)
      ensures State() == Step(check, old(State()), Recv(sid, old(cb[2]), clock))
    {
      cb[0] := cb[0] + cb[2];
      if cb[3] == 0 {
        cb[3] := clock;
      } else if cb[0] == check.target {
        reports := reports + [cb[0]];
      }
    }

    method CheckFirstThenBoth()
      requires Valid() && check.FirstThenBoth? && cb[2] >= 0
      modifies cb
      ensures State() == Step(check, old(State()), Recv(sid, old(cb[2]), clock))
    {
      cb[3] := cb[3] + 1;
      cb[4] := cb[4] + cb[2];
      if cb[3] == 1 {
        if cb[4] != check.unit {
          cb[1] := 1;
        } else {
          cb[1] := 0;
        }
      } else {
        if cb[4] != 2 * check.unit {
          cb[1] := 1;
        } else {
          cb[1] := 0;
        }
      }
    }

    method CheckFourTotals()
      requires Valid() && check.FourTotals? && cb[2] >= 0
      modifies cb
      ensures State() == Step(check, old(State()), Recv(sid, old(cb[2]), clock))
    {
      cb[3] := cb[3] + 1;
      cb[4] := cb[4] + cb[2];
      match cb[3] {
        case 1 => cb[1] := Flag(cb[4] != 1);
        case 2 => cb[1] := Flag(cb[4] != 2);
        case 3 => cb[1] := Flag(cb[4] != 1002);
        case 4 => cb[1] := Flag(cb[4] != 2002);
        case _ =>
      }
    }

    /** The call through the case's function pointer, `cb[2]` holding the length. */
    method RunCheck()
      requires Valid() && cb[2] >= 0 && InTable(check, State(), 1)
      modifies this`reports, cb
      ensures cb == old(cb)
      ensures State() == Step(check, old(State()), Recv(sid, old(cb[2]), clock))
    {
      match check {
        case Order(_) => AssertOrder();
        case Count(_) => AssertCount();
        case Bytes(_) => AssertBytes();
        case Tally => cb[0] := cb[0] + cb[2];
        case LastLength(length) =>
          if cb[2] != length {
            cb[1] := 1;
          } else {
            cb[1] := 0;
          }
        case FirstThenBoth(_) => CheckFirstThenBoth();
        case FourTotals => CheckFourTotals();
        case Total(target) =>
          cb[3] := cb[3] + cb[2];
          if cb[3] == target {
            cb[1] := 0;
          }
      }
    }

    /**
     * The server loop.  `inbox` is what the receive calls return, one after another; when it is
     * used up and the loop has not ended, the process is waiting in the next call.
     */
    method DoServer(verdict: int, inbox: seq<Event>) returns (outcome: Outcome, acks: nat, used: nat)
      requires Valid() && State() == Start(0)
      requires InTable(check, Start(verdict), |Data(inbox)|)
      modifies this, cb
      ensures Valid() && cb == old(cb)
      ensures Served(check, verdict, inbox, used, acks, outcome, State())
      ensures outcome == Waiting ==> used == |inbox|
    {
      cb[1] := verdict;
      acks, used, outcome := 0, 0, Waiting;
      assert Served(check, verdict, inbox, used, acks, outcome, State());
      hide Served, Step, Data, Commands, Fold;
      var cmd: int := 0;
      while cmd >= 0 && used < |inbox|
        invariant Valid() && cb == old(cb)
        invariant cmd >= 0 <==> outcome == Waiting
        invariant Served(check, verdict, inbox, used, acks, outcome, State())
        decreases |inbox| - used
      {
        var e := inbox[used];
        OneMore(check, verdict, inbox, used, acks, State());
        used := used + 1;
        if e.RecvError? {
          outcome := Died;
          return;
        }
        sid, clock := e.sid, e.now;
        cmd := e.len;
        match cmd {
          case 11 =>
            acks := acks + 1;
          case 12 =>
            cmd := -1;
            acks := acks + 1;
            outcome := Exited(cb[1]);
          case _ =>
            ghost var before := State();
            cb[2] := cmd;
            LengthIsSetFirst(check, before, e);
            RunCheck();
        }
      }
    }
  }

  /** One more receive, then waiting for the next. */
  lemma ReceivesOneMore(check: Check, verdict: int, heard: seq<Event>, acks: nat, cb: Cb, e: Event)
    requires e.Recv? && Served(check, verdict, heard, |heard|, acks, Waiting, cb)
    requires IsCommand(e.len) || InTable(check, cb, 1)
    ensures var more := heard + [e];
            if e.len == CLOSE_ASOC then Served(check, verdict, more, |more|, acks + 1, Exited(cb.cb1), cb)
            else if e.len == SET_STRRESET then Served(check, verdict, more, |more|, acks + 1, Waiting, cb)
            else InTable(check, cb, 1) && Served(check, verdict, more, |more|, acks, Waiting, Step(check, cb, e))
  {
    var more := heard + [e];
    var n := |heard|;
    assert heard[..n] == heard && more[..n] == heard && more[..n + 1] == more;
    DataOfPrefix(more, n);
    OrderIndex(check, Start(verdict), Data(heard));
    assert Served(check, verdict, more, n, acks, Waiting, cb) by {
      hide Fold, Data, Commands;
      assert forall i | 0 <= i < n :: more[i] == heard[i];
    }
    hide Served, Step, Data, Commands, Fold;
    OneMore(check, verdict, more, n, acks, cb);
  }
}
