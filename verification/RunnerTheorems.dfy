/** What any schedule of the case runner does, in closed form, from any shell to start with. */
module RunnerTheorems {
  import opened Runner

  /** The topology case `i` asks for; what the shell held before reaches the first case only. */
  function Declared(s: Shell, cases: seq<Case>, i: nat): string
    requires i < |cases|
  {
    Get(cases[i].topo, if i == 0 then s.topo else "")
  }

  predicate Valid(s: Shell, cases: seq<Case>, topos: set<string>, i: nat)
    requires i < |cases|
  {
    cases[i].found && (Declared(s, cases, i) == "" || Declared(s, cases, i) in topos)
  }

  ghost predicate AllValid(s: Shell, cases: seq<Case>, topos: set<string>, n: nat)
    requires n <= |cases|
  {
    forall i | 0 <= i < n :: Valid(s, cases, topos, i)
  }

  /** The topology loaded once `n` cases have been sourced. */
  function InForce(s: Shell, cases: seq<Case>, n: nat): Option<string>
    requires n <= |cases|
  {
    if n == 0 then s.loaded
    else if Declared(s, cases, n - 1) != "" then Some(Declared(s, cases, n - 1))
    else InForce(s, cases, n - 1)
  }

  /** It is the topology of the latest case that declared one, however long ago that was. */
  lemma {:induction false} InForceIsLatest(s: Shell, cases: seq<Case>, j: nat, n: nat)
    requires j < n <= |cases|
    requires forall k | j < k < n :: Declared(s, cases, k) == ""
    ensures Declared(s, cases, j) != "" ==> InForce(s, cases, n) == Some(Declared(s, cases, j))
  {
    if j < n - 1 {
      InForceIsLatest(s, cases, j, n - 1);
    }
  }

  lemma {:induction false} InForceFromBefore(s: Shell, cases: seq<Case>, n: nat)
    requires n <= |cases|
    requires forall k | 0 <= k < n :: Declared(s, cases, k) == ""
    ensures InForce(s, cases, n) == s.loaded
  {
    if n > 0 {
      InForceFromBefore(s, cases, n - 1);
    }
  }

  function OptionsOf(s: Shell, cases: seq<Case>, i: nat): string
    requires i < |cases|
  {
    Get(cases[i].options, if i == 0 then s.options else "")
  }

  /** The function of case `i`; one from before the schedule can only reach the first case. */
  function Own(defined: bool, i: nat, before: Option<int>): Option<int> {
    if defined then Some(i) else if i == 0 then before else None
  }

  function Middle(setup: Option<int>, test: Option<int>, clean: Option<int>): seq<Call> {
    (if setup.Some? then [Setup(setup.value)] else [])
    + [if test.Some? then Test(test.value) else NoTest]
    + (if clean.Some? then [Clean(clean.value)] else [])
  }

  function Around(up: Option<string>, options: string, middle: seq<Call>): seq<Call> {
    if up.Some? then [TopoSetup(up.value, options)] + middle + [TopoClean(up.value, options)] else middle
  }

  /** What case `i` runs: its own functions, inside the topology in force with the case's own options. */
  function CaseCalls(s: Shell, cases: seq<Case>, i: nat): seq<Call>
    requires i < |cases|
  {
    Around(InForce(s, cases, i + 1), OptionsOf(s, cases, i),
           Middle(Own(cases[i].setup, i, s.setup), Own(cases[i].test, i, s.test), Own(cases[i].clean, i, s.clean)))
  }

  function AllCalls(s: Shell, cases: seq<Case>, n: nat): seq<Call>
    requires n <= |cases|
  {
    if n == 0 then [] else AllCalls(s, cases, n - 1) + CaseCalls(s, cases, n - 1)
  }

  /** Nothing of a case is left but the topology. */
  ghost predicate Bare(u: Shell) {
    u.topo == "" && u.options == "" && u.setup == None && u.test == None && u.clean == None
  }

  /** After `n` cases that went through. */
  ghost predicate After(s: Shell, cases: seq<Case>, n: nat, u: Shell)
    requires n <= |cases|
  {
    && u.calls == s.calls + AllCalls(s, cases, n)
    && u.loaded == InForce(s, cases, n)
    && u.depth == s.depth
    && (if n == 0 then u == s else Bare(u) && u.name == cases[n - 1].name)
  }

  /** The shell once case `n` has been sourced and its topology loaded. */
  ghost predicate Holds(s: Shell, cases: seq<Case>, n: nat, u: Shell)
    requires n < |cases|
  {
    && u.calls == s.calls + AllCalls(s, cases, n)
    && u.loaded == InForce(s, cases, n + 1)
    && u.name == cases[n].name
    && u.options == OptionsOf(s, cases, n)
    && u.setup == Own(cases[n].setup, n, s.setup)
    && u.test == Own(cases[n].test, n, s.test)
    && u.clean == Own(cases[n].clean, n, s.clean)
  }

  lemma LoadedIs(s: Shell, cases: seq<Case>, n: nat)
    requires n < |cases|
    ensures InForce(s, cases, n + 1)
         == if Declared(s, cases, n) != "" then Some(Declared(s, cases, n)) else InForce(s, cases, n)
  {
  }

  lemma OneSourced(s: Shell, cases: seq<Case>, topos: set<string>, n: nat, t: Shell)
    requires n < |cases| && After(s, cases, n, t)
    ensures var (valid, u) := Validated(t.(depth := t.depth + 1), cases[n], n, topos);
            && (valid <==> Valid(s, cases, topos, n))
            && (valid ==> Holds(s, cases, n, u))
            && u.calls == t.calls && u.depth == s.depth + 1
  {
    hide AllCalls, InForce;
    LoadedIs(s, cases, n);
  }

  lemma RanIs(u: Shell)
    ensures Ran(u) == Cleared(u.(calls := u.calls + SetupCalls(u) + TestCalls(u) + CleanCalls(u)))
    ensures Ran(u).calls == u.calls + (SetupCalls(u) + TestCalls(u) + CleanCalls(u))
    ensures Ran(u).loaded == u.loaded && Ran(u).name == u.name && Bare(Ran(u))
  {
    hide SetupCalls, TestCalls, CleanCalls;
  }

  lemma CallsOfRun(u: Shell)
    ensures SetupCalls(u) + TestCalls(u) + CleanCalls(u)
         == Around(u.loaded, u.options, Middle(u.setup, u.test, u.clean))
  {
  }

  lemma CallsGrow(s: Shell, cases: seq<Case>, n: nat)
    requires n < |cases|
    ensures AllCalls(s, cases, n + 1) == AllCalls(s, cases, n) + CaseCalls(s, cases, n)
  {
  }

  lemma OneRun(s: Shell, cases: seq<Case>, n: nat, u: Shell)
    requires n < |cases| && Holds(s, cases, n, u)
    ensures After(s, cases, n + 1, Ran(u).(depth := s.depth))
  {
    hide Ran, AllCalls, InForce, SetupCalls, TestCalls, CleanCalls, Around, Middle;
    CallsOfRun(u);
    CallsGrow(s, cases, n);
    RanIs(u);
  }

  lemma OneCase(s: Shell, cases: seq<Case>, topos: set<string>, n: nat, t: Shell)
    requires n < |cases| && After(s, cases, n, t)
    ensures var (valid, u) := Validated(t.(depth := t.depth + 1), cases[n], n, topos);
            && (valid <==> Valid(s, cases, topos, n))
            && (valid ==> After(s, cases, n + 1, Ran(u).(depth := t.depth)))
            && u.calls == s.calls + AllCalls(s, cases, n) && u.depth == s.depth + 1
  {
    OneSourced(s, cases, topos, n, t);
    hide AllCalls, Holds, Validated, InForce, Ran;
    if Valid(s, cases, topos, n) {
      OneRun(s, cases, n, Validated(t.(depth := t.depth + 1), cases[n], n, topos).1);
    }
  }

  lemma Untouched(s: Shell, cases: seq<Case>)
    ensures After(s, cases, 0, s)
  {
  }

  /** A schedule of valid cases runs them all, one after the other, and leaves nothing behind. */
  lemma {:induction false} ValidCasesRun(s: Shell, cases: seq<Case>, topos: set<string>, n: nat)
    requires n <= |cases| && AllValid(s, cases, topos, n)
    ensures var (ok, u) := Scheduled(s, cases, topos, n); ok && After(s, cases, n, u)
  {
    hide After, Validated, Ran;
    if n == 0 {
      Untouched(s, cases);
    } else {
      ValidCasesRun(s, cases, topos, n - 1);
      var t := Scheduled(s, cases, topos, n - 1).1;
      OneCase(s, cases, topos, n - 1, t);
      assert Valid(s, cases, topos, n - 1);
    }
  }

  /** A case file that does not exist leaves the shell as it is. */
  lemma MissingIsSkipped(t: Shell, c: Case, id: int, topos: set<string>)
    requires !c.found
    ensures Validated(t.(depth := t.depth + 1), c, id, topos) == (false, t.(depth := t.depth + 1))
  {
  }

  lemma Surfaced(s: Shell, cases: seq<Case>, n: nat, t: Shell)
    requires n <= |cases| && After(s, cases, n, t)
    ensures After(s, cases, n, t.(depth := t.depth + 1).(depth := s.depth))
  {
    hide AllCalls, InForce;
  }

  /**
   * The schedule stops at the first case that is not valid, in a directory it does not leave; a
   * missing file changes nothing else.
   */
  lemma StopsAtTheFirst(s: Shell, cases: seq<Case>, topos: set<string>, k: nat)
    requires k < |cases| && AllValid(s, cases, topos, k) && !Valid(s, cases, topos, k)
    ensures var (ok, u) := Scheduled(s, cases, topos, |cases|);
            && !ok
            && u.calls == s.calls + AllCalls(s, cases, k)
            && u.depth == s.depth + 1
            && (!cases[k].found ==> After(s, cases, k, u.(depth := s.depth)))
            && exists t :: After(s, cases, k, t) && u == Validated(t.(depth := t.depth + 1), cases[k], k, topos).1
  {
    hide Validated, Ran, AllCalls, After, AllValid, Valid;
    ValidCasesRun(s, cases, topos, k);
    var t := Scheduled(s, cases, topos, k).1;
    OneCase(s, cases, topos, k, t);
    assert !Scheduled(s, cases, topos, k + 1).0;
    AbortStays(s, cases, topos, k + 1, |cases|);
    hide Scheduled;
    if !cases[k].found {
      MissingIsSkipped(t, cases[k], k, topos);
      Surfaced(s, cases, k, t);
    }
  }

  lemma {:induction false} FirstInvalid(s: Shell, cases: seq<Case>, topos: set<string>, n: nat) returns (k: nat)
    requires n <= |cases| && !AllValid(s, cases, topos, n)
    ensures k < n && AllValid(s, cases, topos, k) && !Valid(s, cases, topos, k)
  {
    if AllValid(s, cases, topos, n - 1) {
      k := n - 1;
    } else {
      k := FirstInvalid(s, cases, topos, n - 1);
    }
  }

  /** A schedule goes through if and only if every case is valid. */
  lemma SucceedsIffAllValid(s: Shell, cases: seq<Case>, topos: set<string>)
    ensures Scheduled(s, cases, topos, |cases|).0 <==> AllValid(s, cases, topos, |cases|)
  {
    if AllValid(s, cases, topos, |cases|) {
      ValidCasesRun(s, cases, topos, |cases|);
    } else {
      var k := FirstInvalid(s, cases, topos, |cases|);
      StopsAtTheFirst(s, cases, topos, k);
    }
  }

  lemma {:induction false} CompletedAreValid(s: Shell, cases: seq<Case>, topos: set<string>, n: nat)
    requires n <= |cases| && Scheduled(s, cases, topos, n).0
    ensures AllValid(s, cases, topos, n)
  {
    hide After, Ran, Validated, Valid;
    if n > 0 {
      CompletedAreValid(s, cases, topos, n - 1);
      ValidCasesRun(s, cases, topos, n - 1);
      OneCase(s, cases, topos, n - 1, Scheduled(s, cases, topos, n - 1).1);
    }
  }

  /** No case function outlives a completed case, and no option does. */
  lemma NothingSurvives(s: Shell, cases: seq<Case>, topos: set<string>, n: nat)
    requires 0 < n <= |cases| && Scheduled(s, cases, topos, n).0
    ensures Bare(Scheduled(s, cases, topos, n).1)
    ensures Scheduled(s, cases, topos, n).1.loaded == InForce(s, cases, n)
  {
    CompletedAreValid(s, cases, topos, n);
    ValidCasesRun(s, cases, topos, n);
    hide InForce, AllCalls;
  }

  /**
   * Not so when the schedule aborts for a topology that does not exist: the rejected case's
   * functions, its options and the name of the topology stay defined, and the topology that was
   * loaded before stays loaded.
   */
  lemma RejectedCaseStays(s: Shell, cases: seq<Case>, topos: set<string>, k: nat)
    requires k < |cases| && AllValid(s, cases, topos, k) && !Valid(s, cases, topos, k) && cases[k].found
    ensures var u := Scheduled(s, cases, topos, |cases|).1;
            && u.name == cases[k].name && u.topo == Declared(s, cases, k) && u.options == OptionsOf(s, cases, k)
            && u.loaded == InForce(s, cases, k)
            && u.setup == Own(cases[k].setup, k, s.setup)
            && u.test == Own(cases[k].test, k, s.test)
            && u.clean == Own(cases[k].clean, k, s.clean)
  {
    hide AllCalls, InForce, Ran, Scheduled, AllValid;
    StopsAtTheFirst(s, cases, topos, k);
    var u := Scheduled(s, cases, topos, |cases|).1;
    var t :| After(s, cases, k, t) && u == Validated(t.(depth := t.depth + 1), cases[k], k, topos).1;
  }

  // ---------------------------------------------------------------- topologies go up and down by turns

  datatype Bracket = Down | Up(topo: string, options: string) | Broken

  function Turned(b: Bracket, c: Call): Bracket {
    match c
    case TopoSetup(t, o) => if b == Down then Up(t, o) else Broken
    case TopoClean(t, o) => if b == Up(t, o) then Down else Broken
    case _ => b
  }

  /** `Broken` as soon as a setup or clean-up is out of turn or not of the same topology. */
  function Turns(b: Bracket, calls: seq<Call>): Bracket {
    if calls == [] then b else Turned(Turns(b, calls[..|calls| - 1]), calls[|calls| - 1])
  }

  lemma {:induction false} TurnsSplit(b: Bracket, x: seq<Call>, y: seq<Call>)
    ensures Turns(b, x + y) == Turns(Turns(b, x), y)
  {
    if y == [] {
      assert x + y == x;
    } else {
      TurnsSplit(b, x, y[..|y| - 1]);
      assert (x + y)[..|x + y| - 1] == x + y[..|y| - 1];
    }
  }

  lemma TurnsOne(b: Bracket, c: Call)
    ensures Turns(b, [c]) == Turned(b, c)
  {
    assert [c][..0] == [];
  }

  lemma {:induction false} QuietTurns(b: Bracket, x: seq<Call>)
    requires forall c | c in x :: !c.TopoSetup? && !c.TopoClean?
    ensures Turns(b, x) == b
  {
    if x != [] {
      assert x[|x| - 1] in x;
      QuietTurns(b, x[..|x| - 1]);
    }
  }

  lemma AroundTurns(up: Option<string>, options: string, middle: seq<Call>)
    requires forall c | c in middle :: !c.TopoSetup? && !c.TopoClean?
    ensures Turns(Down, Around(up, options, middle)) == Down
  {
    hide Turns;
    if up.Some? {
      var a, e := [TopoSetup(up.value, options)], [TopoClean(up.value, options)];
      TurnsSplit(Down, a + middle, e);
      TurnsSplit(Down, a, middle);
      TurnsOne(Down, a[0]);
      TurnsOne(Up(up.value, options), e[0]);
      QuietTurns(Up(up.value, options), middle);
    } else {
      QuietTurns(Down, middle);
    }
  }

  lemma CaseTurns(s: Shell, cases: seq<Case>, i: nat)
    requires i < |cases|
    ensures Turns(Down, CaseCalls(s, cases, i)) == Down
  {
    hide InForce, Turns, Around;
    AroundTurns(InForce(s, cases, i + 1), OptionsOf(s, cases, i),
                Middle(Own(cases[i].setup, i, s.setup), Own(cases[i].test, i, s.test),
                       Own(cases[i].clean, i, s.clean)));
  }

  lemma NoTurns(b: Bracket)
    ensures Turns(b, []) == b
  {
  }

  lemma {:induction false} AllTurn(s: Shell, cases: seq<Case>, n: nat)
    requires n <= |cases|
    ensures Turns(Down, AllCalls(s, cases, n)) == Down
  {
    hide CaseCalls, Turns;
    if n == 0 {
      NoTurns(Down);
    } else {
      AllTurn(s, cases, n - 1);
      CaseTurns(s, cases, n - 1);
      TurnsSplit(Down, AllCalls(s, cases, n - 1), CaseCalls(s, cases, n - 1));
    }
  }

  /**
   * Whatever the list of cases, and also when the schedule aborts: topologies are set up and
   * cleaned up strictly by turns, each clean-up with the topology and the options of its setup, and
   * none is left up.
   */
  lemma TopologiesAlternate(s: Shell, cases: seq<Case>, topos: set<string>)
    requires s.calls == []
    ensures Turns(Down, Scheduled(s, cases, topos, |cases|).1.calls) == Down
  {
    hide Scheduled, AllCalls, AllValid, Turns;
    var calls := Scheduled(s, cases, topos, |cases|).1.calls;
    var n: nat;
    if AllValid(s, cases, topos, |cases|) {
      n := |cases|;
      ValidCasesRun(s, cases, topos, n);
    } else {
      n := FirstInvalid(s, cases, topos, |cases|);
      StopsAtTheFirst(s, cases, topos, n);
    }
    hide After;
    assert calls == [] + AllCalls(s, cases, n) == AllCalls(s, cases, n);
    AllTurn(s, cases, n);
  }
}
