/**
 * The case runner.  A schedule sources one case file after another into the same shell; each may
 * set variables and define functions, which the runner calls and, after the case, unsets, except
 * for the two functions of the topology.
 */
module Runner {

  datatype Option<T> = None | Some(value: T)

  /** What sourcing a case file does; `topo` and `options` are `None` when it does not set them. */
  datatype Case = Case(found: bool, name: string, topo: Option<string>, options: Option<string>,
                       setup: bool, test: bool, clean: bool)

  /** A call of one of the functions; hooks are named by the case that defined them. */
  datatype Call =
    | TopoSetup(topo: string, options: string)
    | TopoClean(topo: string, options: string)
    | Setup(id: int)
    | Test(id: int)
    | NoTest                       // the shell finds no such command
    | Clean(id: int)

  /**
   * The shell: unset and empty variables are alike.  `loaded` names the topology whose two
   * functions are defined, `depth` counts the directories pushed.
   */
  datatype Shell = Shell(name: string, topo: string, options: string,
                         setup: Option<int>, test: Option<int>, clean: Option<int>,
                         loaded: Option<string>, depth: nat, calls: seq<Call>)

  function Get<T>(o: Option<T>, otherwise: T): T {
    if o.Some? then o.value else otherwise
  }

  function Defined(now: bool, id: int, before: Option<int>): Option<int> {
    if now then Some(id) else before
  }

  /** Sourcing the file of case `id`. */
  function Sourced(s: Shell, c: Case, id: int): Shell {
    s.(name := c.name, topo := Get(c.topo, s.topo), options := Get(c.options, s.options),
       setup := Defined(c.setup, id, s.setup), test := Defined(c.test, id, s.test),
       clean := Defined(c.clean, id, s.clean))
  }

  /** Loading the topology the shell names: whether that works, and the shell afterwards. */
  function Loaded(s: Shell, topos: set<string>): (bool, Shell) {
    if s.topo == "" then (true, s)
    else if s.topo in topos then (true, s.(loaded := Some(s.topo)))
    else (false, s)
  }

  function Validated(s: Shell, c: Case, id: int, topos: set<string>): (bool, Shell) {
    if c.found then Loaded(Sourced(s, c, id), topos) else (false, s)
  }

  function SetupCalls(s: Shell): seq<Call> {
    (if s.loaded.Some? then [TopoSetup(s.loaded.value, s.options)] else [])
    + (if s.setup.Some? then [Setup(s.setup.value)] else [])
  }

  function TestCalls(s: Shell): seq<Call> {
    if s.test.Some? then [Test(s.test.value)] else [NoTest]
  }

  function CleanCalls(s: Shell): seq<Call> {
    (if s.clean.Some? then [Clean(s.clean.value)] else [])
    + (if s.loaded.Some? then [TopoClean(s.loaded.value, s.options)] else [])
  }

  function Cleared(s: Shell): Shell {
    s.(topo := "", options := "", setup := None, test := None, clean := None)
  }

  /** Setting up, testing and cleaning up the case the shell holds. */
  function Ran(s: Shell): Shell {
    Cleared(s.(calls := s.calls + SetupCalls(s) + TestCalls(s) + CleanCalls(s)))
  }

  /** The first `n` cases of a schedule: whether all went through, and the shell afterwards. */
  function Scheduled(s: Shell, cases: seq<Case>, topos: set<string>, n: nat): (bool, Shell)
    requires n <= |cases|
  {
    if n == 0 then (true, s)
    else
      var (ok, t) := Scheduled(s, cases, topos, n - 1);
      if !ok then (false, t)
      else
        var (valid, u) := Validated(t.(depth := t.depth + 1), cases[n - 1], n - 1, topos);
        if valid then (true, Ran(u).(depth := t.depth)) else (false, u)
  }

  // ---------------------------------------------------------------- the program

  /** Nothing happens after the first case that does not validate. */
  lemma {:induction false} AbortStays(s: Shell, cases: seq<Case>, topos: set<string>, m: nat, n: nat)
    requires m <= n <= |cases| && !Scheduled(s, cases, topos, m).0
    ensures Scheduled(s, cases, topos, n) == Scheduled(s, cases, topos, m)
  {
    if m < n {
      AbortStays(s, cases, topos, m, n - 1);
    }
  }

  class Runner {
    const topos: set<string>       // the topology files there are
    var name: string
    var topo: string
    var options: string
    var setup: Option<int>
    var test: Option<int>
    var clean: Option<int>
    var loaded: Option<string>
    var depth: nat
    var calls: seq<Call>

    ghost function State(): Shell
      reads this
    {
      Shell(name, topo, options, setup, test, clean, loaded, depth, calls)
    }

    constructor (topos: set<string>, s: Shell)
      ensures this.topos == topos && State() == s
    {
      this.topos := topos;
      name, topo, options := s.name, s.topo, s.options;
      setup, test, clean := s.setup, s.test, s.clean;
      loaded, depth, calls := s.loaded, s.depth, s.calls;
    }

    method TopoValidate() returns (ok: bool)
      modifies this`loaded
      ensures (ok, State()) == Loaded(old(State()), topos)
    {
      if topo == "" {
        return true;
      }
      if topo !in topos {
        return false;
      }
      loaded := Some(topo);
      return true;
    }

    method CaseValidate(c: Case, id: int) returns (ok: bool)
      modifies this`name, this`topo, this`options, this`setup, this`test, this`clean, this`loaded
      ensures (ok, State()) == Validated(old(State()), c, id, topos)
    {
      if !c.found {
        return false;
      }
      name := c.name;
      if c.topo.Some? {
        topo := c.topo.value;
      }
      if c.options.Some? {
        options := c.options.value;
      }
      if c.setup {
        setup := Some(id);
      }
      if c.test {
        test := Some(id);
      }
      if c.clean {
        clean := Some(id);
      }
      ok := TopoValidate();
    }

    method DoSetup()
      modifies this`calls
      ensures State() == old(State()).(calls := old(calls) + SetupCalls(old(State())))
    {
      if loaded.Some? {
        calls := calls + [TopoSetup(loaded.value, options)];
      }
      if setup.Some? {
        calls := calls + [Setup(setup.value)];
      }
    }

    /** The check that the case defines the function tests a word that is never empty. */
    method DoTest()
      modifies this`calls
      ensures State() == old(State()).(calls := old(calls) + TestCalls(old(State())))
    {
      if test.Some? {
        calls := calls + [Test(test.value)];
      } else {
        calls := calls + [NoTest];
      }
    }

    method DoClean()
      modifies this`topo, this`options, this`setup, this`test, this`clean, this`calls
      ensures State() == Cleared(old(State()).(calls := old(calls) + CleanCalls(old(State()))))
    {
      if clean.Some? {
        calls := calls + [Clean(clean.value)];
      }
      if loaded.Some? {
        calls := calls + [TopoClean(loaded.value, options)];
      }
      topo, options := "", "";
      test, setup, clean := None, None, None;
    }

    method CaseRun()
      modifies this`topo, this`options, this`setup, this`test, this`clean, this`calls
      ensures State() == Ran(old(State()))
    {
      DoSetup();
      DoTest();
      DoClean();
    }

    method CaseSchedule(cases: seq<Case>) returns (ok: bool)
      modifies this
      ensures (ok, State()) == Scheduled(old(State()), cases, topos, |cases|)
    {
      hide Validated, Ran;
      ghost var s := State();
      for i := 0 to |cases|
        invariant (true, State()) == Scheduled(s, cases, topos, i)
      {
        ghost var t := State();
        depth := depth + 1;
        assert State() == t.(depth := t.depth + 1);
        var valid := CaseValidate(cases[i], i);
        ghost var u := State();
        assert (valid, u) == Validated(t.(depth := t.depth + 1), cases[i], i, topos);
        if !valid {
          AbortStays(s, cases, topos, i + 1, |cases|);
          return false;
        }
        CaseRun();
        depth := depth - 1;
        assert State() == Ran(u).(depth := t.depth);
      }
      return true;
    }
  }
}
