/**
 * The overlord's state engine: it keeps the managers that were added but
 * not initialised yet and the managers in use, and dispatches Init, Ensure
 * and Stop requests to them in order, giving up at the first error.
 */
module Overlord {
  import opened Wrappers

  /** Stand-in for the shared `*state.State`; its contents are not modelled. */
  class SystemState {
    constructor () { }
  }

  /** The three requests a state manager answers. */
  datatype Phase = InitPhase | EnsurePhase | StopPhase

  /** One request the engine made: which phase, to which manager. */
  datatype Call = Call(phase: Phase, manager: Manager)

  /**
   * A state manager. Its behaviour is not the engine's business, so each
   * request answers with a fixed outcome chosen when the manager is built.
   */
  class Manager {
    const initOutcome: Option<Error>
    const ensureOutcome: Option<Error>
    const stopOutcome: Option<Error>

    constructor (initOutcome: Option<Error>, ensureOutcome: Option<Error>, stopOutcome: Option<Error>)
      ensures this.initOutcome == initOutcome
      ensures this.ensureOutcome == ensureOutcome
      ensures this.stopOutcome == stopOutcome
    {
      this.initOutcome := initOutcome;
      this.ensureOutcome := ensureOutcome;
      this.stopOutcome := stopOutcome;
    }

    /** Hands the manager the state it tracks. */
    method Init(s: SystemState?) returns (err: Option<Error>)
      ensures err == Outcome(this, InitPhase)
    {
      err := initOutcome;
    }

    method Ensure() returns (err: Option<Error>)
      ensures err == Outcome(this, EnsurePhase)
    {
      err := ensureOutcome;
    }

    method Stop() returns (err: Option<Error>)
      ensures err == Outcome(this, StopPhase)
    {
      err := stopOutcome;
    }
  }

  /** What manager `m` answers to a request of the given phase. */
  function Outcome(m: Manager, phase: Phase): Option<Error>
  {
    match phase
    case InitPhase => m.initOutcome
    case EnsurePhase => m.ensureOutcome
    case StopPhase => m.stopOutcome
  }

  /** Every manager of `ms` answers the phase without error. */
  predicate AllSucceed(ms: seq<Manager>, phase: Phase)
  {
    forall i :: 0 <= i < |ms| ==> Outcome(ms[i], phase) == None
  }

  /** Index of the first manager of `ms` that fails the phase, or `|ms|`. */
  function FirstFailure(ms: seq<Manager>, phase: Phase): (k: nat)
    ensures k <= |ms|
    ensures forall i :: 0 <= i < k ==> Outcome(ms[i], phase) == None
    ensures k < |ms| ==> Outcome(ms[k], phase) != None
  {
    if ms == [] || Outcome(ms[0], phase) != None then 0
    else 1 + FirstFailure(ms[1..], phase)
  }

  /**
   * The error a `for ... range` loop over `ms` returns when it stops at the
   * first failing manager, or `None` if none fails.
   */
  function FirstError(ms: seq<Manager>, phase: Phase): (err: Option<Error>)
    ensures err == None <==> AllSucceed(ms, phase)
    ensures err != None ==>
      FirstFailure(ms, phase) < |ms| && err == Outcome(ms[FirstFailure(ms, phase)], phase)
  {
    var k := FirstFailure(ms, phase);
    if k < |ms| then Outcome(ms[k], phase) else None
  }

  /** The two manager lists of an engine. */
  datatype Lists = Lists(initialize: seq<Manager>, managers: seq<Manager>)

  /** The lists after a request, and the error it returned. */
  datatype Step = Step(lists: Lists, err: Option<Error>)

  /** Every manager the engine knows of, pending or in use. */
  function Known(l: Lists): multiset<Manager>
  {
    multiset(l.initialize + l.managers)
  }

  /**
   * What `StateEngine.Ensure` does to the lists: initialise the pending
   * managers and move them behind the ones in use, then ask every manager
   * in use to ensure; an Init error leaves the lists as they were.
   */
  function EnsureStep(l: Lists): (r: Step)
    ensures Known(r.lists) == Known(l)
    ensures r.lists == l || r.lists == Lists([], l.managers + l.initialize)
    ensures r.lists == l <==> l.initialize == [] || !AllSucceed(l.initialize, InitPhase)
    ensures r.err == None <==>
      AllSucceed(l.initialize, InitPhase) && AllSucceed(l.managers + l.initialize, EnsurePhase)
    ensures !AllSucceed(l.initialize, InitPhase) ==> r.err == FirstError(l.initialize, InitPhase)
    ensures AllSucceed(l.initialize, InitPhase) ==>
      r.err == FirstError(l.managers + l.initialize, EnsurePhase)
  {
    if |l.initialize| > 0 && FirstError(l.initialize, InitPhase) != None then
      Step(l, FirstError(l.initialize, InitPhase))
    else
      var moved := if |l.initialize| > 0 then Lists([], l.managers + l.initialize) else l;
      assert l.initialize == [] ==> l.managers + l.initialize == l.managers;
      assert moved.managers == l.managers + l.initialize;
      Step(moved, FirstError(moved.managers, EnsurePhase))
  }

  /**
   * What `StateEngine.Stop` does to the lists: ask every manager in use to
   * stop and, if all of them did, move them behind the pending ones; a Stop
   * error leaves the lists as they were.
   */
  function StopStep(l: Lists): (r: Step)
    ensures Known(r.lists) == Known(l)
    ensures r.err == None <==> AllSucceed(l.managers, StopPhase)
    ensures r.err == None ==> r.lists == Lists(l.initialize + l.managers, [])
    ensures r.err != None ==> r.lists == l && r.err == FirstError(l.managers, StopPhase)
  {
    if |l.managers| > 0 then
      var err := FirstError(l.managers, StopPhase);
      if err != None then Step(l, err) else Step(Lists(l.initialize + l.managers, []), None)
    else
      assert l.initialize + l.managers == l.initialize;
      Step(l, None)
  }

  /** One call of the given phase to each manager of `ms`, in order. */
  ghost function Calls(ms: seq<Manager>, phase: Phase): (cs: seq<Call>)
    ensures |cs| == |ms|
    ensures forall i :: 0 <= i < |ms| ==> cs[i] == Call(phase, ms[i])
  {
    seq(|ms|, i requires 0 <= i < |ms| => Call(phase, ms[i]))
  }

  /** Extending the prefix of `ms` by one manager adds its call at the end. */
  lemma CallsGrow(ms: seq<Manager>, i: nat, phase: Phase)
    requires i < |ms|
    ensures Calls(ms[..i + 1], phase) == Calls(ms[..i], phase) + [Call(phase, ms[i])]
  {
    var a := Calls(ms[..i + 1], phase);
    var b := Calls(ms[..i], phase) + [Call(phase, ms[i])];
    assert |a| == |b|;
    forall j | 0 <= j < |a|
      ensures a[j] == b[j]
    {
      if j < i {
        assert ms[..i + 1][j] == ms[..i][j];
      }
    }
  }

  /** The calls a loop over `ms` makes: up to and including the first failing manager. */
  ghost function Attempted(ms: seq<Manager>, phase: Phase): seq<Call>
  {
    var k := FirstFailure(ms, phase);
    Calls(ms[..if k < |ms| then k + 1 else k], phase)
  }

  /**
   * A dispatch loop reaches every manager when none fails; otherwise it calls
   * exactly the managers up to the first failing one, which comes last.
   */
  lemma AttemptedStopsAtFirstFailure(ms: seq<Manager>, phase: Phase)
    ensures Attempted(ms, phase) <= Calls(ms, phase)
    ensures AllSucceed(ms, phase) ==> Attempted(ms, phase) == Calls(ms, phase)
    ensures !AllSucceed(ms, phase) ==>
      |Attempted(ms, phase)| == FirstFailure(ms, phase) + 1 &&
      Attempted(ms, phase)[FirstFailure(ms, phase)] == Call(phase, ms[FirstFailure(ms, phase)])
  {
    var k := FirstFailure(ms, phase);
    var n := if k < |ms| then k + 1 else k;
    var a := Attempted(ms, phase);
    var c := Calls(ms, phase);
    forall j | 0 <= j < n
      ensures a[j] == c[j]
    {
      assert ms[..n][j] == ms[j];
    }
    if AllSucceed(ms, phase) {
      assert ms[..n] == ms;
    }
  }

  /** The calls `StateEngine.Ensure` makes, in order. */
  ghost function EnsureTrace(l: Lists): seq<Call>
  {
    if |l.initialize| > 0 && !AllSucceed(l.initialize, InitPhase) then
      Attempted(l.initialize, InitPhase)
    else
      Attempted(l.initialize, InitPhase) + Attempted(l.managers + l.initialize, EnsurePhase)
  }

  /** The calls `StateEngine.Stop` makes, in order. */
  ghost function StopTrace(l: Lists): seq<Call>
  {
    Attempted(l.managers, StopPhase)
  }

  /** The engine itself: the state it hands out and its two manager lists. */
  class StateEngine {
    var state: SystemState?
    /** Managers added and not yet initialised. */
    var initialize: seq<Manager>
    /** Managers in use. */
    var managers: seq<Manager>
    /** Every request made to a manager so far, in order. */
    ghost var calls: seq<Call>

    function Contents(): Lists
      reads this
    {
      Lists(initialize, managers)
    }

    /** A new engine over `s`, with no managers. */
    constructor (s: SystemState?)
      ensures state == s
      ensures initialize == [] && managers == []
      ensures calls == []
    {
      state := s;
      initialize := [];
      managers := [];
      calls := [];
    }

    /** The current system state: the one the engine was built with. */
    function State(): (s: SystemState?)
      reads this
      ensures s == state
    {
      state
    }

    /** Registers `m`; it is initialised on the next Ensure. */
    method AddManager(m: Manager)
      modifies this
      ensures initialize == old(initialize) + [m]
      ensures managers == old(managers)
      ensures Known(Contents()) == Known(old(Contents())) + multiset{m}
      ensures state == old(state) && calls == old(calls)
    {
      initialize := initialize + [m];
    }

    /**
     * Sends `m` the request of the given phase; Init receives the engine's
     * state. `c` is the request made.
     */
    method Send(m: Manager, phase: Phase) returns (err: Option<Error>, ghost c: Call)
      ensures err == Outcome(m, phase)
      ensures c == Call(phase, m)
    {
      match phase {
        case InitPhase => err := m.Init(state);
        case EnsurePhase => err := m.Ensure();
        case StopPhase => err := m.Stop();
      }
      c := Call(phase, m);
    }

    /**
     * Sends the phase's request to each manager of `ms` in order and returns
     * the first error, without asking the managers after it; `sent` lists
     * the requests made.
     */
    method Dispatch(ms: seq<Manager>, phase: Phase) returns (err: Option<Error>, ghost sent: seq<Call>)
      ensures err == FirstError(ms, phase)
      ensures sent == Attempted(ms, phase)
    {
      var i := 0;
      sent := [];
      while i < |ms|
        invariant i <= |ms|
        invariant forall j :: 0 <= j < i ==> Outcome(ms[j], phase) == None
        invariant sent == Calls(ms[..i], phase)
      {
        var m := ms[i];
        ghost var c: Call;
        var e;
        e, c := Send(m, phase);
        sent := sent + [c];
        CallsGrow(ms, i, phase);
        if e != None {
          assert FirstFailure(ms, phase) == i;
          return e, sent;
        }
        i := i + 1;
      }
      assert FirstFailure(ms, phase) == |ms|;
      return None, sent;
    }

    /** Initialises pending managers, then asks every manager in use to ensure. */
    method Ensure() returns (err: Option<Error>)
      modifies this
      ensures Step(Contents(), err) == old(EnsureStep(Contents()))
      ensures calls == old(calls + EnsureTrace(Contents()))
      ensures state == old(state)
    {
      var pending, inUse := initialize, managers;
      ghost var l0 := Lists(pending, inUse);
      ghost var sent: seq<Call> := [];
      if |pending| > 0 {
        err, sent := Dispatch(pending, InitPhase);
        if err != None {
          assert EnsureStep(l0) == Step(l0, err);
          calls := calls + sent;
          return err;
        }
        inUse, pending := inUse + pending, [];
      } else {
        assert Attempted([], InitPhase) == [];
        assert inUse + [] == inUse;
      }
      ghost var more: seq<Call>;
      err, more := Dispatch(inUse, EnsurePhase);
      assert EnsureStep(l0) == Step(Lists(pending, inUse), err);
      assert EnsureTrace(l0) == sent + more;
      initialize, managers, calls := pending, inUse, calls + (sent + more);
    }

    /** Asks every manager in use to stop; if all do, they become pending again. */
    method Stop() returns (err: Option<Error>)
      modifies this
      ensures Step(Contents(), err) == old(StopStep(Contents()))
      ensures calls == old(calls + StopTrace(Contents()))
      ensures state == old(state)
    {
      if |managers| > 0 {
        ghost var sent: seq<Call>;
        err, sent := Dispatch(managers, StopPhase);
        if err != None {
          calls := calls + sent;
          return err;
        }
        initialize, managers, calls := initialize + managers, [], calls + sent;
      } else {
        assert Attempted([], StopPhase) == [];
      }
      return None;
    }
  }

  /** A second Ensure after a successful one initialises nobody and keeps the lists. */
  lemma EnsureAgainKeepsLists(l: Lists)
    requires EnsureStep(l).err == None
    ensures EnsureStep(EnsureStep(l).lists) == Step(EnsureStep(l).lists, None)
    ensures EnsureTrace(EnsureStep(l).lists) == Calls(EnsureStep(l).lists.managers, EnsurePhase)
  {
    var l1 := EnsureStep(l).lists;
    assert l1.managers + l1.initialize == l1.managers;
    assert l1.managers == l.managers + l.initialize;
  }

  /**
   * After a successful Stop, the next Ensure initialises every stopped
   * manager again and, if all Init requests succeed, puts them back in use
   * behind the managers that were pending before the Stop.
   */
  lemma StopThenEnsureReorders(l: Lists)
    requires StopStep(l).err == None
    requires AllSucceed(l.initialize + l.managers, InitPhase)
    ensures EnsureStep(StopStep(l).lists).lists == Lists([], l.initialize + l.managers)
    ensures Calls(l.initialize + l.managers, InitPhase) <= EnsureTrace(StopStep(l).lists)
  {
    var l1 := StopStep(l).lists;
    assert l1 == Lists(l.initialize + l.managers, []);
    assert l1.managers + l1.initialize == l1.initialize;
    AttemptedStopsAtFirstFailure(l1.initialize, InitPhase);
  }

  /** Stop followed by Ensure restores an engine that had no pending managers. */
  lemma StopThenEnsureRestores(l: Lists)
    requires l.initialize == []
    requires StopStep(l).err == None
    requires AllSucceed(l.managers, InitPhase)
    ensures EnsureStep(StopStep(l).lists).lists == l
    ensures Calls(l.managers, InitPhase) <= EnsureTrace(StopStep(l).lists)
  {
    assert l.initialize + l.managers == l.managers;
    StopThenEnsureReorders(l);
  }

  /**
   * Stop does not stop every manager before returning an error: when the
   * first manager in use fails, it is the only one asked to stop.
   */
  lemma StopReturnsBeforeStoppingAll(l: Lists)
    requires |l.managers| >= 2
    requires Outcome(l.managers[0], StopPhase) != None
    ensures StopTrace(l) == [Call(StopPhase, l.managers[0])]
    ensures |StopTrace(l)| < |l.managers|
    ensures StopStep(l).err == Outcome(l.managers[0], StopPhase)
  {
    assert FirstFailure(l.managers, StopPhase) == 0;
  }

  /** A manager added to a running engine ends up last in use after a successful Ensure. */
  lemma AddThenEnsureAppends(l: Lists, m: Manager)
    requires l.initialize == []
    requires EnsureStep(Lists([m], l.managers)).err == None
    ensures EnsureStep(Lists(l.initialize + [m], l.managers)).lists == Lists([], l.managers + [m])
  {
    assert l.initialize + [m] == [m];
  }

  /** An Init error is retried from the start: the next Ensure makes the same calls. */
  lemma InitFailureIsRetried(l: Lists)
    requires |l.initialize| > 0 && !AllSucceed(l.initialize, InitPhase)
    ensures EnsureStep(l).lists == l
    ensures EnsureTrace(EnsureStep(l).lists) == EnsureTrace(l)
    ensures |EnsureTrace(l)| == FirstFailure(l.initialize, InitPhase) + 1
  {
  }
}
