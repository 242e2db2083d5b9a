/**
 * The stages of a benchmark session: optional removal of the packages, bin
 * and obj folders, `dotnet restore`, one `dotnet build` for every framework,
 * then one `dotnet run` per framework. Every external step is an event whose
 * outcome an oracle decides; an exception raised by a step ends the session,
 * so nothing after the first failing step happens.
 */
module Stages {
  import opened Wrappers
  import opened Text

  /** The exceptions a step can raise, as `__main` tells them apart. */
  datatype Failure =
    | CalledProcessError(command: string, returnCode: int)
    | IOError(errno: Option<int>, strerror: Option<string>, filename: Option<string>)
    | SystemExit(code: int)
    | OtherException(typeName: string, traceback: string)
    | OtherBaseException(typeName: string)

  datatype Outcome = Completed | Raised(failure: Failure)

  /** What a session does, in order: log lines, and calls into the outside world. */
  datatype Event =
    | Header(message: string)
    | LogError(message: string)
    | ValidateRuntime
    | ProcessArguments(args: seq<string>)
    | Info(verbose: bool)
    | Clean(path: string)
    | Restore(packages: string, verbose: bool)
    | Build(configuration: string, frameworks: seq<string>, verbose: bool)
    | Run(configuration: string, framework: string, verbose: bool, args: seq<string>)

  /** Logging never raises; every other event is an external step that may. */
  predicate IsCall(e: Event)
  {
    !e.Header? && !e.LogError?
  }

  /** The folders the session works in; resolving them is filesystem work left outside the model. */
  datatype Layout = Layout(packages: string, bin: string, obj: string)

  /** The events performed and the exception that stopped them, if any. */
  datatype Execution = Execution(performed: seq<Event>, failure: Option<Failure>)

  /** A step fails when it is a call that the oracle makes raise. */
  predicate Fails(e: Event, oracle: Event -> Outcome)
  {
    IsCall(e) && oracle(e).Raised?
  }

  /** One more event: skipped once an exception is in flight, otherwise recorded with what it raises. */
  function Step(x: Execution, e: Event, oracle: Event -> Outcome): Execution
  {
    if x.failure.Some? then x
    else Execution(x.performed + [e], if Fails(e, oracle) then Some(oracle(e).failure) else None)
  }

  /** Carries on from `x` with the events of `plan`, in order. */
  function Resume(x: Execution, plan: seq<Event>, oracle: Event -> Outcome): Execution
  {
    if plan == [] then x
    else Step(Resume(x, plan[..|plan| - 1], oracle), plan[|plan| - 1], oracle)
  }

  /** Performs the events of `plan` in order until one raises. */
  function Execute(plan: seq<Event>, oracle: Event -> Outcome): Execution
  {
    Resume(Execution([], None), plan, oracle)
  }

  /** What is performed is a prefix of the plan, and the whole plan when nothing raised. */
  lemma {:induction false} ExecutePrefix(plan: seq<Event>, oracle: Event -> Outcome)
    ensures var ex := Execute(plan, oracle);
      |ex.performed| <= |plan| && ex.performed == plan[..|ex.performed|] &&
      (ex.failure.None? ==> ex.performed == plan)
  {
    if plan != [] {
      var init, last := plan[..|plan| - 1], plan[|plan| - 1];
      ExecutePrefix(init, oracle);
      var p := Execute(init, oracle);
      var ex := Execute(plan, oracle);
      assert ex == Step(p, last, oracle);
      if p.failure.Some? {
        assert ex == p;
        assert init[..|p.performed|] == plan[..|p.performed|];
      } else {
        assert p.performed == init;
        assert ex.performed == plan by {
          assert init + [last] == plan;
        }
      }
    }
  }

  /** Nothing raised exactly when no step fails; otherwise the last performed step raised it and no earlier one failed. */
  lemma {:induction false} ExecuteFailure(plan: seq<Event>, oracle: Event -> Outcome)
    ensures var ex := Execute(plan, oracle);
      ex.failure.None? <==> forall i :: 0 <= i < |plan| ==> !Fails(plan[i], oracle)
    ensures var ex := Execute(plan, oracle);
      ex.failure.Some? ==>
        |ex.performed| > 0 &&
        Fails(ex.performed[|ex.performed| - 1], oracle) &&
        oracle(ex.performed[|ex.performed| - 1]) == Raised(ex.failure.value) &&
        forall i :: 0 <= i < |ex.performed| - 1 ==> !Fails(ex.performed[i], oracle)
  {
    if plan != [] {
      var init, last := plan[..|plan| - 1], plan[|plan| - 1];
      ExecuteFailure(init, oracle);
      ExecutePrefix(init, oracle);
      var p := Execute(init, oracle);
      assert Execute(plan, oracle) == Step(p, last, oracle);
      if p.failure.Some? {
        var j :| 0 <= j < |init| && Fails(init[j], oracle);
        assert plan[j] == init[j];
      } else {
        forall i | 0 <= i < |plan| - 1 ensures !Fails(plan[i], oracle) {
          assert plan[i] == init[i];
        }
      }
    }
  }

  /**
   * The first failure stops everything: what is performed is a prefix of the
   * plan; with no failure it is the whole plan and no step in it fails; with a
   * failure, the last performed step is the one that raised it and every step
   * before it went through.
   */
  lemma ExecuteStopsAtFirstFailure(plan: seq<Event>, oracle: Event -> Outcome)
    ensures var ex := Execute(plan, oracle);
      |ex.performed| <= |plan| && ex.performed == plan[..|ex.performed|]
    ensures var ex := Execute(plan, oracle);
      ex.failure.None? <==> forall i :: 0 <= i < |plan| ==> !Fails(plan[i], oracle)
    ensures var ex := Execute(plan, oracle);
      ex.failure.None? ==> ex.performed == plan
    ensures var ex := Execute(plan, oracle);
      ex.failure.Some? ==>
        |ex.performed| > 0 &&
        Fails(ex.performed[|ex.performed| - 1], oracle) &&
        oracle(ex.performed[|ex.performed| - 1]) == Raised(ex.failure.value) &&
        forall i :: 0 <= i < |ex.performed| - 1 ==> !Fails(ex.performed[i], oracle)
  {
    ExecutePrefix(plan, oracle);
    ExecuteFailure(plan, oracle);
  }

  /** Performing `a + b` is performing `a` and then carrying on with `b`. */
  lemma {:induction false} ResumeAppend(x: Execution, a: seq<Event>, b: seq<Event>, oracle: Event -> Outcome)
    ensures Resume(x, a + b, oracle) == Resume(Resume(x, a, oracle), b, oracle)
  {
    if b == [] {
      assert a + b == a;
    } else {
      var init := b[..|b| - 1];
      assert (a + b)[..|a + b| - 1] == a + init;
      assert (a + b)[|a + b| - 1] == b[|b| - 1];
      ResumeAppend(x, a, init, oracle);
    }
  }

  /** Once an exception is in flight, nothing more happens. */
  lemma {:induction false} ResumeStopped(x: Execution, plan: seq<Event>, oracle: Event -> Outcome)
    requires x.failure.Some?
    ensures Resume(x, plan, oracle) == x
  {
    if plan != [] {
      ResumeStopped(x, plan[..|plan| - 1], oracle);
    }
  }

  /** Carrying on from a clean state only appends to what was performed before. */
  lemma {:induction false} ResumeFrom(before: seq<Event>, plan: seq<Event>, oracle: Event -> Outcome)
    ensures Resume(Execution(before, None), plan, oracle) ==
      Execution(before + Execute(plan, oracle).performed, Execute(plan, oracle).failure)
  {
    if plan != [] {
      ResumeFrom(before, plan[..|plan| - 1], oracle);
    }
  }

  /** Two events: one step, then the other. */
  lemma ResumePair(x: Execution, a: Event, b: Event, oracle: Event -> Outcome)
    ensures Resume(x, [a, b], oracle) == Step(Step(x, a, oracle), b, oracle)
  {
    ResumeSnoc(x, [], a, oracle);
    ResumeSnoc(x, [a], b, oracle);
    assert [] + [a] == [a];
    assert [a] + [b] == [a, b];
  }

  /** One event before a plan: one step, then the plan from there. */
  lemma ResumeCons(x: Execution, e: Event, plan: seq<Event>, oracle: Event -> Outcome)
    ensures Resume(x, [e] + plan, oracle) == Resume(Step(x, e, oracle), plan, oracle)
  {
    ResumeAppend(x, [e], plan, oracle);
    ResumeSnoc(x, [], e, oracle);
    assert [] + [e] == [e];
  }

  /** One more event after a plan is one more step. */
  lemma ResumeSnoc(x: Execution, plan: seq<Event>, e: Event, oracle: Event -> Outcome)
    ensures Resume(x, plan + [e], oracle) == Step(Resume(x, plan, oracle), e, oracle)
  {
    assert (plan + [e])[..|plan|] == plan;
  }

  /** Performing `a + b` is performing `a`, and then `b` only if `a` raised nothing. */
  lemma {:induction false} ExecuteAppend(a: seq<Event>, b: seq<Event>, oracle: Event -> Outcome)
    ensures Execute(a + b, oracle) ==
      var x := Execute(a, oracle);
      if x.failure.Some? then x
      else Execution(x.performed + Execute(b, oracle).performed, Execute(b, oracle).failure)
  {
    ResumeAppend(Execution([], None), a, b, oracle);
    var x := Execute(a, oracle);
    if x.failure.Some? {
      ResumeStopped(x, b, oracle);
    } else {
      ResumeFrom(x.performed, b, oracle);
    }
  }

  /** The external steps of a plan, without its log lines. */
  function Calls(plan: seq<Event>): seq<Event>
  {
    if plan == [] then []
    else (if IsCall(plan[0]) then [plan[0]] else []) + Calls(plan[1..])
  }

  lemma {:induction false} CallsAppend(a: seq<Event>, b: seq<Event>)
    ensures Calls(a + b) == Calls(a) + Calls(b)
  {
    if a == [] {
      assert a + b == b;
    } else {
      assert (a + b)[0] == a[0];
      assert (a + b)[1..] == a[1..] + b;
      CallsAppend(a[1..], b);
    }
  }

  /** A plan made of external steps only is its own list of calls. */
  lemma {:induction false} CallsOfCalls(plan: seq<Event>)
    requires forall i :: 0 <= i < |plan| ==> IsCall(plan[i])
    ensures Calls(plan) == plan
  {
    if plan != [] {
      CallsOfCalls(plan[1..]);
    }
  }

  /** A header followed by one external step contributes that step alone. */
  lemma {:induction false} CallsAfterHeader(message: string, e: Event)
    requires IsCall(e)
    ensures Calls([Header(message), e]) == [e]
  {
    assert [Header(message), e][1..] == [e];
    assert [e][1..] == [];
    assert Calls([e]) == [e] + Calls([]);
  }

  /** `__log_script_header`: a dash ruler as long as the message, the message, the ruler again. */
  function ScriptHeader(message: string): (lines: seq<string>)
    ensures |lines| == 3
    ensures lines[1] == message
    ensures lines[0] == lines[2] && |lines[0]| == |message|
    ensures forall i :: 0 <= i < |lines[0]| ==> lines[0][i] == '-'
  {
    var ruler := Repeat('-', |message|);
    [ruler, message, ruler]
  }

  /** The lines a sequence of events writes to the log. */
  function LogOutput(events: seq<Event>): seq<string>
  {
    if events == [] then []
    else
      var last := events[|events| - 1];
      LogOutput(events[..|events| - 1]) +
      match last
      case Header(message) => ScriptHeader(message)
      case LogError(message) => [message]
      case _ => []
  }

  const RemovingTitle := "Removing packages, bin and obj folders."
  const RestoringTitle := "Restoring .NET micro benchmarks"

  function BuildingTitle(frameworks: seq<string>): string
  {
    "Building .NET micro benchmarks for '" + Join(frameworks, " ") + "'"
  }

  function RunningTitle(framework: string): string
  {
    "Running .NET micro benchmarks for '" + framework + "'"
  }

  /** The folders removed when the build is not incremental: packages, then bin, then obj. */
  function BinaryFolders(layout: Layout): seq<string>
  {
    [layout.packages, layout.bin, layout.obj]
  }

  function CleanSteps(paths: seq<string>): (steps: seq<Event>)
    ensures |steps| == |paths|
    ensures forall i :: 0 <= i < |paths| ==> steps[i] == Clean(paths[i])
  {
    seq(|paths|, i requires 0 <= i < |paths| => Clean(paths[i]))
  }

  /** The removal stage: only when `incremental` is exactly "no". */
  function CleanPlan(incremental: string, layout: Layout): seq<Event>
  {
    if incremental == "no" then [Header(RemovingTitle)] + CleanSteps(BinaryFolders(layout)) else []
  }

  /** What `build` does when every step succeeds. */
  function BuildPlan(configuration: string, frameworks: seq<string>, incremental: string, verbose: bool, layout: Layout): seq<Event>
  {
    CleanPlan(incremental, layout) +
    [Header(RestoringTitle), Restore(layout.packages, verbose),
     Header(BuildingTitle(frameworks)), Build(configuration, frameworks, verbose)]
  }

  /** What `run` does for one framework. */
  function RunPlan(configuration: string, framework: string, verbose: bool, args: seq<string>): seq<Event>
  {
    [Header(RunningTitle(framework)), Run(configuration, framework, verbose, args)]
  }

  /** One `run` per framework, in the order of the list, each with the same arguments. */
  function RunsPlan(configuration: string, frameworks: seq<string>, verbose: bool, args: seq<string>): seq<Event>
  {
    if frameworks == [] then []
    else (RunsPlan(configuration, frameworks[..|frameworks| - 1], verbose, args)
      + RunPlan(configuration, frameworks[|frameworks| - 1], verbose, args))
  }

  /** One run call per framework, in list order, each with the same arguments. */
  function RunCalls(configuration: string, frameworks: seq<string>, verbose: bool, args: seq<string>): (calls: seq<Event>)
    ensures |calls| == |frameworks|
    ensures forall i :: 0 <= i < |frameworks| ==> calls[i] == Run(configuration, frameworks[i], verbose, args)
  {
    seq(|frameworks|, i requires 0 <= i < |frameworks| => Run(configuration, frameworks[i], verbose, args))
  }

  lemma RunCallsSnoc(configuration: string, frameworks: seq<string>, verbose: bool, args: seq<string>)
    requires frameworks != []
    ensures RunCalls(configuration, frameworks, verbose, args) ==
      RunCalls(configuration, frameworks[..|frameworks| - 1], verbose, args)
      + [Run(configuration, frameworks[|frameworks| - 1], verbose, args)]
  {
    var want := RunCalls(configuration, frameworks, verbose, args);
    var got := RunCalls(configuration, frameworks[..|frameworks| - 1], verbose, args)
      + [Run(configuration, frameworks[|frameworks| - 1], verbose, args)];
    assert |want| == |got|;
    assert forall i :: 0 <= i < |want| ==> want[i] == got[i];
  }

  /** The run steps: exactly one per framework, in list order, with the same arguments each time. */
  lemma {:induction false} RunsPlanCalls(configuration: string, frameworks: seq<string>, verbose: bool, args: seq<string>)
    ensures Calls(RunsPlan(configuration, frameworks, verbose, args)) == RunCalls(configuration, frameworks, verbose, args)
  {
    if frameworks != [] {
      var init, last := frameworks[..|frameworks| - 1], frameworks[|frameworks| - 1];
      RunsPlanCalls(configuration, init, verbose, args);
      var run := Run(configuration, last, verbose, args);
      CallsAppend(RunsPlan(configuration, init, verbose, args), [Header(RunningTitle(last)), run]);
      CallsAfterHeader(RunningTitle(last), run);
      RunCallsSnoc(configuration, frameworks, verbose, args);
    }
  }

  /** The removals contribute their three calls when `incremental` is "no", and nothing otherwise. */
  lemma CleanPlanCalls(incremental: string, layout: Layout)
    ensures Calls(CleanPlan(incremental, layout)) ==
      if incremental == "no" then [Clean(layout.packages), Clean(layout.bin), Clean(layout.obj)] else []
  {
    if incremental == "no" {
      var steps := CleanSteps(BinaryFolders(layout));
      CallsAppend([Header(RemovingTitle)], steps);
      assert Calls([Header(RemovingTitle)]) == [];
      assert steps == [Clean(layout.packages), Clean(layout.bin), Clean(layout.obj)];
      CallsOfCalls(steps);
    }
  }

  /**
   * The external steps of `build`: the three removals first when and only
   * when `incremental` is "no", then one restore, then one build of the whole
   * framework list.
   */
  lemma {:induction false} BuildPlanCalls(configuration: string, frameworks: seq<string>, incremental: string, verbose: bool, layout: Layout)
    ensures Calls(BuildPlan(configuration, frameworks, incremental, verbose, layout)) ==
      (if incremental == "no" then [Clean(layout.packages), Clean(layout.bin), Clean(layout.obj)] else []) +
      [Restore(layout.packages, verbose), Build(configuration, frameworks, verbose)]
  {
    var clean := CleanPlan(incremental, layout);
    var restoring := [Header(RestoringTitle), Restore(layout.packages, verbose)];
    var building := [Header(BuildingTitle(frameworks)), Build(configuration, frameworks, verbose)];
    assert BuildPlan(configuration, frameworks, incremental, verbose, layout) == clean + (restoring + building);
    CallsAppend(clean, restoring + building);
    CallsAppend(restoring, building);
    CallsAfterHeader(RestoringTitle, Restore(layout.packages, verbose));
    CallsAfterHeader(BuildingTitle(frameworks), Build(configuration, frameworks, verbose));
    CleanPlanCalls(incremental, layout);
  }

  lemma {:induction false} CleanStepsSplit(paths: seq<string>, k: nat)
    requires k <= |paths|
    ensures CleanSteps(paths) == CleanSteps(paths[..k]) + CleanSteps(paths[k..])
  {
  }

  lemma Regroup(h: seq<Event>, a: seq<Event>, b: seq<Event>, r: seq<Event>)
    ensures h + (a + b) + r == (h + a) + (b + r)
  {
  }

  /** The removal header and the first i + 1 removals: one more step after the first i. */
  lemma CleanLoopStep(x: Execution, paths: seq<string>, i: nat, oracle: Event -> Outcome)
    requires i < |paths|
    ensures Resume(x, [Header(RemovingTitle)] + CleanSteps(paths[..i + 1]), oracle) ==
      Step(Resume(x, [Header(RemovingTitle)] + CleanSteps(paths[..i]), oracle), Clean(paths[i]), oracle)
  {
    var done := [Header(RemovingTitle)] + CleanSteps(paths[..i]);
    assert [Header(RemovingTitle)] + CleanSteps(paths[..i + 1]) == done + [Clean(paths[i])];
    ResumeSnoc(x, done, Clean(paths[i]), oracle);
  }

  /** A removal that raises leaves the later removals, and whatever follows them, undone. */
  lemma CleanLoopStopped(x: Execution, paths: seq<string>, i: nat, rest: seq<Event>, oracle: Event -> Outcome)
    requires i < |paths|
    requires Resume(x, [Header(RemovingTitle)] + CleanSteps(paths[..i + 1]), oracle).failure.Some?
    ensures Resume(x, [Header(RemovingTitle)] + CleanSteps(paths) + rest, oracle) ==
      Resume(x, [Header(RemovingTitle)] + CleanSteps(paths[..i + 1]), oracle)
  {
    var prefix := [Header(RemovingTitle)] + CleanSteps(paths[..i + 1]);
    var tail := CleanSteps(paths[i + 1..]) + rest;
    CleanStepsSplit(paths, i + 1);
    Regroup([Header(RemovingTitle)], CleanSteps(paths[..i + 1]), CleanSteps(paths[i + 1..]), rest);
    ResumeAppend(x, prefix, tail, oracle);
    ResumeStopped(Resume(x, prefix, oracle), tail, oracle);
  }

  /** The log of a session grows by a three-line header for each header event. */
  lemma LogOutputHeader(events: seq<Event>, message: string)
    ensures LogOutput(events + [Header(message)]) == LogOutput(events) + ScriptHeader(message)
  {
    assert (events + [Header(message)])[..|events|] == events;
  }

  /**
   * The session: the record of what has happened so far and the exception in
   * flight, if any. `oracle` decides each external step's outcome and
   * `layout` the folders it works in.
   */
  class Session {
    const layout: Layout
    const oracle: Event -> Outcome
    var trace: seq<Event>
    var raised: Option<Failure>

    constructor (layout: Layout, oracle: Event -> Outcome)
      ensures this.layout == layout && this.oracle == oracle
      ensures trace == [] && raised == None
    {
      this.layout := layout;
      this.oracle := oracle;
      trace := [];
      raised := None;
    }

    /** The events so far and the exception in flight, if any. */
    ghost function State(): Execution
      reads this
    {
      Execution(trace, raised)
    }

    /** An external step: it is recorded, and raises what the oracle says. */
    method Call(e: Event)
      requires IsCall(e) && raised == None
      modifies this
      ensures trace == old(trace) + [e]
      ensures raised == if oracle(e).Raised? then Some(oracle(e).failure) else None
      ensures State() == Step(old(State()), e, oracle)
    {
      trace := trace + [e];
      if oracle(e).Raised? {
        raised := Some(oracle(e).failure);
      }
    }

    /** `__log_script_header`: the three header lines go to the log. */
    method LogScriptHeader(message: string)
      requires raised == None
      modifies this
      ensures trace == old(trace) + [Header(message)] && raised == None
      ensures State() == Step(old(State()), Header(message), oracle)
      ensures LogOutput(trace) == LogOutput(old(trace)) + ScriptHeader(message)
    {
      LogOutputHeader(trace, message);
      trace := trace + [Header(message)];
    }

    /**
     * The removal part of `build`: the header, then the packages, bin and
     * obj folders removed one after the other until one removal raises.
     */
    method RemoveBinaryFolders()
      requires raised == None
      modifies this
      ensures State() == Resume(old(State()), CleanPlan("no", layout), oracle)
    {
      var start := State();
      LogScriptHeader(RemovingTitle);
      var binaryFolders := BinaryFolders(layout);
      ResumeSnoc(start, [], Header(RemovingTitle), oracle);
      assert [Header(RemovingTitle)] + CleanSteps(binaryFolders[..0]) == [] + [Header(RemovingTitle)];
      for i := 0 to |binaryFolders|
        invariant raised == None
        invariant State() == Resume(start, [Header(RemovingTitle)] + CleanSteps(binaryFolders[..i]), oracle)
      {
        Call(Clean(binaryFolders[i]));
        CleanLoopStep(start, binaryFolders, i, oracle);
        if raised.Some? {
          CleanLoopStopped(start, binaryFolders, i, [], oracle);
          assert [Header(RemovingTitle)] + CleanSteps(binaryFolders) + [] == CleanPlan("no", layout);
          return;
        }
      }
      assert binaryFolders[..|binaryFolders|] == binaryFolders;
    }

    /**
     * `build`: when `incremental` is "no", remove the binary folders; then
     * restore; then build every framework in one call. An exception stops it
     * where it is raised.
     */
    method BuildStage(configuration: string, frameworks: seq<string>, incremental: string, verbose: bool)
      requires raised == None
      modifies this
      ensures State() == Resume(old(State()), BuildPlan(configuration, frameworks, incremental, verbose, layout), oracle)
    {
      var start := State();
      var restoring := [Header(RestoringTitle), Restore(layout.packages, verbose)];
      var building := [Header(BuildingTitle(frameworks)), Build(configuration, frameworks, verbose)];
      assert BuildPlan(configuration, frameworks, incremental, verbose, layout) ==
        CleanPlan(incremental, layout) + (restoring + building);
      ResumeAppend(start, CleanPlan(incremental, layout), restoring + building, oracle);
      if incremental == "no" {
        RemoveBinaryFolders();
        if raised.Some? {
          ResumeStopped(State(), restoring + building, oracle);
          return;
        }
      }
      ghost var afterCleaning := State();
      ResumeAppend(afterCleaning, restoring, building, oracle);
      LogScriptHeader(RestoringTitle);
      Call(Restore(layout.packages, verbose));
      ResumePair(afterCleaning, Header(RestoringTitle), Restore(layout.packages, verbose), oracle);
      if raised.Some? {
        ResumeStopped(State(), building, oracle);
        return;
      }
      ghost var afterRestore := State();
      LogScriptHeader(BuildingTitle(frameworks));
      Call(Build(configuration, frameworks, verbose));
      ResumePair(afterRestore, Header(BuildingTitle(frameworks)), Build(configuration, frameworks, verbose), oracle);
    }

    /** `run`: the header naming the framework, then `dotnet run` with the given arguments. */
    method RunStage(configuration: string, framework: string, verbose: bool, args: seq<string>)
      requires raised == None
      modifies this
      ensures State() == Resume(old(State()), RunPlan(configuration, framework, verbose, args), oracle)
    {
      LogScriptHeader(RunningTitle(framework));
      Call(Run(configuration, framework, verbose, args));
      ResumePair(old(State()), Header(RunningTitle(framework)), Run(configuration, framework, verbose, args), oracle);
    }
  }
}
