/**
 * The entry point `__main`: check the runtime, parse the arguments, print
 * `dotnet --info`, build, then run every framework with the same run
 * arguments; every exception it catches becomes exit code 1.
 */
module Driver {
  import opened Wrappers
  import opened Text
  import opened Invocation
  import opened Stages

  /** How the process ends: with an exit code, or with an exception `__main` does not catch. */
  datatype Termination = Exit(code: int) | Escapes(failure: Failure)

  /** Everything the try body of `__main` does when no step raises. */
  function MainPlan(argv: seq<string>, o: Options, layout: Layout): seq<Event>
  {
    [ValidateRuntime, ProcessArguments(argv), Info(o.verbose)] + AfterInfo(o, layout)
  }

  /** The body of `__main` after `dotnet --info`: the build, then the runs. */
  function AfterInfo(o: Options, layout: Layout): seq<Event>
  {
    BuildPlan(o.configuration, o.frameworks, o.incremental, o.verbose, layout)
    + RunsPlan(o.configuration, o.frameworks, o.verbose, RunArguments(o))
  }

  /** Python's `str(n)` for an integer. */
  function DecimalString(n: int): string
    decreases if n < 0 then 1 - n else n
  {
    if n < 0 then "-" + DecimalString(-n)
    else if n < 10 then ["0123456789"[n]]
    else DecimalString(n / 10) + ["0123456789"[n % 10]]
  }

  /** The value of a string of decimal digits, read left to right. */
  function DecimalValue(s: string): int
  {
    if s == [] then 0 else DecimalValue(s[..|s| - 1]) * 10 + (s[|s| - 1] as int - '0' as int)
  }

  predicate IsDigit(c: char)
  {
    '0' <= c <= '9'
  }

  /**
   * `str(n)` of a non-negative integer is a non-empty string of digits,
   * without a leading zero unless it is "0", whose value is n again.
   */
  lemma {:induction false} DecimalStringRoundTrip(n: nat)
    ensures var s := DecimalString(n);
      |s| > 0 && (forall i :: 0 <= i < |s| ==> IsDigit(s[i])) &&
      (s[0] == '0' ==> n == 0) && DecimalValue(s) == n
  {
    var digits := "0123456789";
    assert forall d :: 0 <= d < 10 ==> IsDigit(digits[d]) && digits[d] as int - '0' as int == d;
    if n >= 10 {
      var init := DecimalString(n / 10);
      DecimalStringRoundTrip(n / 10);
      var s := init + [digits[n % 10]];
      assert s[..|s| - 1] == init;
      assert s[0] == init[0];
    }
  }

  /** A negative integer is written as a minus sign before the digits of its magnitude. */
  lemma DecimalStringNegative(n: int)
    requires n < 0
    ensures DecimalString(n)[0] == '-' && DecimalString(n)[1..] == DecimalString(-n)
  {
  }

  /** Python's `'%s' % x` for an optional integer: `None` when it is absent. */
  function OptionalIntText(x: Option<int>): string
  {
    match x
    case None => "None"
    case Some(n) => DecimalString(n)
  }

  /** Python's `'%s' % x` for an optional string: `None` when it is absent. */
  function OptionalText(x: Option<string>): string
  {
    match x
    case None => "None"
    case Some(t) => t
  }

  /** The error lines each `except` clause logs. */
  function ErrorMessages(failure: Failure): seq<string>
  {
    match failure
    case CalledProcessError(command, returnCode) =>
      ["Command: \"" + command + "\", exited with status: " + DecimalString(returnCode)]
    case IOError(errno, strerror, filename) =>
      ["I/O error (" + OptionalIntText(errno) + "): " + OptionalText(strerror) + ": " + OptionalText(filename)]
    case SystemExit(_) => []
    case OtherException(typeName, traceback) => ["Unexpected error: " + typeName, traceback]
    case OtherBaseException(_) => []
  }

  /**
   * One error line for a failed command and for an I/O error, two for any
   * other Exception (the type, then the traceback), none for argparse's exit
   * or an uncaught BaseException. A failed command's line names the command
   * and ends with its exit status.
   */
  lemma ErrorMessagesShape(failure: Failure)
    ensures |ErrorMessages(failure)| ==
      match failure
      case CalledProcessError(_, _) => 1
      case IOError(_, _, _) => 1
      case OtherException(_, _) => 2
      case _ => 0
    ensures failure.OtherException? ==> ErrorMessages(failure)[1] == failure.traceback
    ensures failure.CalledProcessError? ==>
      var line := ErrorMessages(failure)[0];
      var status := DecimalString(failure.returnCode);
      |status| < |line| && line[|line| - |status|..] == status &&
      line[..|"Command: \""| + |failure.command|] == "Command: \"" + failure.command
  {
    if failure.CalledProcessError? {
      var head := "Command: \"" + failure.command;
      var status := DecimalString(failure.returnCode);
      var line := head + "\", exited with status: " + status;
      assert line == ErrorMessages(failure)[0];
      assert line[..|head|] == head;
      assert line[|line| - |status|..] == status;
    }
  }

  /** An I/O error raised without its fields logs `I/O error (None): None: None`. */
  lemma BareIOErrorMessage()
    ensures ErrorMessages(IOError(None, None, None)) == ["I/O error (None): None: None"]
  {
    assert "I/O error (" + "None" + "): " + "None" + ": " + "None" == "I/O error (None): None: None";
  }

  function ErrorEvents(failure: Failure): (events: seq<Event>)
    ensures |events| == |ErrorMessages(failure)|
    ensures forall i :: 0 <= i < |events| ==> events[i] == LogError(ErrorMessages(failure)[i])
  {
    seq(|ErrorMessages(failure)|, i requires 0 <= i < |ErrorMessages(failure)| => LogError(ErrorMessages(failure)[i]))
  }

  /**
   * The `try`/`except` of `__main`: 0 when the body completes; 1 for a
   * CalledProcessError, an IOError, a SystemExit (argparse's exit, including
   * the one for `--help`) or any other Exception. A BaseException that is
   * not an Exception is not caught and leaves `__main`.
   */
  function Classify(failure: Option<Failure>): (t: Termination)
    ensures t == Exit(0) <==> failure.None?
    ensures t.Exit? ==> t.code == 0 || t.code == 1
    ensures t.Escapes? <==> failure.Some? && failure.value.OtherBaseException?
    ensures t.Escapes? ==> t.failure == failure.value
  {
    match failure
    case None => Exit(0)
    case Some(OtherBaseException(typeName)) => Escapes(OtherBaseException(typeName))
    case Some(_) => Exit(1)
  }

  /** The whole outcome of `__main` for given arguments, options, folders and step outcomes. */
  function MainOutcome(argv: seq<string>, o: Options, layout: Layout, oracle: Event -> Outcome): Termination
  {
    Classify(Execute(MainPlan(argv, o, layout), oracle).failure)
  }

  /** Splitting the framework list splits the runs. */
  lemma {:induction false} RunsPlanAppend(configuration: string, a: seq<string>, b: seq<string>, verbose: bool, args: seq<string>)
    ensures RunsPlan(configuration, a + b, verbose, args) ==
      RunsPlan(configuration, a, verbose, args) + RunsPlan(configuration, b, verbose, args)
  {
    if b != [] {
      var init := b[..|b| - 1];
      assert (a + b)[..|a + b| - 1] == a + init;
      assert (a + b)[|a + b| - 1] == b[|b| - 1];
      RunsPlanAppend(configuration, a, init, verbose, args);
    } else {
      assert a + b == a;
    }
  }

  /**
   * The external steps of `__main`, in order: runtime check, argument
   * parsing, `dotnet --info`, the three removals exactly when `incremental`
   * is "no", one restore, one build of the whole framework list, then one run
   * per framework in list order, every run with the same arguments.
   */
  lemma MainPlanCalls(argv: seq<string>, o: Options, layout: Layout)
    ensures Calls(MainPlan(argv, o, layout)) ==
      [ValidateRuntime, ProcessArguments(argv), Info(o.verbose)] +
      (((if o.incremental == "no" then [Clean(layout.packages), Clean(layout.bin), Clean(layout.obj)] else []) +
        [Restore(layout.packages, o.verbose), Build(o.configuration, o.frameworks, o.verbose)]) +
       RunCalls(o.configuration, o.frameworks, o.verbose, RunArguments(o)))
  {
    var pre := [ValidateRuntime, ProcessArguments(argv), Info(o.verbose)];
    var build := BuildPlan(o.configuration, o.frameworks, o.incremental, o.verbose, layout);
    var runs := RunsPlan(o.configuration, o.frameworks, o.verbose, RunArguments(o));
    CallsAppend(pre, AfterInfo(o, layout));
    CallsAppend(build, runs);
    CallsOfCalls(pre);
    BuildPlanCalls(o.configuration, o.frameworks, o.incremental, o.verbose, layout);
    RunsPlanCalls(o.configuration, o.frameworks, o.verbose, RunArguments(o));
  }

  /** A step that fails ends the session: nothing after it is performed. */
  lemma FailureStopsLaterSteps(plan: seq<Event>, k: nat, oracle: Event -> Outcome)
    requires k < |plan| && Fails(plan[k], oracle)
    ensures |Execute(plan, oracle).performed| <= k + 1
    ensures Execute(plan, oracle).performed == plan[..|Execute(plan, oracle).performed|]
  {
    ExecuteStopsAtFirstFailure(plan, oracle);
  }

  /** The body of `__main` up to and including the restore. */
  function UpToRestore(argv: seq<string>, o: Options, layout: Layout): seq<Event>
  {
    [ValidateRuntime, ProcessArguments(argv), Info(o.verbose)] + CleanPlan(o.incremental, layout)
    + [Header(RestoringTitle), Restore(layout.packages, o.verbose)]
  }

  /** The body of `__main` after the restore: the build, then the runs. */
  function AfterRestore(o: Options): seq<Event>
  {
    [Header(BuildingTitle(o.frameworks)), Build(o.configuration, o.frameworks, o.verbose)]
    + RunsPlan(o.configuration, o.frameworks, o.verbose, RunArguments(o))
  }

  lemma MainPlanAtRestore(argv: seq<string>, o: Options, layout: Layout)
    ensures MainPlan(argv, o, layout) == UpToRestore(argv, o, layout) + AfterRestore(o)
  {
    var pre := [ValidateRuntime, ProcessArguments(argv), Info(o.verbose)];
    var clean := CleanPlan(o.incremental, layout);
    var restore := [Header(RestoringTitle), Restore(layout.packages, o.verbose)];
    var build := [Header(BuildingTitle(o.frameworks)), Build(o.configuration, o.frameworks, o.verbose)];
    var runs := RunsPlan(o.configuration, o.frameworks, o.verbose, RunArguments(o));
    assert BuildPlan(o.configuration, o.frameworks, o.incremental, o.verbose, layout) == clean + (restore + build);
    RegroupAtRestore(pre, clean, restore, build, runs);
  }

  lemma RegroupAtRestore(pre: seq<Event>, clean: seq<Event>, restore: seq<Event>, build: seq<Event>, runs: seq<Event>)
    ensures pre + ((clean + (restore + build)) + runs) == (pre + clean + restore) + (build + runs)
  {
  }

  /** Nothing up to the restore is a build or a run. */
  lemma UpToRestoreNoBuildOrRun(argv: seq<string>, o: Options, layout: Layout)
    ensures forall e :: e in UpToRestore(argv, o, layout) ==> !e.Build? && !e.Run?
  {
    var clean := CleanPlan(o.incremental, layout);
    assert forall e :: e in clean ==> e.Header? || e.Clean?;
  }

  /** A failed restore means that neither the build nor any run is started. */
  lemma RestoreFailureStopsBuildAndRuns(argv: seq<string>, o: Options, layout: Layout, oracle: Event -> Outcome)
    requires Fails(Restore(layout.packages, o.verbose), oracle)
    ensures forall e :: e in Execute(MainPlan(argv, o, layout), oracle).performed ==> !e.Build? && !e.Run?
  {
    var plan := MainPlan(argv, o, layout);
    var head := UpToRestore(argv, o, layout);
    MainPlanAtRestore(argv, o, layout);
    UpToRestoreNoBuildOrRun(argv, o, layout);
    assert plan[|head| - 1] == head[|head| - 1] == Restore(layout.packages, o.verbose);
    FailureStopsLaterSteps(plan, |head| - 1, oracle);
    var performed := Execute(plan, oracle).performed;
    assert performed == head[..|performed|];
    forall e | e in performed ensures !e.Build? && !e.Run? {
      var i :| 0 <= i < |performed| && performed[i] == e;
      assert e == head[i];
    }
  }

  /** `__main` returns 0 exactly when no step of its body raises. */
  lemma ExitZeroIffNoStepFails(argv: seq<string>, o: Options, layout: Layout, oracle: Event -> Outcome)
    ensures MainOutcome(argv, o, layout, oracle) == Exit(0) <==>
      forall i :: 0 <= i < |MainPlan(argv, o, layout)| ==> !Fails(MainPlan(argv, o, layout)[i], oracle)
  {
    ExecuteStopsAtFirstFailure(MainPlan(argv, o, layout), oracle);
  }

  /**
   * argparse's exit, for `--help` as for a rejected argument, is swallowed:
   * `__main` returns 1, after the runtime check and the parse and nothing else.
   */
  lemma ArgparseExitReturnsOne(argv: seq<string>, o: Options, layout: Layout, oracle: Event -> Outcome, code: int)
    requires !Fails(ValidateRuntime, oracle)
    requires oracle(ProcessArguments(argv)) == Raised(SystemExit(code))
    ensures MainOutcome(argv, o, layout, oracle) == Exit(1)
    ensures Execute(MainPlan(argv, o, layout), oracle).performed == [ValidateRuntime, ProcessArguments(argv)]
    ensures Execute(MainPlan(argv, o, layout), oracle).failure == Some(SystemExit(code))
    ensures ErrorEvents(Execute(MainPlan(argv, o, layout), oracle).failure.value) == []
  {
    var start := Execution([], None);
    var afterParse := [Info(o.verbose)] + AfterInfo(o, layout);
    MainPlanShape(argv, o, layout);
    ResumeCons(start, ValidateRuntime, [ProcessArguments(argv)] + afterParse, oracle);
    ResumeCons(Step(start, ValidateRuntime, oracle), ProcessArguments(argv), afterParse, oracle);
    var parsed := Step(Step(start, ValidateRuntime, oracle), ProcessArguments(argv), oracle);
    ResumeStopped(parsed, afterParse, oracle);
    assert parsed.performed == [ValidateRuntime, ProcessArguments(argv)];
  }

  /** The body of `__main`, one statement at a time. */
  lemma MainPlanShape(argv: seq<string>, o: Options, layout: Layout)
    ensures MainPlan(argv, o, layout) ==
      [ValidateRuntime] + ([ProcessArguments(argv)] + ([Info(o.verbose)] + AfterInfo(o, layout)))
  {
  }

  /**
   * The try body of `__main` once the arguments are parsed into `options`:
   * each statement runs only while no exception is in flight.
   */
  method MainBody(session: Session, argv: seq<string>, options: Options)
    requires session.raised == None
    modifies session
    ensures session.State() == Resume(old(session.State()), MainPlan(argv, options, session.layout), session.oracle)
  {
    var oracle := session.oracle;
    var start := session.State();
    var build := BuildPlan(options.configuration, options.frameworks, options.incremental, options.verbose, session.layout);
    var runs := RunsPlan(options.configuration, options.frameworks, options.verbose, RunArguments(options));
    var afterInfo := AfterInfo(options, session.layout);
    var afterParse := [Info(options.verbose)] + afterInfo;
    var afterValidate := [ProcessArguments(argv)] + afterParse;
    MainPlanShape(argv, options, session.layout);

    session.Call(ValidateRuntime);
    ResumeCons(start, ValidateRuntime, afterValidate, oracle);
    if session.raised.Some? {
      ResumeStopped(session.State(), afterValidate, oracle);
      return;
    }
    var s1 := session.State();
    session.Call(ProcessArguments(argv));
    ResumeCons(s1, ProcessArguments(argv), afterParse, oracle);
    if session.raised.Some? {
      ResumeStopped(session.State(), afterParse, oracle);
      return;
    }
    var s2 := session.State();
    session.Call(Info(options.verbose));
    ResumeCons(s2, Info(options.verbose), afterInfo, oracle);
    if session.raised.Some? {
      ResumeStopped(session.State(), afterInfo, oracle);
      return;
    }
    var s3 := session.State();
    session.BuildStage(options.configuration, options.frameworks, options.incremental, options.verbose);
    ResumeAppend(s3, build, runs, oracle);
    if session.raised.Some? {
      ResumeStopped(session.State(), runs, oracle);
      return;
    }
    RunFrameworks(session, options);
  }

  /**
   * The loop of `__main`: for every framework, in list order, assemble the
   * run arguments afresh and run; an exception stops the loop.
   */
  method RunFrameworks(session: Session, options: Options)
    requires session.raised == None
    modifies session
    ensures session.State() == Resume(old(session.State()),
      RunsPlan(options.configuration, options.frameworks, options.verbose, RunArguments(options)), session.oracle)
  {
    var start := session.State();
    var frameworks := options.frameworks;
    for i := 0 to |frameworks|
      invariant session.raised == None
      invariant session.State() ==
        Resume(start, RunsPlan(options.configuration, frameworks[..i], options.verbose, RunArguments(options)), session.oracle)
    {
      var runArgs := AssembleRunArguments(options);
      session.RunStage(options.configuration, frameworks[i], options.verbose, runArgs);
      RunsStep(start, options.configuration, frameworks, i, options.verbose, runArgs, session.oracle);
      if session.raised.Some? {
        RunsStopped(start, options.configuration, frameworks, i, options.verbose, runArgs, session.oracle);
        return;
      }
    }
    assert frameworks[..|frameworks|] == frameworks;
  }

  /** One more framework is one more run after the earlier ones. */
  lemma RunsStep(x: Execution, configuration: string, frameworks: seq<string>, i: nat, verbose: bool, args: seq<string>,
                 oracle: Event -> Outcome)
    requires i < |frameworks|
    ensures Resume(x, RunsPlan(configuration, frameworks[..i + 1], verbose, args), oracle) ==
      Resume(Resume(x, RunsPlan(configuration, frameworks[..i], verbose, args), oracle),
        RunPlan(configuration, frameworks[i], verbose, args), oracle)
  {
    assert frameworks[..i + 1][..i] == frameworks[..i];
    ResumeAppend(x, RunsPlan(configuration, frameworks[..i], verbose, args),
      RunPlan(configuration, frameworks[i], verbose, args), oracle);
  }

  /** A run that raises leaves the runs of the remaining frameworks undone. */
  lemma RunsStopped(x: Execution, configuration: string, frameworks: seq<string>, i: nat, verbose: bool, args: seq<string>,
                    oracle: Event -> Outcome)
    requires i < |frameworks|
    requires Resume(x, RunsPlan(configuration, frameworks[..i + 1], verbose, args), oracle).failure.Some?
    ensures Resume(x, RunsPlan(configuration, frameworks, verbose, args), oracle) ==
      Resume(x, RunsPlan(configuration, frameworks[..i + 1], verbose, args), oracle)
  {
    var rest := RunsPlan(configuration, frameworks[i + 1..], verbose, args);
    RunsPlanAppend(configuration, frameworks[..i + 1], frameworks[i + 1..], verbose, args);
    assert frameworks[..i + 1] + frameworks[i + 1..] == frameworks;
    ResumeAppend(x, RunsPlan(configuration, frameworks[..i + 1], verbose, args), rest, oracle);
    ResumeStopped(Resume(x, RunsPlan(configuration, frameworks[..i + 1], verbose, args), oracle), rest, oracle);
  }

  /**
   * `__main`: the try body, then the `except` clauses, which log the error
   * lines of the exception they catch and return 1; the body returns 0.
   */
  method MicroBenchmarksMain(session: Session, argv: seq<string>, options: Options) returns (t: Termination)
    requires session.raised == None
    modifies session
    ensures var ex := Resume(old(session.State()), MainPlan(argv, options, session.layout), session.oracle);
      t == Classify(ex.failure) &&
      session.trace == ex.performed + (if t.Exit? && t.code == 1 then ErrorEvents(ex.failure.value) else []) &&
      session.raised == (if t.Escapes? then ex.failure else None)
  {
    MainBody(session, argv, options);
    match session.raised {
      case None =>
        return Exit(0);
      case Some(OtherBaseException(typeName)) =>
        return Escapes(OtherBaseException(typeName));
      case Some(failure) =>
        session.trace := session.trace + ErrorEvents(failure);
        session.raised := None;
        return Exit(1);
    }
  }
}
