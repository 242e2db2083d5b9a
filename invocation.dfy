/**
 * The parsed options and the argument list handed to `dotnet run` for every
 * framework: `--`, then the optional BenchmarkDotNet flag groups in a fixed
 * order, then the user's pass-through tokens.
 */
module Invocation {
  import opened Wrappers

  /** The namespace argparse returns, already parsed and validated. */
  datatype Options = Options(
    configuration: string,
    frameworks: seq<string>,
    incremental: string,
    verbose: bool,
    enablePmc: bool,
    category: Option<string>,
    filter: Option<seq<string>>,
    corerun: Option<string>,
    cli: Option<string>,
    bdnArguments: Option<seq<string>>)

  /** Python truthiness of an optional string or list: present and non-empty. */
  predicate Truthy<T>(o: Option<seq<T>>)
  {
    o.Some? && |o.value| > 0
  }

  const Counters := "BranchMispredictions+CacheMisses+InstructionRetired"

  /** The number of optional groups, in the order they are appended. */
  const GroupCount := 6

  /** Whether group k (0: category, 1: corerun, 2: cli, 3: counters, 4: filter, 5: pass-through) is on. */
  predicate GroupEnabled(o: Options, k: nat)
  {
    match k
    case 0 => Truthy(o.category)
    case 1 => Truthy(o.corerun)
    case 2 => Truthy(o.cli)
    case 3 => o.enablePmc
    case 4 => Truthy(o.filter)
    case _ => Truthy(o.bdnArguments)
  }

  /** The flag that opens group k; the pass-through group has none. */
  function GroupFlag(k: nat): string
    requires k < GroupCount - 1
  {
    ["--allCategories", "--coreRun", "--cli", "--counters", "--filter"][k]
  }

  /** The tokens group k appends: its flag and value(s), or the pass-through tokens. */
  function Group(o: Options, k: nat): (tokens: seq<string>)
    requires k < GroupCount
    ensures tokens != [] <==> GroupEnabled(o, k)
    ensures tokens != [] && k < GroupCount - 1 ==> tokens[0] == GroupFlag(k)
  {
    match k
    case 0 => if Truthy(o.category) then ["--allCategories", o.category.value] else []
    case 1 => if Truthy(o.corerun) then ["--coreRun", o.corerun.value] else []
    case 2 => if Truthy(o.cli) then ["--cli", o.cli.value] else []
    case 3 => if o.enablePmc then ["--counters", Counters] else []
    case 4 => if Truthy(o.filter) then ["--filter"] + o.filter.value else []
    case _ => if Truthy(o.bdnArguments) then o.bdnArguments.value else []
  }

  /** The arguments of every `dotnet run` call. */
  function RunArguments(o: Options): (args: seq<string>)
    ensures |args| >= 1 && args[0] == "--"
    ensures Truthy(o.bdnArguments) ==>
      |o.bdnArguments.value| < |args| && args[|args| - |o.bdnArguments.value|..] == o.bdnArguments.value
  {
    ["--"] + Group(o, 0) + Group(o, 1) + Group(o, 2) + Group(o, 3) + Group(o, 4) + Group(o, 5)
  }

  /** The run arguments hold `--`, two tokens per enabled single-valued group, the filter flag with its patterns, and the pass-through tokens; nothing else. */
  lemma RunArgumentsLength(o: Options)
    ensures |RunArguments(o)| == 1 + (if Truthy(o.category) then 2 else 0) + (if Truthy(o.corerun) then 2 else 0)
      + (if Truthy(o.cli) then 2 else 0) + (if o.enablePmc then 2 else 0)
      + (if Truthy(o.filter) then 1 + |o.filter.value| else 0)
      + (if Truthy(o.bdnArguments) then |o.bdnArguments.value| else 0)
  {
    assert |Group(o, 0)| == if Truthy(o.category) then 2 else 0;
    assert |Group(o, 1)| == if Truthy(o.corerun) then 2 else 0;
    assert |Group(o, 2)| == if Truthy(o.cli) then 2 else 0;
    assert |Group(o, 3)| == if o.enablePmc then 2 else 0;
    assert |Group(o, 4)| == if Truthy(o.filter) then 1 + |o.filter.value| else 0;
    assert |Group(o, 5)| == if Truthy(o.bdnArguments) then |o.bdnArguments.value| else 0;
  }

  /** The options with every group from position k on switched off. */
  function Truncate(o: Options, k: nat): Options
  {
    o.(category := if k > 0 then o.category else None,
       corerun := if k > 1 then o.corerun else None,
       cli := if k > 2 then o.cli else None,
       enablePmc := k > 3 && o.enablePmc,
       filter := if k > 4 then o.filter else None,
       bdnArguments := if k > 5 then o.bdnArguments else None)
  }

  lemma GroupOfTruncate(o: Options, k: nat, j: nat)
    requires j < GroupCount
    ensures Group(Truncate(o, k), j) == if j < k then Group(o, j) else []
  {
  }

  /** The run arguments of the options cut off before group k. */
  function ArgumentsBefore(o: Options, k: nat): seq<string>
    requires k <= GroupCount
  {
    if k == 0 then ["--"] else ArgumentsBefore(o, k - 1) + Group(o, k - 1)
  }

  /** All six groups after `--` are the run arguments. */
  lemma ArgumentsBeforeAll(o: Options)
    ensures ArgumentsBefore(o, GroupCount) == RunArguments(o)
  {
    assert ArgumentsBefore(o, 1) == ["--"] + Group(o, 0);
    assert ArgumentsBefore(o, 2) == ["--"] + Group(o, 0) + Group(o, 1);
    assert ArgumentsBefore(o, 3) == ["--"] + Group(o, 0) + Group(o, 1) + Group(o, 2);
    assert ArgumentsBefore(o, 4) == ["--"] + Group(o, 0) + Group(o, 1) + Group(o, 2) + Group(o, 3);
    assert ArgumentsBefore(o, 5) == ["--"] + Group(o, 0) + Group(o, 1) + Group(o, 2) + Group(o, 3) + Group(o, 4);
  }

  /** Cutting the options off before group k cuts their arguments off there too. */
  lemma {:induction false} ArgumentsBeforeOfTruncate(o: Options, k: nat, j: nat)
    requires j <= GroupCount
    ensures ArgumentsBefore(Truncate(o, k), j) == ArgumentsBefore(o, if j < k then j else k)
  {
    if j > 0 {
      ArgumentsBeforeOfTruncate(o, k, j - 1);
      GroupOfTruncate(o, k, j - 1);
      if j - 1 >= k {
        assert ArgumentsBefore(Truncate(o, k), j) == ArgumentsBefore(Truncate(o, k), j - 1) + [];
      }
    }
  }

  lemma RunArgumentsOfTruncate(o: Options, k: nat)
    requires k <= GroupCount
    ensures RunArguments(Truncate(o, k)) == ArgumentsBefore(o, k)
  {
    ArgumentsBeforeAll(Truncate(o, k));
    ArgumentsBeforeOfTruncate(o, k, GroupCount);
  }

  /**
   * The fixed order: switching on group k, with the later groups still off,
   * appends that group's tokens to what the earlier groups produced. It adds
   * tokens exactly when the option is truthy, and they open with its flag.
   */
  lemma RunArgumentsGrowInOrder(o: Options, k: nat)
    requires k < GroupCount
    ensures RunArguments(Truncate(o, 0)) == ["--"]
    ensures RunArguments(Truncate(o, GroupCount)) == RunArguments(o)
    ensures RunArguments(Truncate(o, k + 1)) == RunArguments(Truncate(o, k)) + Group(o, k)
    ensures |RunArguments(Truncate(o, k + 1))| > |RunArguments(Truncate(o, k))| <==> GroupEnabled(o, k)
    ensures k < GroupCount - 1 && GroupEnabled(o, k) ==>
      RunArguments(Truncate(o, k + 1))[|RunArguments(Truncate(o, k))|] == GroupFlag(k)
  {
    assert Truncate(o, GroupCount) == o;
    RunArgumentsOfTruncate(o, 0);
    RunArgumentsOfTruncate(o, k);
    RunArgumentsOfTruncate(o, k + 1);
  }

  /** The pass-through tokens come last, after every structured flag. */
  lemma PassThroughIsLast(o: Options)
    requires Truthy(o.bdnArguments)
    ensures RunArguments(o) == RunArguments(o.(bdnArguments := None)) + o.bdnArguments.value
  {
    assert Truncate(o, GroupCount - 1) == o.(bdnArguments := None);
    RunArgumentsOfTruncate(o, GroupCount - 1);
    ArgumentsBeforeAll(o);
  }

  /**
   * The run-argument loop body of `__main`: start from `['--']` and append
   * each group whose option is truthy.
   */
  method AssembleRunArguments(o: Options) returns (runArgs: seq<string>)
    ensures runArgs == RunArguments(o)
  {
    runArgs := ["--"];
    if Truthy(o.category) {
      runArgs := runArgs + ["--allCategories", o.category.value];
    }
    assert runArgs == ["--"] + Group(o, 0);
    if Truthy(o.corerun) {
      runArgs := runArgs + ["--coreRun", o.corerun.value];
    }
    assert runArgs == ["--"] + Group(o, 0) + Group(o, 1);
    if Truthy(o.cli) {
      runArgs := runArgs + ["--cli", o.cli.value];
    }
    assert runArgs == ["--"] + Group(o, 0) + Group(o, 1) + Group(o, 2);
    if o.enablePmc {
      runArgs := runArgs + ["--counters", Counters];
    }
    assert runArgs == ["--"] + Group(o, 0) + Group(o, 1) + Group(o, 2) + Group(o, 3);
    if Truthy(o.filter) {
      runArgs := runArgs + (["--filter"] + o.filter.value);
    }
    assert runArgs == ["--"] + Group(o, 0) + Group(o, 1) + Group(o, 2) + Group(o, 3) + Group(o, 4);
    if Truthy(o.bdnArguments) {
      runArgs := runArgs + o.bdnArguments.value;
    }
  }

  /**
   * `__get_bdn_arguments`: the first record the CSV reader yields for the
   * input, or the empty list. The reader itself is a parameter.
   */
  function GetBdnArguments(userInput: string, csvRecords: string -> seq<seq<string>>): (args: seq<string>)
    ensures csvRecords(userInput) == [] ==> args == []
    ensures csvRecords(userInput) != [] ==> args == csvRecords(userInput)[0]
  {
    var records := csvRecords(userInput);
    if records == [] then [] else records[0]
  }

  /** Whatever the reader makes of the input, only its first record reaches `dotnet run`, last. */
  lemma FirstRecordIsPassedLast(o: Options, userInput: string, csvRecords: string -> seq<seq<string>>)
    requires |csvRecords(userInput)| > 0 && |csvRecords(userInput)[0]| > 0
    ensures var args := RunArguments(o.(bdnArguments := Some(GetBdnArguments(userInput, csvRecords))));
      args[|args| - |csvRecords(userInput)[0]|..] == csvRecords(userInput)[0]
  {
  }

  /** Category, corerun, counters, two filters and two extra tokens, in that order. */
  lemma RunArgumentsExample(o: Options, corerun: string)
    requires corerun != ""
    requires o.category == Some("coreclr") && o.corerun == Some(corerun) && o.cli == None
    requires o.enablePmc && o.filter == Some(["*Sort*", "*Hash*"])
    requires o.bdnArguments == Some(["--iterations", "5"])
    ensures RunArguments(o) == ["--", "--allCategories", "coreclr", "--coreRun", corerun,
      "--counters", Counters, "--filter", "*Sort*", "*Hash*", "--iterations", "5"]
  {
  }
}
