# micro_benchmarks orchestrator, modelled in Dafny

`scripts/micro_benchmarks.py` builds and runs the .NET micro benchmarks. It
checks its command-line options, removes the `packages`, `bin` and `obj`
folders when `--incremental no` is given, runs `dotnet restore`, runs
`dotnet build` once for all target frameworks, and runs `dotnet run` once per
framework. Each run gets the same BenchmarkDotNet argument list. `__main`
turns every exception it catches into exit code 1.

The model has seven modules:

- `Wrappers` (wrappers.dfy): the `Option` and `Result` datatypes.
- `Text` (text.dfy): `str.join`, `'-' * n`, ASCII `casefold`, and
  duplicate-freedom.
- `Frameworks` (frameworks.dfy): the framework/channel table, the list of
  supported frameworks for a platform, `get_channel`, and the
  `--frameworks` action `TargetFrameworkAction.__call__`. The action, as
  written, collects every unsupported value into one `Invalid choice(s): …`
  error, and otherwise stores `list(set(values))`. On the command line this
  error is never reached: `--frameworks` also carries `choices=`, and argparse
  rejects the first unsupported value before it calls the action.
- `Configurations` (configurations.dfy): `get_supported_configurations` and
  the `dotnet_configuration` type function. It matches case-insensitively
  and returns the canonical spelling.
- `Invocation` (invocation.dfy): the parsed option record, and the run
  arguments. These are `--`, then the optional groups in a fixed order, then
  the user's pass-through tokens. Also the "first CSV record or `[]`"
  wrapper.
- `Stages` (stages.dfy): the session as a class. Its `trace` holds every
  log header and every external call. Its `raised` field holds the exception
  in flight. An oracle decides the outcome of each external step.
  `BuildStage` and `RunStage` model `build` and `run`. Their results are
  specified by `Resume`, a left fold that stops at the first failure, over
  plans: `BuildPlan`, `RunPlan` and `RunsPlan`.
- `Driver` (driver.dfy): the try body of `__main`, its loop over the
  frameworks, and the mapping from exception to exit code.

Two behaviours of the code are worth stating outright:

- `--help` ends with exit code 1. argparse raises `SystemExit`, which
  `except SystemExit: pass` (line 321) swallows, and then `return 1`
  (line 326) runs. Every argparse error ends the same way
  (`Driver.ArgparseExitReturnsOne`).
- Duplicate frameworks are removed by `list(set(values))` (line 49), which
  leaves the stored order unspecified. The model promises only a
  duplicate-free list with the same elements as the input
  (`Frameworks.ListOfSet`). The runs follow the order of that stored list.

## Model

| member | source | states |
|---|---|---|
| `Frameworks.ChannelKeys` | scripts/micro_benchmarks.py:61-69 | the keys of the channel map, in dict order, are `netcoreapp3.0`, `netcoreapp2.2`, `netcoreapp2.1`, `netcoreapp2.0` |
| `Frameworks.SupportedTable` | scripts/micro_benchmarks.py:52-69 | `SupportedTargetFrameworks`, the supported list, is the four `netcoreapp*` keys in dict order, followed by `net461` on `win32` only |
| `Frameworks.SupportedProperties` | scripts/micro_benchmarks.py:52-59 | the supported list always holds the four `netcoreapp*` keys, and holds `net461` iff the platform is `win32` |
| `Frameworks.FrameworkNamesDistinct` | scripts/micro_benchmarks.py:52-69 | the four keys and `net461` are pairwise distinct |
| `Frameworks.SupportedNoDuplicates` | scripts/micro_benchmarks.py:52-59 | the supported list has no duplicates |
| `Frameworks.GetSupportedTargetFrameworks` | scripts/micro_benchmarks.py:52-59 | the list of keys, with `net461` appended on `win32`, is exactly the supported list |
| `Frameworks.SupportedMembers` | scripts/micro_benchmarks.py:52-59 | a framework is supported iff it is a channel-map key, or it is `net461` on `win32` |
| `Frameworks.GetChannel` | scripts/micro_benchmarks.py:71-78 | the result is `None` exactly for names that are not keys of the channel map, and otherwise the value the map holds for the name |
| `Frameworks.ChannelValues` | scripts/micro_benchmarks.py:61-78 | the four keys map to `master`, `2.2`, `2.1` and `2.0`; `net461` has no channel |
| `Frameworks.SupportedChannels` | scripts/micro_benchmarks.py:51-78 | among supported frameworks, only `net461` has no channel |
| `Frameworks.RejectsMembers` | scripts/micro_benchmarks.py:42-44 | a value is among the wrong choices iff it was supplied and is not supported |
| `Frameworks.RejectsAppend` | scripts/micro_benchmarks.py:42-44 | wrong choices of a concatenation are those of each part, in order: input order is kept |
| `Frameworks.RejectsKeepsRepeats` | scripts/micro_benchmarks.py:42-44 | an unsupported value given twice is reported twice: rejects are not deduplicated |
| `Frameworks.InvalidMessageNamesEveryReject` | scripts/micro_benchmarks.py:45-48 | every wrong choice appears verbatim, at its own offset, in `Invalid choice(s): ` followed by the wrong choices joined with `, ` |
| `Frameworks.TwoBogusValuesReported` | scripts/micro_benchmarks.py:42-44 | two unsupported values around a supported one (such as `bogus1 netcoreapp3.0 bogus2`) are both wrong choices, in input order, and the supported one is not |
| `Frameworks.TwoBogusValuesMessage` | scripts/micro_benchmarks.py:45-47 | the wrong choices `bogus1`, `bogus2` give the message `Invalid choice(s): bogus1, bogus2` |
| `Frameworks.ListOfSet` | scripts/micro_benchmarks.py:49 | `list(set(values))` has no duplicates and the same element set as `values` |
| `Frameworks.TargetFrameworkAction` | scripts/micro_benchmarks.py:36-49 | nothing is stored iff `values` is empty; the action fails iff some value is unsupported, with the message naming every unsupported value in input order; otherwise it stores a duplicate-free list with the input's element set |
| `Configurations.FirstCasefoldMatch` | scripts/micro_benchmarks.py:94-97 | the result, if any, is the FIRST candidate whose casefold equals the input's: every earlier candidate differs; there is none iff no candidate matches |
| `Configurations.FirstCasefoldMatchFoldsInput` | scripts/micro_benchmarks.py:95 | inputs with equal casefolds get the same match |
| `Configurations.SupportedConfigurationsFacts` | scripts/micro_benchmarks.py:81-86 | the supported configurations are exactly `Release` and `Debug`, `Release` first, without repeats |
| `Configurations.NormalizeConfiguration` | scripts/micro_benchmarks.py:93-99 | succeeds iff some supported configuration matches case-insensitively, returning that canonical member; otherwise fails with `Unknown configuration: <input>.` |
| `Configurations.ConfigurationsDifferByCasefold` | scripts/micro_benchmarks.py:81-86 | `Release` and `Debug` have distinct casefolds, so the match is unique |
| `Configurations.NormalizeIdempotent` | scripts/micro_benchmarks.py:93-99 | normalising a normalised configuration returns it unchanged |
| `Configurations.DefaultIsRelease` | scripts/micro_benchmarks.py:101-105 | the default is the first supported configuration, `Release`, and it normalises to itself |
| `Configurations.NormalizeExamples` | scripts/micro_benchmarks.py:93-99 | `release` and `RELEASE` give `Release`; `debug` gives `Debug`; `Retail` fails with `Unknown configuration: Retail.` |
| `Configurations.DotnetConfiguration` | scripts/micro_benchmarks.py:93-99 | the loop with its early return gives the canonical match, and raises only when no supported configuration matches |
| `Invocation.Group` | scripts/micro_benchmarks.py:293-309 | each optional group is non-empty iff its option is truthy, and it opens with its own flag |
| `Invocation.RunArguments` | scripts/micro_benchmarks.py:291-309 | the run arguments start with `--`, and the pass-through tokens, when given, are their suffix |
| `Invocation.RunArgumentsLength` | scripts/micro_benchmarks.py:292-309 | the length is 1 for `--`, plus 2 per enabled single-valued group, plus the filter flag and its patterns, plus the pass-through tokens |
| `Invocation.RunArgumentsOfTruncate` | scripts/micro_benchmarks.py:292-309 | with every group from position k on switched off, the run arguments are `--` followed by groups 0 to k-1 |
| `Invocation.RunArgumentsGrowInOrder` | scripts/micro_benchmarks.py:292-309 | switching on the groups one at a time, in the order category, coreRun, cli, counters, filter, pass-through, appends each group's tokens after all earlier ones |
| `Invocation.PassThroughIsLast` | scripts/micro_benchmarks.py:307-309 | the pass-through tokens come after every structured flag |
| `Invocation.AssembleRunArguments` | scripts/micro_benchmarks.py:292-309 | the successive `+=` appends build exactly the run-argument list |
| `Invocation.GetBdnArguments` | scripts/micro_benchmarks.py:181-186 | the first record of the CSV reader, or `[]` when there is none |
| `Invocation.FirstRecordIsPassedLast` | scripts/micro_benchmarks.py:181-186 | the first CSV record of `--bdn-arguments` is the suffix of every run's arguments |
| `Invocation.RunArgumentsExample` | scripts/micro_benchmarks.py:291-309 | category, corerun, counters, two filters and two extra tokens give the exact list, in that order |
| `Stages.ExecuteStopsAtFirstFailure` | scripts/micro_benchmarks.py:273-314 | the steps performed are a prefix of the plan; there is no failure iff no step fails, and then the whole plan runs; after a failure, the last performed step raised it and all earlier ones succeeded |
| `Stages.ExecuteAppend` | scripts/micro_benchmarks.py:288-312 | running two plans one after the other runs the second only if the first raised nothing |
| `Stages.ScriptHeader` | scripts/micro_benchmarks.py:260-263 | a header is three lines: a dash ruler as long as the message, the message, the same ruler |
| `Stages.LogOutputHeader` | scripts/micro_benchmarks.py:260-263 | logging a header appends exactly its three lines to the log |
| `Stages.CleanPlanCalls` | scripts/micro_benchmarks.py:226-234 | the removal stage calls remove on packages, bin and obj, in that order, when `incremental` is `no`, and calls nothing otherwise |
| `Stages.BuildPlanCalls` | scripts/micro_benchmarks.py:224-244 | the calls of `BuildPlan`: `build` removes packages, bin and obj, in that order, iff `incremental` is `no`, and does so before the one restore; then it builds once with the whole framework list |
| `Stages.RunsPlanCalls` | scripts/micro_benchmarks.py:291-312 | the calls of `RunsPlan`, the concatenated `RunPlan`s: the runs are exactly one per framework, in list order, each with the same arguments |
| `Stages.Session.constructor` | scripts/micro_benchmarks.py:266-270 | a session starts with an empty trace and nothing raised |
| `Stages.Session.Call` | scripts/micro_benchmarks.py:236-244 | an external step is recorded and raises what the oracle says |
| `Stages.Session.LogScriptHeader` | scripts/micro_benchmarks.py:260-263 | `__log_script_header` logs the three header lines and raises nothing |
| `Stages.Session.RemoveBinaryFolders` | scripts/micro_benchmarks.py:226-234 | the new state is the old one carried on through the removal header and the removal of each folder in turn, stopping at the first exception |
| `Stages.Session.BuildStage` | scripts/micro_benchmarks.py:217-244 | the new state is the old one carried on through the build plan: removals, restore, build, stopping at the first exception |
| `Stages.Session.RunStage` | scripts/micro_benchmarks.py:247-257 | the new state is the old one carried on through the header and one `dotnet run` |
| `Driver.Classify` | scripts/micro_benchmarks.py:314-326 | exit code 0 iff nothing was raised; 1 for CalledProcessError, IOError, SystemExit and any other Exception; a BaseException that is not an Exception escapes |
| `Driver.MainPlanCalls` | scripts/micro_benchmarks.py:273-312 | the external steps of `MainPlan`, the plan of `__main`'s try body, are, in order: runtime check, parse, `dotnet --info`, the removals iff `incremental` is `no`, one restore, one build of all frameworks, then one run per framework with the same arguments |
| `Driver.FailureStopsLaterSteps` | scripts/micro_benchmarks.py:273-314 | once a step fails, no later step of the plan is performed |
| `Driver.UpToRestoreNoBuildOrRun` | scripts/micro_benchmarks.py:224-237 | nothing that `__main` does up to and including the restore is a build or a run |
| `Driver.RestoreFailureStopsBuildAndRuns` | scripts/micro_benchmarks.py:236-244 | when restore fails, neither the build nor any run is performed |
| `Driver.ExitZeroIffNoStepFails` | scripts/micro_benchmarks.py:314-326 | `__main` returns 0 iff no step of its try body raises |
| `Driver.ArgparseExitReturnsOne` | scripts/micro_benchmarks.py:321-326 | argparse's exit, including for `--help`, is swallowed: the execution ends with that `SystemExit` in flight after only the runtime check and the parse, the error lines logged for it are none, and `__main` returns 1 |
| `Driver.DecimalStringRoundTrip` | scripts/micro_benchmarks.py:315-320 | `str(n)` of a non-negative integer, as logged for exit statuses and errnos, is a non-empty string of digits without a leading zero whose decimal value is `n` |
| `Driver.DecimalStringNegative` | scripts/micro_benchmarks.py:315-317 | `str(n)` of a negative integer is `-` followed by `str(-n)` |
| `Driver.ErrorMessagesShape` | scripts/micro_benchmarks.py:315-325 | each `except` clause logs one line for CalledProcessError and IOError, two for another Exception with the traceback second, none for SystemExit; a failed command's line starts with `Command: "<cmd>` and ends with its exit status |
| `Driver.BareIOErrorMessage` | scripts/micro_benchmarks.py:318-320 | an IOError raised without errno, strerror and filename logs `I/O error (None): None: None` |
| `Driver.MainBody` | scripts/micro_benchmarks.py:274-314 | the try body carries the state through the whole plan of `__main`, stopping at the first exception |
| `Driver.RunFrameworks` | scripts/micro_benchmarks.py:291-312 | the framework loop builds the run arguments afresh for each framework and runs them in list order, stopping at the first exception |
| `Driver.MicroBenchmarksMain` | scripts/micro_benchmarks.py:273-326 | `__main` returns the classified exit code; a caught exception's error lines are appended to the log and the exception is cleared; an uncaught one stays in flight |

## Left out

- argparse itself is not modelled: `add_argument`, `parse_args`, `choices`, `required`, `nargs` and how it produces `SystemExit`. Argument parsing is one external step (`ProcessArguments`) whose outcome is decided by the oracle. The parsed namespace is given as an `Options` record. This also covers `type=str.lower` and the `coreclr`/`corefx` choices of `--category`, and the `yes`/`no` choices of `--incremental`.
- `__valid_file_path` (`path.abspath`, `path.isfile`) is not modelled because it is filesystem access. `--corerun` and `--cli` arrive as already-checked strings.
- The CSV reader under `__get_bdn_arguments` is not modelled because it is a foreign library. It is a parameter that maps the input to its records.
- `get_repo_root_path`, `path.join` and `remove_directory` are not modelled because they are filesystem access. The three folders are opaque strings in a `Layout`. Whether a removal fails is up to the oracle.
- `dotnet.CSharpProject.restore/build/run`, `dotnet.info` and `validate_supported_runtime` are not modelled because they are subprocess calls. They are events whose outcome the oracle decides.
- `setup_loggers` and the logger itself are not modelled because they are output sinks. Log output is the list of `Header`/`LogError` events. `format_exc()` and `sys.exc_info()[0]` are opaque strings carried by the exception.
- `sys.platform` is a parameter.
- `str.casefold` is ASCII lower-casing only.
- The `Invalid choice(s): …` error of `TargetFrameworkAction` is modelled as the action is written, but it is not reachable from the command line. `--frameworks` also has `choices=` (line 118), and argparse checks each value against `choices` before it calls the action. So for `-f bogus1 netcoreapp3.0 bogus2` the program reports only `bogus1`, through argparse's own `invalid choice` error, which is part of the parse step.
- `ex.cmd` of a CalledProcessError is an opaque string; when it is a list, Python logs its `repr`, which is not modelled.
- The `if __name__ == "__main__": exit(...)` line is not modelled.
- Frameworks.ListOfSet: promises no order for the stored frameworks, because Python's `set` iteration order is unspecified.
