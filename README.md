# Tiny test framework: a Dafny model

This project models the two runtime components of the header-only C++ test
harness in `src/include/test_framework/`.

- **The variadic printer** (`tools.h`), in module `Printer`.
  - `PrintBaseT` writes its arguments to a stream with the separator strictly between consecutive values.
  - It does this through fixed-arity overloads for one to five arguments, plus an overload for six or more that writes five values, a separator, and then recurses on the rest.
  - `PrintBaseLnT` does the same and then ends the line, but only when it has at least one argument.
  - A stream is the text written to it so far (`Stream.text`), and every write appends to it.
  - Both printers are proved against one function, `Join`.
  - The lemmas about `Join` state the missing leading and trailing separators, the n - 1 separators, the length, and that the six-or-more overload's split equals the flat join.
- **The harness** (`tiny_framework.h`), in modules `Configuration`, `Checks`, `Registry` and `Driver`:
  - `__config_t`: the four verbosity levels, `parse_args`, the `trace` gate and `print_help`.
  - The check macros (`TEST_BASE_CHECK`, `TEST_BASE_EQUAL` and the four macros built on them, `TEST_INFO`, `TEST_MESSAGE`), acting on the case object's pending context list and on the report callback's counters.
  - The registry `__static_test_object_t`, with its suite stack. It is filled by `TEST_SUITE_BEGIN`/`TEST_SUITE_END` (`__add_remove_suite_t`) and `TEST_CASE` (the qualified-name loop and `__add_test_t`).
  - The driver `run_tests`, with `filter`, and the `main` that `TESTS_BEGIN` defines.

Each state-changing C++ operation is a method of a class with the same fields:
- `Config.level`
- `TestCase.listInfo`
- `Counters.checks`/`errors`
- `Registry.tests`/`suites`
- `Stream.text`

Each method is proved against a pure function:
- `ParseOptions`, `TraceText`, `CheckText`, `StepResult`/`RunSteps`, `SuitePrefix`, `EntryResult`/`RunCases`, `SummaryLine`;
- lemmas then state what the harness promises about those functions.

A case body is C++ code. The harness only sees the framework calls that code makes, each with its outcome. A body is therefore a script of `Step`s:
- a check, with its kind, its outcome, whether it is a REQUIRE, and its file and line;
- a `TEST_INFO`;
- a `TEST_MESSAGE`.

The expression texts, values, file names and line numbers are the strings the macros would print.

`run_tests` and `filter` are members of `__config_t` in the source. Here they are module-level members of `Driver`, taking the configuration as a parameter, because they need the case objects. Those objects are defined above `Configuration`.

## Model

| member | source | states |
|---|---|---|
| Text.NatToString | src/include/test_framework/tiny_framework.h:140-142 | the decimal rendering `std::to_string` gives a count: at least one character, digits only, a single digit exactly for values below ten |
| Text.NatToStringValue | src/include/test_framework/tiny_framework.h:149 | the rendered digits denote the count itself, with no leading zero unless the count is 0 |
| Printer.JoinEnds | src/include/test_framework/tools.h:32-55 | the printed text starts with the first value and ends with the last one: no separator leads or trails |
| Printer.JoinAppend | src/include/test_framework/tools.h:63-71 | printing two non-empty runs of values puts exactly one separator between the two outputs |
| Printer.JoinSplitsAfterFive | src/include/test_framework/tools.h:63-71 | the six-or-more overload's output (five values, one separator, then the rest printed recursively) equals the flat join of all values |
| Printer.JoinLength | src/include/test_framework/tools.h:32-55 | printing n >= 1 values writes the values' characters plus exactly n - 1 more |
| Printer.JoinSeparatorCount | src/include/test_framework/tools.h:32-55 | printing n >= 1 values adds exactly n - 1 separator characters to those inside the values |
| Printer.PrintBase.constructor | src/include/test_framework/tools.h:22-23 | a printer keeps the separator it is built with; a single space unless another one is given |
| Printer.PrintBase.CallFixed | src/include/test_framework/tools.h:27-55 | the one- to five-argument overloads append the arguments joined by the separator, and only append |
| Printer.PrintBase.Call | src/include/test_framework/tools.h:25-72 | every overload, the recursive one included, appends exactly the join of its arguments; nothing for no arguments |
| Printer.PrintBase.Apply | src/include/test_framework/tools.h:74-77 | `operator()` appends the join of its arguments with the printer's own separator |
| Printer.PrintBaseLn.constructor | src/include/test_framework/tools.h:88-89 | a line printer keeps its separator; a single space by default |
| Printer.PrintBaseLn.Apply | src/include/test_framework/tools.h:91-97 | with at least one argument it appends the join and one newline; with none it appends nothing, not even a newline |
| Configuration.GateBounds | src/include/test_framework/tiny_framework.h:108-113 | a trace prints iff its kind is at most the level, and then it prints the whole message on one line; errors always print; level ALL prints everything |
| Configuration.GateMonotone | src/include/test_framework/tiny_framework.h:76-81 | in the order ERROR < MESSAGE < TEST_CASE_NAME < ALL, raising the level never hides a trace a lower level shows |
| Configuration.ParseOkIffAllRecognised | src/include/test_framework/tiny_framework.h:87-105 | parsing succeeds iff every option is one of the four `--log_level=` options |
| Configuration.LastLevelOptionWins | src/include/test_framework/tiny_framework.h:92-99 | after a successful parse the level is the one named by the last option |
| Configuration.HelpStopsTheRun | src/include/test_framework/tiny_framework.h:89-91 | `--help` anywhere among the options makes parsing fail |
| Configuration.Config.constructor | src/include/test_framework/tiny_framework.h:166 | a fresh configuration has level ERROR |
| Configuration.Config.ParseArgs | src/include/test_framework/tiny_framework.h:83-106 | fewer than two arguments succeed and keep the level; otherwise options are applied left to right; `--help` or an unknown option writes the usage text to stderr and fails at once; success writes nothing |
| Configuration.Config.PrintHelp | src/include/test_framework/tiny_framework.h:155-159 | appends the usage text, naming the program, to stderr |
| Configuration.Config.Trace | src/include/test_framework/tiny_framework.h:108-113 | appends the message and a newline through `println` iff the kind is enabled, otherwise nothing |
| Checks.ContextTextAppend | src/include/test_framework/tiny_framework.h:277-279 | context lines come out in the order the infos were added, one per info |
| Checks.ReportsMatchChecks | src/include/test_framework/tiny_framework.h:260-315 | every check that runs makes exactly one report. A body not cut short makes one per check, with one err report per failing check. A body cut short made at least one err report. Err reports never exceed the failing checks |
| Checks.SilentIffNoChecks | src/include/test_framework/tiny_framework.h:260-315 | a body makes no report at all iff it holds no check |
| Checks.RequireFailureStopsCase | src/include/test_framework/tiny_framework.h:282-284 | after a failed REQUIRE nothing else in the body runs, whatever follows it |
| Checks.CheckLeavesNoInfo | src/include/test_framework/tiny_framework.h:260-285 | after any check, passed or failed, the pending context list is empty |
| Checks.CheckClearsInfo | src/include/test_framework/tiny_framework.h:353-357 | after a check, the rest of the body runs exactly as with nothing pending, so no context leaks into a later failure |
| Checks.RequireStopsExample | src/include/test_framework/tiny_framework.h:27-32 | the usage comment's `case_name2`, with one `TEST_INFO` added before its failing `TEST_REQUIRE(p)`: the context line, then the "(required check)" error line; it makes one err report; the check after it never runs |
| Checks.Counters.constructor | src/include/test_framework/tiny_framework.h:116-118 | both counters start at zero |
| Checks.Counters.Report | src/include/test_framework/tiny_framework.h:119-125 | an ok report adds one to `checks`, an err report adds one to `errors`, and nothing else changes |
| Checks.TestCase.constructor | src/include/test_framework/tiny_framework.h:233-247 | a case object holds its qualified name, its body and an empty context list |
| Checks.TestCase.Copy | src/include/test_framework/tiny_framework.h:176-180 | the copy stored in the registry has the same name, body and context list |
| Checks.TestCase.AddInfo | src/include/test_framework/tiny_framework.h:357 | `TEST_INFO` appends its message to the pending list and prints nothing |
| Checks.TestCase.Check | src/include/test_framework/tiny_framework.h:260-315 | one ok or err report; the ok trace, or the context lines then the error line; the list cleared on both branches; abort iff a REQUIRE failed |
| Checks.TestCase.PrintContext | src/include/test_framework/tiny_framework.h:277-279 | one error-level "Failed in context:" line per pending info, in order |
| Checks.TestCase.Perform | src/include/test_framework/tiny_framework.h:349-357 | one framework call of a body has the effect `StepResult` gives it: on the counters, the output, the list, and whether the body returns |
| Checks.TestCase.Invoke | src/include/test_framework/tiny_framework.h:253-255 | running the body changes counters, output and context list exactly as `RunSteps` says, stopping at a failed REQUIRE |
| Registry.SuitePrefixIsJoin | src/include/test_framework/tiny_framework.h:237-242 | with suites open, the accumulated prefix is the suites joined by "/", plus a final "/" |
| Registry.QualifiedNameIsJoin | src/include/test_framework/tiny_framework.h:237-242 | a qualified name is the open suites and the case name joined by the separator: suites a, b and case c give "a/b/c" |
| Registry.SuitePrefixInjective | src/include/test_framework/tiny_framework.h:237-242 | suite stacks of separator-free names that give the same prefix are the same stack |
| Registry.DistinctSuitesGiveDistinctNames | src/include/test_framework/tiny_framework.h:208-211 | the same case name under two suite stacks gets the same qualified name iff the stacks are equal |
| Registry.Registry.constructor | src/include/test_framework/tiny_framework.h:66-70 | the registry starts with no case and no open suite, so its invariant holds; its separator is "/" |
| Registry.Registry.EnterSuite | src/include/test_framework/tiny_framework.h:170-172 | opening a suite appends its name to the stack; the cases are unchanged |
| Registry.Registry.LeaveSuite | src/include/test_framework/tiny_framework.h:173 | closing a suite needs one open; it removes exactly the last name and keeps the rest and the cases |
| Registry.Registry.TestName | src/include/test_framework/tiny_framework.h:234-243 | the accumulation loop yields each open suite followed by the separator, then the case name |
| Registry.Registry.AddTest | src/include/test_framework/tiny_framework.h:176-181 | exactly one entry is appended at the end and earlier entries are unchanged; the entry holds a fresh copy of the case under its name |
| Registry.Registry.DeclareCase | src/include/test_framework/tiny_framework.h:232-252 | `TEST_CASE` appends one entry named with the current suites, with the body and an empty context list |
| Registry.Part1Example | src/tests/demo-test-framework/part1.cpp:3-23 | the registrations of part1.cpp give "suite_part1/suite_nested/case1", "suite_part1/case2" and "suite_part1/case1", in that order |
| Driver.RunCountsEveryEntry | src/include/test_framework/tiny_framework.h:161-164 | since the filter keeps every entry, the case count equals the number of entries |
| Driver.RunCasesAppend | src/include/test_framework/tiny_framework.h:126 | entries run in registration order: the run of a longer registry is the earlier entries' run followed by the later ones' |
| Driver.NoErrorsIffAllChecksPass | src/include/test_framework/tiny_framework.h:119-125 | the error total is zero iff no body holds a failing check |
| Driver.WarningIffNoChecks | src/include/test_framework/tiny_framework.h:133-143 | the warning, at level MESSAGE, follows a case iff its body holds no check. Otherwise the ALL-level count follows, which is every check unless a REQUIRE failed |
| Driver.SummaryReportsFailures | src/include/test_framework/tiny_framework.h:147-151 | the summary contains "K checks failed." when K > 0, and "checks failed." not at all when K = 0 |
| Driver.QuietUnlessFailure | src/include/test_framework/tiny_framework.h:108-113 | at level ERROR a run in which every check passes writes nothing to stdout |
| Driver.QuietCase | src/include/test_framework/tiny_framework.h:260-268 | at level ERROR a body without a failing check writes nothing |
| Driver.TraceVerdict | src/include/test_framework/tiny_framework.h:135-143 | appends the MESSAGE-level warning when the case made no report, otherwise the ALL-level line with its report count and failure count |
| Driver.RunCase | src/include/test_framework/tiny_framework.h:129-143 | the case is run; the counter differences give exactly its reports; the warning or the count follows |
| Driver.RunEntry | src/include/test_framework/tiny_framework.h:127-145 | one iteration: "Enter:" and "Leave:" traces around the case and its verdict; it counts as one case |
| Driver.RunAll | src/include/test_framework/tiny_framework.h:126-146 | the loop's counters, case count and output are those of `RunCases`; each case object ends with the context list its run leaves |
| Driver.RunTests | src/include/test_framework/tiny_framework.h:115-153 | returns 0 always; stdout gets the traces of every entry in order; stderr gets one summary line with the case count and the failed-check count |
| Driver.OneFailureRun | src/include/test_framework/tiny_framework.h:147-151 | a case with two passing checks and one with a failing check: two cases, two ok reports, one err report, and "1 checks failed." in the summary |
| Driver.CleanRunAtErrorLevel | src/include/test_framework/tiny_framework.h:115-153 | at level ERROR with every check passing: every entry counted, no failure, empty stdout |
| Driver.RunProgram | src/include/test_framework/tiny_framework.h:199-206 | with bad options `main` returns 1 after the usage text, writes nothing to stdout and leaves every case object untouched; otherwise it runs every case at the parsed level, each case keeping the context list its run leaves, and returns 0 |
| Driver.CleanProgramRun | src/include/test_framework/tiny_framework.h:199-206 | a program started without options whose checks all pass writes only the summary "*** run N tests. " to stderr |

## Left out

- The compile-time utilities under `src/include/mpl/` are not part of this model. They select types at compile time and have no run-time behaviour to state.
- Real I/O is not modelled: `std::cout`, `std::cerr`, `std::endl` and its flush. The two streams are `Stream` objects whose text only grows.
- `argv` is not modelled as C strings: the arguments are a `seq<string>`, and `args[0]` is the program name.
- Values are not formatted by `operator<<` or `std::to_string` of arbitrary types. Each printed value is the string it would produce. Only the counts of `run_tests` and the summary are rendered, by `NatToString`.
- The preprocessor is not modelled: stringification, `__FILE__`/`__LINE__`, and the namespaces that scope suites. Expression texts, file names and line numbers are plain strings inside a `Step`.
- The `TESTS_BEGIN` singletons and the order of static initialisation across translation units are not modelled. The registry is an explicit object, filled by calls in program order.
- A case body is a script of `Step`s, each with a known outcome, not arbitrary code. Code a body runs between framework calls is not modelled.
- `TEST_MESSAGE` uses the global configuration. The model uses the configuration passed to the case, which is the same object in a `TESTS_BEGIN` binary.
- Checks.CheckKind: a failing `TEST_BASE_EQUAL` evaluates `lhs` and `rhs` a second time to print them (tiny_framework.h:291, 305). The model takes one value per operand, so it neither has nor rules out a second evaluation with a different result. An "evaluated exactly once" promise would not match the code, so none is made.
- Checks.Counters.Report: the counters are unbounded naturals. With a 32-bit `unsigned`, the source's `checks` and `errors` reach 2^32 - 1 and wrap to 0 on the next report; the width of `unsigned` is up to the compiler, and the wrap is not modelled.
- Driver.RunTests: the case count is an unbounded natural. In the source it is a signed `int`, so counting past `INT_MAX` cases would be undefined behaviour, which is not modelled.
- Driver.Filter: it always returns true, as in the source. The model keeps the `if (filter(test))` branch, but no lemma covers a filter that rejects entries.
