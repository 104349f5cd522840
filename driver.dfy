/** The driver `__config_t::run_tests` of tiny_framework.h, with its filter:
    every registered case runs in registration order between an "Enter:" and
    a "Leave:" trace, the report callback counts ok and err reports, a case
    that reports nothing draws a warning, and a summary line goes to standard
    error. In the C++ source these are members of `__config_t`; here they sit
    above the registry they run, taking the configuration as a parameter. */
module Driver {
  import opened Text
  import opened Printer
  import opened Configuration
  import opened Checks
  import opened Registry

  /** What the driver sees of one registry entry before the run: its name,
      its body and the context list pending in its case object. */
  datatype CaseSpec = CaseSpec(name: string, body: seq<Step>, info: seq<string>)

  /** The case objects of the registry. */
  function Cases(tests: seq<TestInfo>): set<TestCase> {
    set i | 0 <= i < |tests| :: tests[i].test
  }

  /** The registry as the driver is about to see it. */
  ghost function Snapshot(tests: seq<TestInfo>): (r: seq<CaseSpec>)
    reads Cases(tests)
    ensures |r| == |tests|
    ensures forall i :: 0 <= i < |tests| ==>
              r[i] == CaseSpec(tests[i].name, tests[i].test.body, tests[i].test.listInfo)
    decreases |tests|
  {
    if tests == [] then []
    else
      assert Cases(tests[1..]) <= Cases(tests) by {
        forall i | 0 <= i < |tests[1..]| ensures tests[1..][i].test in Cases(tests) {
          assert tests[1..][i] == tests[i + 1];
        }
      }
      [CaseSpec(tests[0].name, tests[0].test.body, tests[0].test.listInfo)] + Snapshot(tests[1..])
  }

  /** `filter`: selection by name is not implemented, every case runs. */
  function Filter(name: string): bool {
    true
  }

  function WarningLog(name: string): string {
    "[warning] Test case " + name + " doesn't check anything"
  }

  /** The report of a case that ran `ran` checks, `failed` of them failing
      (the source spells it "cheks"). */
  function InfoLog(name: string, ran: nat, failed: nat): string {
    Concat(["[info] Test case ", name, " ran ", NatToString(ran), " cheks (",
            NatToString(failed), " of them failed)"])
  }

  /** The trace after a case: the warning at level Message when it made no
      report at all, the count of its checks at level All otherwise. */
  function Verdict(level: Level, name: string, ranChecks: nat, ranErrors: nat): string {
    if ranChecks == 0 && ranErrors == 0 then TraceText(level, Level.Message, WarningLog(name))
    else TraceText(level, All, InfoLog(name, ranChecks + ranErrors, ranErrors))
  }

  /** Totals of a run: cases run, ok reports, err reports, and standard output. */
  datatype RunResult = RunResult(count: nat, checks: nat, errors: nat, text: string)

  /** One iteration of the driver loop for one entry. */
  function EntryResult(level: Level, s: CaseSpec): RunResult {
    var enter := TraceText(level, TestCaseName, "Enter: " + s.name);
    var leave := TraceText(level, TestCaseName, "Leave: " + s.name);
    if Filter(s.name) then
      var r := RunSteps(level, s.name, s.info, s.body);
      RunResult(1, r.checks, r.errors, enter + (r.text + Verdict(level, s.name, r.checks, r.errors)) + leave)
    else Skipped(enter + leave)
  }

  /** An entry the filter leaves out: traced, but neither run nor counted. */
  function Skipped(text: string): RunResult {
    RunResult(0, 0, 0, text)
  }

  /** The context list a case object holds after its iteration. */
  function InfoAfter(level: Level, s: CaseSpec): seq<string> {
    if Filter(s.name) then RunSteps(level, s.name, s.info, s.body).info else s.info
  }

  /** Totals of one part of a run followed by those of the next. */
  function Combine(a: RunResult, b: RunResult): RunResult {
    RunResult(a.count + b.count, a.checks + b.checks, a.errors + b.errors, a.text + b.text)
  }

  lemma CombineAssociative(a: RunResult, b: RunResult, c: RunResult)
    ensures Combine(a, Combine(b, c)) == Combine(Combine(a, b), c)
  {
    AppendAssociative(a.text, b.text, c.text);
  }

  /** The driver loop over the entries, in order. */
  function RunCases(level: Level, specs: seq<CaseSpec>): RunResult
    decreases |specs|
  {
    if specs == [] then RunResult(0, 0, 0, "")
    else Combine(EntryResult(level, specs[0]), RunCases(level, specs[1..]))
  }

  /** The text after the count of failures, empty when nothing failed. */
  function ErrorsReport(errors: nat): string {
    if errors > 0 then NatToString(errors) + " checks failed." else ""
  }

  /** The line `run_tests` writes to standard error at the end. */
  function SummaryLine(count: nat, errors: nat): string {
    "*** run " + NatToString(count) + " tests. " + ErrorsReport(errors) + "\n"
  }

  /** Every entry is counted as a run case, since the filter keeps them all. */
  lemma {:induction false} RunCountsEveryEntry(level: Level, specs: seq<CaseSpec>)
    ensures RunCases(level, specs).count == |specs|
    decreases |specs|
  {
    if specs != [] {
      RunCountsEveryEntry(level, specs[1..]);
    }
  }

  /** Entries run in registration order: the run of a registry extended by
      more entries is the run of the first ones, followed by the run of the
      later ones. */
  lemma {:induction false} RunCasesAppend(level: Level, a: seq<CaseSpec>, b: seq<CaseSpec>)
    ensures RunCases(level, a + b) == Combine(RunCases(level, a), RunCases(level, b))
    decreases |a|
  {
    if a == [] {
      assert a + b == b;
    } else {
      assert (a + b)[0] == a[0];
      assert (a + b)[1..] == a[1..] + b;
      RunCasesAppend(level, a[1..], b);
      CombineAssociative(EntryResult(level, a[0]), RunCases(level, a[1..]), RunCases(level, b));
    }
  }

  /** The error total is zero iff no body holds a failing check: a failure
      always makes an err report, and err reports come only from failures. */
  lemma {:induction false} NoErrorsIffAllChecksPass(level: Level, specs: seq<CaseSpec>)
    ensures RunCases(level, specs).errors == 0 <==>
            forall i :: 0 <= i < |specs| ==> CountFailed(specs[i].body) == 0
    decreases |specs|
  {
    if specs != [] {
      var s := specs[0];
      var r := RunSteps(level, s.name, s.info, s.body);
      assert RunCases(level, specs).errors == r.errors + RunCases(level, specs[1..]).errors;
      ReportsMatchChecks(level, s.name, s.info, s.body);
      NoErrorsIffAllChecksPass(level, specs[1..]);
      assert forall i :: 1 <= i < |specs| ==> specs[i] == specs[1..][i - 1];
    }
  }

  /** The warning follows a case exactly when its body holds no check;
      otherwise the count it reports is the number of checks that ran,
      which is all of them unless a REQUIRE failed. */
  lemma WarningIffNoChecks(level: Level, s: CaseSpec)
    ensures var r := RunSteps(level, s.name, s.info, s.body);
            Verdict(level, s.name, r.checks, r.errors) ==
              if CountChecks(s.body) == 0 then TraceText(level, Level.Message, WarningLog(s.name))
              else TraceText(level, All, InfoLog(s.name, r.checks + r.errors, r.errors))
    ensures var r := RunSteps(level, s.name, s.info, s.body);
            !r.stopped ==> r.checks + r.errors == CountChecks(s.body)
  {
    SilentIffNoChecks(level, s.name, s.info, s.body);
    ReportsMatchChecks(level, s.name, s.info, s.body);
  }

  /** The summary names the number of failed checks iff there is at least one. */
  lemma SummaryReportsFailures(count: nat, errors: nat)
    ensures errors > 0 ==> Contains(SummaryLine(count, errors), NatToString(errors) + " checks failed.")
    ensures errors == 0 ==> !Contains(SummaryLine(count, errors), "checks failed.")
  {
    if errors > 0 {
      ContainsMiddle("*** run " + NatToString(count) + " tests. ", NatToString(errors) + " checks failed.", "\n");
    } else {
      var digits := NatToString(count);
      assert 'c' !in digits by {
        forall k | 0 <= k < |digits| ensures digits[k] != 'c' {
          assert IsDigit(digits[k]);
        }
      }
      var line := SummaryLine(count, errors);
      assert line == "*** run " + digits + " tests. " + "\n";
      MissingCharNotContained(line, "checks failed.", 0);
    }
  }

  /** At level Error a run writes nothing to standard output unless a check
      fails: passing checks, messages, names and verdicts are all hidden. */
  lemma {:induction false} QuietUnlessFailure(specs: seq<CaseSpec>)
    requires forall i :: 0 <= i < |specs| ==> CountFailed(specs[i].body) == 0
    ensures RunCases(Error, specs).text == ""
    decreases |specs|
  {
    if specs != [] {
      QuietCase(specs[0].name, specs[0].info, specs[0].body);
      assert forall i :: 0 <= i < |specs[1..]| ==> specs[1..][i] == specs[i + 1];
      QuietUnlessFailure(specs[1..]);
    }
  }

  lemma {:induction false} QuietCase(name: string, info: seq<string>, steps: seq<Step>)
    requires CountFailed(steps) == 0
    ensures RunSteps(Error, name, info, steps).text == ""
    decreases |steps|
  {
    if steps != [] {
      var first := StepResult(Error, name, info, steps[0]);
      assert first.text == "";
      QuietCase(name, first.info, steps[1..]);
    }
  }

  /** The trace after a case, chosen from what the case added to the counters. */
  method TraceVerdict(cfg: Config, out: Stream, name: string, ranChecks: nat, ranErrors: nat)
    modifies out
    ensures out.text == old(out.text) + Verdict(cfg.level, name, ranChecks, ranErrors)
  {
    if ranChecks == 0 && ranErrors == 0 {
      cfg.Trace(out, Level.Message, WarningLog(name));
    } else {
      cfg.Trace(out, All, InfoLog(name, ranChecks + ranErrors, ranErrors));
    }
  }

  /** The filtered part of one iteration: call the case with the report
      callback, then trace the warning or the count of its checks from the
      difference the call made to the counters. */
  method RunCase(cfg: Config, t: TestCase, counters: Counters, out: Stream)
    modifies t, counters, out
    ensures var r := RunSteps(cfg.level, t.testName, old(t.listInfo), t.body);
            counters.checks == old(counters.checks) + r.checks &&
            counters.errors == old(counters.errors) + r.errors &&
            out.text == old(out.text) + (r.text + Verdict(cfg.level, t.testName, r.checks, r.errors)) &&
            t.listInfo == r.info
  {
    ghost var start := out.text;
    ghost var r := RunSteps(cfg.level, t.testName, t.listInfo, t.body);
    var storedChecks, storedErrors := counters.checks, counters.errors;
    t.Invoke(cfg, counters, out);
    TraceVerdict(cfg, out, t.testName, counters.checks - storedChecks, counters.errors - storedErrors);
    AppendAssociative(start, r.text, Verdict(cfg.level, t.testName, r.checks, r.errors));
  }

  /** One iteration of the loop in `run_tests` for the entry `e`. */
  method RunEntry(cfg: Config, e: TestInfo, counters: Counters, out: Stream) returns (counted: int)
    requires e.name == e.test.testName
    modifies e.test, counters, out
    ensures var r := EntryResult(cfg.level, CaseSpec(e.name, e.test.body, old(e.test.listInfo)));
            counted == r.count &&
            counters.checks == old(counters.checks) + r.checks &&
            counters.errors == old(counters.errors) + r.errors &&
            out.text == old(out.text) + r.text
    ensures e.test.listInfo == InfoAfter(cfg.level, CaseSpec(e.name, e.test.body, old(e.test.listInfo)))
  {
    ghost var start := out.text;
    ghost var run := RunSteps(cfg.level, e.name, e.test.listInfo, e.test.body);
    ghost var enter := TraceText(cfg.level, TestCaseName, "Enter: " + e.name);
    ghost var leave := TraceText(cfg.level, TestCaseName, "Leave: " + e.name);
    cfg.Trace(out, TestCaseName, "Enter: " + e.name);
    if Filter(e.name) {
      RunCase(cfg, e.test, counters, out);
      counted := 1;
    } else {
      counted := 0;
    }
    cfg.Trace(out, TestCaseName, "Leave: " + e.name);
    ghost var body := run.text + Verdict(cfg.level, e.name, run.checks, run.errors);
    AppendAssociative(start, enter, body);
    AppendAssociative(start, enter + body, leave);
  }

  /** The run from entry `i` on is entry `i` followed by the run from `i + 1`. */
  lemma RunCasesFrom(level: Level, specs: seq<CaseSpec>, i: nat)
    requires i < |specs|
    ensures RunCases(level, specs[i..]) == Combine(EntryResult(level, specs[i]), RunCases(level, specs[i + 1..]))
  {
    assert specs[i..][0] == specs[i] && specs[i..][1..] == specs[i + 1..];
  }

  /** The loop of `run_tests` over the entries, with the report callback's
      counters and the count of cases run. */
  method RunAll(cfg: Config, tests: seq<TestInfo>, counters: Counters, out: Stream) returns (count: nat)
    requires NamedAfterCases(tests) && DistinctCases(tests)
    modifies counters, out, Cases(tests)
    ensures var r := RunCases(cfg.level, old(Snapshot(tests)));
            count == r.count &&
            counters.checks == old(counters.checks) + r.checks &&
            counters.errors == old(counters.errors) + r.errors &&
            out.text == old(out.text) + r.text
    ensures forall i :: 0 <= i < |tests| ==>
              tests[i].test.listInfo == InfoAfter(cfg.level, old(Snapshot(tests))[i])
  {
    ghost var specs := Snapshot(tests);
    ghost var total := RunCases(cfg.level, specs);
    count := 0;
    var i := 0;
    while i < |tests|
      invariant 0 <= i <= |tests|
      invariant var rest := RunCases(cfg.level, specs[i..]);
                count + rest.count == total.count &&
                counters.checks + rest.checks == old(counters.checks) + total.checks &&
                counters.errors + rest.errors == old(counters.errors) + total.errors &&
                out.text + rest.text == old(out.text) + total.text
      invariant forall j :: 0 <= j < i ==> tests[j].test.listInfo == InfoAfter(cfg.level, specs[j])
      invariant forall j :: i <= j < |tests| ==> tests[j].test.listInfo == specs[j].info
    {
      var e := tests[i];
      RunCasesFrom(cfg.level, specs, i);
      ghost var before := out.text;
      ghost var first := EntryResult(cfg.level, specs[i]);
      ghost var next := RunCases(cfg.level, specs[i + 1..]);
      var counted := RunEntry(cfg, e, counters, out);
      count := count + counted;
      AppendAssociative(before, first.text, next.text);
      i := i + 1;
    }
  }

  /** `run_tests`: run every entry in order, then write the summary to
      standard error; the result is always 0. */
  method RunTests(cfg: Config, obj: Registry, out: Stream, err: Stream) returns (status: int)
    requires obj.Valid()
    requires out != err
    modifies out, err, Cases(obj.tests)
    ensures status == 0
    ensures var r := RunCases(cfg.level, old(Snapshot(obj.tests)));
            out.text == old(out.text) + r.text &&
            err.text == old(err.text) + SummaryLine(r.count, r.errors)
    ensures forall i :: 0 <= i < |obj.tests| ==>
              obj.tests[i].test.listInfo == InfoAfter(cfg.level, old(Snapshot(obj.tests))[i])
  {
    var counters := new Counters();
    var count := RunAll(cfg, obj.tests, counters, out);
    err.text := err.text + SummaryLine(count, counters.errors);
    status := 0;
  }

  /** Totals of a run of two entries. */
  lemma TwoEntryTotals(level: Level, s1: CaseSpec, s2: CaseSpec)
    ensures var r := RunCases(level, [s1, s2]);
            var r1 := RunSteps(level, s1.name, s1.info, s1.body);
            var r2 := RunSteps(level, s2.name, s2.info, s2.body);
            r.count == 2 && r.checks == r1.checks + r2.checks && r.errors == r1.errors + r2.errors
  {
    assert [s1, s2][1..] == [s2] && [s2][1..] == [];
    assert RunCases(level, [s2]) == Combine(EntryResult(level, s2), RunCases(level, []));
    assert RunCases(level, [s1, s2]) == Combine(EntryResult(level, s1), RunCases(level, [s2]));
  }

  /** Two cases, the first with two checks that pass and the second with one
      check that fails: two cases run, two ok reports and one err report are
      made, and the summary says "1 checks failed.". */
  lemma OneFailureRun(level: Level, s1: CaseSpec, s2: CaseSpec)
    requires CountChecks(s1.body) == 2 && CountFailed(s1.body) == 0
    requires CountChecks(s2.body) == 1 && CountFailed(s2.body) == 1
    ensures var r := RunCases(level, [s1, s2]);
            r.count == 2 && r.checks == 2 && r.errors == 1 &&
            Contains(SummaryLine(r.count, r.errors), "1 checks failed.")
  {
    TwoEntryTotals(level, s1, s2);
    ReportsMatchChecks(level, s1.name, s1.info, s1.body);
    ReportsMatchChecks(level, s2.name, s2.info, s2.body);
    OneFailureSummary();
  }

  /** The summary of two cases with one failed check names that failure. */
  lemma OneFailureSummary()
    ensures Contains(SummaryLine(2, 1), "1 checks failed.")
  {
    SummaryReportsFailures(2, 1);
    assert NatToString(1) + " checks failed." == "1 checks failed.";
  }

  /** The summary after three cases without a failure. */
  lemma ThreeCasesNoFailureSummary()
    ensures SummaryLine(3, 0) == "*** run 3 tests. \n"
  {
    assert NatToString(3) == "3";
  }

  /** A run in which every check passes, at level Error: every entry is
      counted, no err report is made and standard output stays empty. */
  lemma CleanRunAtErrorLevel(specs: seq<CaseSpec>)
    requires forall i :: 0 <= i < |specs| ==> CountFailed(specs[i].body) == 0
    ensures RunCases(Error, specs).count == |specs|
    ensures RunCases(Error, specs).errors == 0
    ensures RunCases(Error, specs).text == ""
  {
    QuietUnlessFailure(specs);
    NoErrorsIffAllChecksPass(Error, specs);
    RunCountsEveryEntry(Error, specs);
  }

  /** No check in part1.cpp fails. */
  lemma Part1ChecksPass()
    ensures CountFailed(NestedCase1) == 0 && CountFailed(Case2) == 0 && CountFailed(Case1) == 0
  {
  }

  /** The `main` that `TESTS_BEGIN` defines: a fresh configuration parses
      the arguments; on failure the program returns 1 after the usage text,
      otherwise it returns what `run_tests` returns at the parsed level. */
  method RunProgram(args: seq<string>, obj: Registry, out: Stream, err: Stream) returns (status: int)
    requires obj.Valid()
    requires out != err
    modifies out, err, Cases(obj.tests)
    ensures var p := ParseOptions(Error, Options(args));
            !p.ok ==> status == 1 && |args| >= 2 && out.text == old(out.text) &&
                      err.text == old(err.text) + HelpText(args[0])
    ensures var p := ParseOptions(Error, Options(args));
            var r := RunCases(p.level, old(Snapshot(obj.tests)));
            p.ok ==> status == 0 && out.text == old(out.text) + r.text &&
                     err.text == old(err.text) + SummaryLine(r.count, r.errors)
    ensures !ParseOptions(Error, Options(args)).ok ==> unchanged(Cases(obj.tests))
    ensures ParseOptions(Error, Options(args)).ok ==>
              forall i :: 0 <= i < |obj.tests| ==>
                obj.tests[i].test.listInfo == InfoAfter(ParseOptions(Error, Options(args)).level, old(Snapshot(obj.tests))[i])
  {
    ghost var specs := Snapshot(obj.tests);
    var cfg := new Config();
    var ok := cfg.ParseArgs(args, err);
    ghost var p := ParseOptions(Error, Options(args));
    assert ok == p.ok && cfg.level == p.level;
    if !ok {
      return 1;
    }
    assert Snapshot(obj.tests) == specs;
    status := RunTests(cfg, obj, out, err);
  }

  /** A program started without options whose checks all pass writes nothing
      to standard output and only the summary, with every entry counted and
      no failure, to standard error. */
  method CleanProgramRun(name: string, obj: Registry) returns (status: int, stdout: string, stderr: string)
    requires obj.Valid()
    requires forall i :: 0 <= i < |obj.tests| ==> CountFailed(obj.tests[i].test.body) == 0
    modifies Cases(obj.tests)
    ensures status == 0 && stdout == "" && stderr == SummaryLine(|obj.tests|, 0)
  {
    var out := new Stream();
    var err := new Stream();
    ghost var specs := Snapshot(obj.tests);
    CleanRunAtErrorLevel(specs);
    status := RunProgram([name], obj, out, err);
    stdout, stderr := out.text, err.text;
  }

  /** demo-test-framework/part1.cpp run with no options: every check passes,
      so nothing reaches standard output and the summary counts three cases
      and no failure. */
  method Part1RunExample()
  {
    var obj := Part1Example();
    Part1ChecksPass();
    var status, stdout, stderr := CleanProgramRun("part1", obj);
    ThreeCasesNoFailureSummary();
    assert status == 0 && stdout == "";
    assert stderr == "*** run 3 tests. \n";
  }
}
