/** The check primitives of tiny_framework.h (`TEST_BASE_CHECK`,
    `TEST_BASE_EQUAL` and the four macros built on them, `TEST_INFO`,
    `TEST_MESSAGE`), the case object that holds the pending context list, and
    the report callback that counts passed and failed checks.

    A case body is C++ code; what the harness sees of it is the sequence of
    framework calls it makes, each with its outcome. A body is therefore given
    here as a script of `Step`s, and running it interprets that script. */
module Checks {
  import opened Text
  import opened Printer
  import opened Configuration

  /** What a check compares. Expression texts and values are the strings the
      macros print (`#expr`, `#lhs`, `operator<<` of the values). */
  datatype CheckKind =
    | Bool(expr: string, holds: bool)
    | Equal(lhsExpr: string, rhsExpr: string, lhs: string, rhs: string, equal: bool)

  /** One framework call made by a case body. `stop` tells a REQUIRE check
      from a CHECK; `file` and `line` stand for `__FILE__` and `__LINE__`. */
  datatype Step =
    | Check(stop: bool, kind: CheckKind, file: string, line: string)
    | Info(msg: string)
    | Message(msg: string)

  predicate Passed(kind: CheckKind) {
    match kind
    case Bool(_, holds) => holds
    case Equal(_, _, _, _, equal) => equal
  }

  /** The trace of a passed check, printed at level All. */
  function OkLog(kind: CheckKind): string {
    match kind
    case Bool(expr, _) => Concat(["Ok: '", expr, "' passed"])
    case Equal(lhsExpr, rhsExpr, _, _, _) => Concat(["Ok: '", lhsExpr, "=", rhsExpr, "' passed"])
  }

  /** The error line of a failed check; a REQUIRE says so after the tag. */
  function ErrorLog(name: string, stop: bool, kind: CheckKind, file: string, line: string): string {
    var head := ["[error] ", if stop then "(required check)" else "", name, " File: ", file, ":", line, " "];
    match kind
    case Bool(expr, _) => Concat(head + ["'", expr, "'", " failed"])
    case Equal(lhsExpr, rhsExpr, lhs, rhs, _) =>
      Concat(head + [lhsExpr, "==", rhsExpr, " (failed)", "[`", lhs, "` != `", rhs, "`]"])
  }

  const ContextPrefix: string := "   Failed in context:"

  /** The context lines a failed check prints: one error-level trace per
      pending info string, in the order they were added. */
  function ContextText(level: Level, info: seq<string>): string
    decreases |info|
  {
    if info == [] then ""
    else ContextText(level, info[..|info| - 1]) + TraceText(level, Error, ContextPrefix + info[|info| - 1])
  }

  /** The context text of two runs of info strings is the one of the first
      followed by the one of the second: lines keep the order of the infos. */
  lemma {:induction false} ContextTextAppend(level: Level, a: seq<string>, b: seq<string>)
    ensures ContextText(level, a + b) == ContextText(level, a) + ContextText(level, b)
    decreases |b|
  {
    if b == [] {
      assert a + b == a;
    } else {
      var init, last := b[..|b| - 1], b[|b| - 1];
      assert (a + b)[..|a + b| - 1] == a + init;
      ContextTextAppend(level, a, init);
      AppendAssociative(ContextText(level, a), ContextText(level, init),
                        TraceText(level, Error, ContextPrefix + last));
    }
  }

  /** Everything one check prints, given the pending info strings: the ok
      trace when it passed; otherwise the context lines, then the error line. */
  function CheckText(level: Level, name: string, info: seq<string>,
                     stop: bool, kind: CheckKind, file: string, line: string): string
  {
    if Passed(kind) then TraceText(level, All, OkLog(kind))
    else ContextText(level, info) + TraceText(level, Error, ErrorLog(name, stop, kind, file, line))
  }

  /** What running (part of) a case body amounts to: the ok and err reports
      made, the text written to standard output, the info list left pending,
      and whether a failed REQUIRE ended the body. */
  datatype CaseResult = CaseResult(checks: nat, errors: nat, text: string, info: seq<string>, stopped: bool)

  /** One step, starting with `info` pending. A check reports once, prints
      `CheckText` and clears the list; a failed REQUIRE also ends the body. */
  function StepResult(level: Level, name: string, info: seq<string>, s: Step): CaseResult {
    match s
    case Info(msg) => CaseResult(0, 0, "", info + [msg], false)
    case Message(msg) => CaseResult(0, 0, TraceText(level, Level.Message, msg), info, false)
    case Check(stop, kind, file, line) =>
      CaseResult(if Passed(kind) then 1 else 0, if Passed(kind) then 0 else 1,
                 CheckText(level, name, info, stop, kind, file, line), [], stop && !Passed(kind))
  }

  /** Combine the result of a run that went to its end with the result of
      what follows it. */
  function Then(a: CaseResult, b: CaseResult): CaseResult {
    CaseResult(a.checks + b.checks, a.errors + b.errors, a.text + b.text, b.info, b.stopped)
  }

  lemma ThenAssociative(a: CaseResult, b: CaseResult, c: CaseResult)
    ensures Then(a, Then(b, c)) == Then(Then(a, b), c)
  {
    AppendAssociative(a.text, b.text, c.text);
  }

  /** Run the steps of a case body in order, starting with `info` pending,
      up to the end or to the first failed REQUIRE. */
  function RunSteps(level: Level, name: string, info: seq<string>, steps: seq<Step>): CaseResult
    decreases |steps|
  {
    if steps == [] then CaseResult(0, 0, "", info, false)
    else
      var first := StepResult(level, name, info, steps[0]);
      if first.stopped then first
      else Then(first, RunSteps(level, name, first.info, steps[1..]))
  }

  predicate IsCheck(s: Step) {
    s.Check?
  }

  /** Number of checks among the steps, and of those that fail. */
  function CountChecks(steps: seq<Step>): nat
    decreases |steps|
  {
    if steps == [] then 0 else (if IsCheck(steps[0]) then 1 else 0) + CountChecks(steps[1..])
  }

  function CountFailed(steps: seq<Step>): nat
    decreases |steps|
  {
    if steps == [] then 0
    else (if IsCheck(steps[0]) && !Passed(steps[0].kind) then 1 else 0) + CountFailed(steps[1..])
  }

  /** Every check that runs reports exactly once: a body that is not cut short
      makes one report per check and one err report per failed check; one
      that is cut short made at least one err report and at most one report
      per check. No run makes more err reports than the body has failing checks. */
  lemma {:induction false} ReportsMatchChecks(level: Level, name: string, info: seq<string>, steps: seq<Step>)
    ensures var r := RunSteps(level, name, info, steps);
            r.checks + r.errors <= CountChecks(steps) && r.errors <= CountFailed(steps) &&
            (!r.stopped ==> r.checks + r.errors == CountChecks(steps) && r.errors == CountFailed(steps)) &&
            (r.stopped ==> r.errors >= 1)
    decreases |steps|
  {
    if steps != [] {
      var first := StepResult(level, name, info, steps[0]);
      if !first.stopped {
        ReportsMatchChecks(level, name, first.info, steps[1..]);
      }
    }
  }

  /** A body makes no report at all iff it contains no check: nothing before
      the first check can end it early. */
  lemma {:induction false} SilentIffNoChecks(level: Level, name: string, info: seq<string>, steps: seq<Step>)
    ensures var r := RunSteps(level, name, info, steps);
            (r.checks == 0 && r.errors == 0) <==> CountChecks(steps) == 0
    decreases |steps|
  {
    if steps != [] {
      var first := StepResult(level, name, info, steps[0]);
      if !IsCheck(steps[0]) {
        SilentIffNoChecks(level, name, first.info, steps[1..]);
      }
    }
  }

  /** Running two runs of steps one after the other: when the first is not cut
      short, the second starts with the info list the first left pending. */
  lemma {:induction false} RunStepsCompose(level: Level, name: string, info: seq<string>,
                                           a: seq<Step>, b: seq<Step>)
    requires !RunSteps(level, name, info, a).stopped
    ensures RunSteps(level, name, info, a + b)
         == Then(RunSteps(level, name, info, a), RunSteps(level, name, RunSteps(level, name, info, a).info, b))
    decreases |a|
  {
    if a == [] {
      assert a + b == b;
    } else {
      assert (a + b)[0] == a[0];
      assert (a + b)[1..] == a[1..] + b;
      var first := StepResult(level, name, info, a[0]);
      RunStepsCompose(level, name, first.info, a[1..], b);
      var mid := RunSteps(level, name, first.info, a[1..]);
      ThenAssociative(first, mid, RunSteps(level, name, mid.info, b));
    }
  }

  /** A failed REQUIRE ends the case body: whatever follows it does not run. */
  lemma {:induction false} RequireFailureStopsCase(level: Level, name: string, info: seq<string>,
                                                   pre: seq<Step>, s: Step, post: seq<Step>)
    requires IsCheck(s) && s.stop && !Passed(s.kind)
    ensures RunSteps(level, name, info, pre + [s] + post) == RunSteps(level, name, info, pre + [s])
    ensures RunSteps(level, name, info, pre + [s]).stopped
    decreases |pre|
  {
    if pre == [] {
      assert pre + [s] + post == [s] + post;
      assert pre + [s] == [s];
    } else {
      assert (pre + [s] + post)[0] == pre[0] && (pre + [s])[0] == pre[0];
      assert (pre + [s] + post)[1..] == pre[1..] + [s] + post;
      assert (pre + [s])[1..] == pre[1..] + [s];
      var first := StepResult(level, name, info, pre[0]);
      if !first.stopped {
        RequireFailureStopsCase(level, name, first.info, pre[1..], s, post);
      }
    }
  }

  /** Whatever its outcome, a check leaves nothing pending. */
  lemma {:induction false} CheckLeavesNoInfo(level: Level, name: string, info: seq<string>,
                                             pre: seq<Step>, s: Step)
    requires IsCheck(s)
    ensures RunSteps(level, name, info, pre + [s]).info == []
    decreases |pre|
  {
    if pre == [] {
      assert pre + [s] == [s];
    } else {
      assert (pre + [s])[0] == pre[0];
      assert (pre + [s])[1..] == pre[1..] + [s];
      var first := StepResult(level, name, info, pre[0]);
      if !first.stopped {
        CheckLeavesNoInfo(level, name, first.info, pre[1..], s);
      }
    }
  }

  /** Every check clears the pending info list, whatever its outcome: after a
      check that does not end the body, the rest runs exactly as it would with
      nothing pending, so no context leaks into a later failure. */
  lemma CheckClearsInfo(level: Level, name: string, info: seq<string>,
                        pre: seq<Step>, s: Step, post: seq<Step>)
    requires IsCheck(s)
    requires !RunSteps(level, name, info, pre + [s]).stopped
    ensures RunSteps(level, name, info, pre + [s]).info == []
    ensures RunSteps(level, name, info, pre + [s] + post)
         == Then(RunSteps(level, name, info, pre + [s]), RunSteps(level, name, [], post))
  {
    CheckLeavesNoInfo(level, name, info, pre, s);
    RunStepsCompose(level, name, info, pre + [s], post);
  }

  /** `case_name2` of the usage comment at the head of tiny_framework.h, run
      with no option and with one context string added before its failing
      `TEST_REQUIRE(p)`: the context line, then the error line, one err
      report, and the check after it never runs. */
  lemma RequireStopsExample()
    ensures var log := ErrorLog("suite_name1/suite_name2/case_name2", true, Bool("p", false), "f.cpp", "29");
            RunSteps(Error, "suite_name1/suite_name2/case_name2", [],
                     [Info("p is set"), Check(true, Bool("p", false), "f.cpp", "29"),
                      Check(false, Equal("5", "*p", "5", "5", true), "f.cpp", "31")])
              == CaseResult(0, 1, ContextPrefix + "p is set" + "\n" + (log + "\n"), [], true)
  {
    assert ContextText(Error, ["p is set"]) == ContextPrefix + "p is set" + "\n";
  }

  /** The values the report callback receives. */
  datatype CheckReturn = CheckOk | CheckErr

  /** The `checks` and `errors` counters of a run, updated by the report
      callback `run_tests` hands to every case body. */
  class Counters {
    var checks: nat
    var errors: nat

    constructor ()
      ensures checks == 0 && errors == 0
    {
      checks, errors := 0, 0;
    }

    /** One report: an ok report counts a passed check, an err report a failed one. */
    method Report(value: CheckReturn)
      modifies this
      ensures value == CheckOk ==> checks == old(checks) + 1 && errors == old(errors)
      ensures value == CheckErr ==> errors == old(errors) + 1 && checks == old(checks)
    {
      match value
      case CheckErr => errors := errors + 1;
      case CheckOk => checks := checks + 1;
    }
  }

  /** The object a `TEST_CASE` defines: its qualified name, its body, and the
      list of pending context strings. */
  class TestCase {
    const testName: string
    const body: seq<Step>
    var listInfo: seq<string>

    constructor (testName: string, body: seq<Step>)
      ensures this.testName == testName && this.body == body && listInfo == []
    {
      this.testName := testName;
      this.body := body;
      listInfo := [];
    }

    /** A copy of `other`, as storing a case in the registry makes one. */
    constructor Copy(other: TestCase)
      ensures testName == other.testName && body == other.body && listInfo == other.listInfo
    {
      testName := other.testName;
      body := other.body;
      listInfo := other.listInfo;
    }

    /** `TEST_INFO`: remember `msg` for the next check, printing nothing now. */
    method AddInfo(msg: string)
      modifies this
      ensures listInfo == old(listInfo) + [msg]
    {
      listInfo := listInfo + [msg];
    }

    /** `TEST_BASE_CHECK` and `TEST_BASE_EQUAL`: exactly one report, the traces
        of `CheckText`, the pending list cleared on both branches, and `abort`
        set iff a REQUIRE check failed (the body then returns). */
    method Check(cfg: Config, counters: Counters, out: Stream,
                 stop: bool, kind: CheckKind, file: string, line: string) returns (abort: bool)
      modifies this, counters, out
      ensures listInfo == []
      ensures abort == (stop && !Passed(kind))
      ensures Passed(kind) ==> counters.checks == old(counters.checks) + 1 && counters.errors == old(counters.errors)
      ensures !Passed(kind) ==> counters.errors == old(counters.errors) + 1 && counters.checks == old(counters.checks)
      ensures out.text == old(out.text) + CheckText(cfg.level, testName, old(listInfo), stop, kind, file, line)
    {
      if Passed(kind) {
        counters.Report(CheckOk);
        cfg.Trace(out, All, OkLog(kind));
        listInfo := [];
        abort := false;
      } else {
        counters.Report(CheckErr);
        var log := ErrorLog(testName, stop, kind, file, line);
        PrintContext(cfg, out, listInfo);
        listInfo := [];
        cfg.Trace(out, Error, log);
        AppendAssociative(old(out.text), ContextText(cfg.level, old(listInfo)), TraceText(cfg.level, Error, log));
        abort := stop;
      }
    }

    /** The loop over the pending list on a failed check: one error-level
        context trace per info string, in order. */
    static method PrintContext(cfg: Config, out: Stream, info: seq<string>)
      modifies out
      ensures out.text == old(out.text) + ContextText(cfg.level, info)
    {
      var i := 0;
      while i < |info|
        invariant 0 <= i <= |info|
        invariant out.text == old(out.text) + ContextText(cfg.level, info[..i])
      {
        assert info[..i + 1][..i] == info[..i];
        cfg.Trace(out, Error, ContextPrefix + info[i]);
        i := i + 1;
      }
      assert info[..i] == info;
    }

    /** One framework call of the body: `TEST_INFO` remembers its message,
        `TEST_MESSAGE` traces at level Message, a check runs as `Check`.
        `abort` is set iff the body returns here. */
    method Perform(cfg: Config, counters: Counters, out: Stream, s: Step) returns (abort: bool)
      modifies this, counters, out
      ensures var r := StepResult(cfg.level, testName, old(listInfo), s);
              counters.checks == old(counters.checks) + r.checks &&
              counters.errors == old(counters.errors) + r.errors &&
              out.text == old(out.text) + r.text &&
              listInfo == r.info && abort == r.stopped
    {
      match s {
        case Info(msg) =>
          AddInfo(msg);
          abort := false;
        case Message(msg) =>
          cfg.Trace(out, Level.Message, msg);
          abort := false;
        case Check(stop, kind, file, line) =>
          abort := Check(cfg, counters, out, stop, kind, file, line);
      }
    }

    /** `operator()`: run the body with the configuration and the report
        callback; its effect is that of `RunSteps` from the pending list. */
    method Invoke(cfg: Config, counters: Counters, out: Stream)
      modifies this, counters, out
      ensures var r := RunSteps(cfg.level, testName, old(listInfo), body);
              counters.checks == old(counters.checks) + r.checks &&
              counters.errors == old(counters.errors) + r.errors &&
              out.text == old(out.text) + r.text &&
              listInfo == r.info
    {
      ghost var total := RunSteps(cfg.level, testName, listInfo, body);
      var i := 0;
      while i < |body|
        invariant 0 <= i <= |body|
        invariant var rest := RunSteps(cfg.level, testName, listInfo, body[i..]);
                  counters.checks + rest.checks == old(counters.checks) + total.checks &&
                  counters.errors + rest.errors == old(counters.errors) + total.errors &&
                  out.text + rest.text == old(out.text) + total.text &&
                  rest.info == total.info
      {
        assert body[i..][0] == body[i];
        assert body[i..][1..] == body[i + 1..];
        ghost var before := out.text;
        ghost var first := StepResult(cfg.level, testName, listInfo, body[i]);
        ghost var next := RunSteps(cfg.level, testName, first.info, body[i + 1..]);
        var abort := Perform(cfg, counters, out, body[i]);
        if abort {
          return;
        }
        AppendAssociative(before, first.text, next.text);
        i := i + 1;
      }
    }
  }
}
