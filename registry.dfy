/** The registry `__static_test_object_t` of tiny_framework.h: the stack of
    open suite names, the ordered list of registered cases, and the separator
    used to qualify a case name with its suites. `TEST_SUITE_BEGIN`,
    `TEST_SUITE_END` and `TEST_CASE` act on it while the program starts. */
module Registry {
  import opened Text
  import opened Printer
  import opened Checks

  /** Each suite name followed by `sep`, outermost suite first: the text the
      `TEST_CASE` constructor accumulates before appending the case name. */
  function SuitePrefix(suites: seq<string>, sep: string): string
    decreases |suites|
  {
    if suites == [] then "" else suites[0] + sep + SuitePrefix(suites[1..], sep)
  }

  /** With at least one suite open, the prefix is the suites joined by the
      separator, followed by one more separator. */
  lemma {:induction false} SuitePrefixIsJoin(suites: seq<string>, sep: char)
    requires suites != []
    ensures SuitePrefix(suites, [sep]) == Join(sep, suites) + [sep]
    decreases |suites|
  {
    if |suites| > 1 {
      SuitePrefixIsJoin(suites[1..], sep);
      AppendAssociative(suites[0] + [sep], Join(sep, suites[1..]), [sep]);
    }
  }

  /** A qualified name is the open suites and the case name joined by the
      separator: suites a, b and case c give "a/b/c". */
  lemma QualifiedNameIsJoin(suites: seq<string>, name: string, sep: char)
    ensures SuitePrefix(suites, [sep]) + name == Join(sep, suites + [name])
  {
    if suites == [] {
      assert suites + [name] == [name];
    } else {
      SuitePrefixIsJoin(suites, sep);
      JoinAppend(sep, suites, [name]);
    }
  }

  /** In `x + [c] + r` with `c` not in `x`, the first `c` is at index |x|. */
  lemma FirstSeparatorAt(x: string, c: char, r: string)
    requires c !in x
    ensures (x + [c] + r)[|x|] == c
    ensures forall k :: 0 <= k < |x| ==> (x + [c] + r)[k] != c
  {
    forall k | 0 <= k < |x| ensures (x + [c] + r)[k] != c {
      assert (x + [c] + r)[k] == x[k];
    }
  }

  /** A separator-free first segment is recovered from `x + [c] + rest`. */
  lemma FirstSegment(x: string, y: string, c: char, r1: string, r2: string)
    requires c !in x && c !in y
    requires x + [c] + r1 == y + [c] + r2
    ensures x == y && r1 == r2
  {
    FirstSeparatorAt(x, c, r1);
    FirstSeparatorAt(y, c, r2);
    assert |x| == |y|;
    assert x == (x + [c] + r1)[..|x|];
    assert y == (y + [c] + r2)[..|y|];
    assert r1 == (x + [c] + r1)[|x| + 1..];
    assert r2 == (y + [c] + r2)[|y| + 1..];
  }

  /** Suite names never contain the separator (they are C++ identifiers). */
  predicate SeparatorFree(suites: seq<string>, sep: char) {
    forall i :: 0 <= i < |suites| ==> sep !in suites[i]
  }

  /** Different suite stacks of separator-free names give different prefixes. */
  lemma {:induction false} SuitePrefixInjective(a: seq<string>, b: seq<string>, sep: char)
    requires SeparatorFree(a, sep) && SeparatorFree(b, sep)
    requires SuitePrefix(a, [sep]) == SuitePrefix(b, [sep])
    ensures a == b
    decreases |a|
  {
    if a != [] && b != [] {
      FirstSegment(a[0], b[0], sep, SuitePrefix(a[1..], [sep]), SuitePrefix(b[1..], [sep]));
      assert SeparatorFree(a[1..], sep) by {
        forall i | 0 <= i < |a[1..]| ensures sep !in a[1..][i] {
          assert a[1..][i] == a[i + 1];
        }
      }
      assert SeparatorFree(b[1..], sep) by {
        forall i | 0 <= i < |b[1..]| ensures sep !in b[1..][i] {
          assert b[1..][i] == b[i + 1];
        }
      }
      SuitePrefixInjective(a[1..], b[1..], sep);
      assert a == [a[0]] + a[1..] && b == [b[0]] + b[1..];
    }
  }

  /** The same case name declared under two different suite stacks gets two
      different qualified names; under the same stack it gets the same one. */
  lemma DistinctSuitesGiveDistinctNames(a: seq<string>, b: seq<string>, name: string, sep: char)
    requires SeparatorFree(a, sep) && SeparatorFree(b, sep)
    ensures SuitePrefix(a, [sep]) + name == SuitePrefix(b, [sep]) + name <==> a == b
  {
    var p, q := SuitePrefix(a, [sep]), SuitePrefix(b, [sep]);
    if p + name == q + name {
      assert |p| == |q|;
      assert p == (p + name)[..|p|];
      assert q == (q + name)[..|q|];
      SuitePrefixInjective(a, b, sep);
    }
  }

  /** One registry entry: the qualified name and the stored case object. */
  datatype TestInfo = TestInfo(name: string, test: TestCase)

  /** Every entry is named after its case object. */
  predicate NamedAfterCases(tests: seq<TestInfo>) {
    forall i :: 0 <= i < |tests| ==> tests[i].name == tests[i].test.testName
  }

  /** Distinct entries own distinct case objects. */
  predicate DistinctCases(tests: seq<TestInfo>) {
    forall i, j :: 0 <= i < j < |tests| ==> tests[i].test != tests[j].test
  }

  /** `__static_test_object_t`. */
  class Registry {
    var tests: seq<TestInfo>
    var suites: seq<string>
    const testSeparator: string

    constructor ()
      ensures tests == [] && suites == [] && testSeparator == "/"
      ensures Valid()
    {
      tests := [];
      suites := [];
      testSeparator := "/";
    }

    /** Every entry is named after its case, and every entry owns its own
        copy of the case, so running one case never touches another. */
    predicate Valid()
      reads this
    {
      NamedAfterCases(tests) && DistinctCases(tests)
    }

    /** `__add_remove_suite_t(obj, name)`: open a suite. */
    method EnterSuite(name: string)
      modifies this
      ensures suites == old(suites) + [name]
      ensures tests == old(tests)
    {
      suites := suites + [name];
    }

    /** `__add_remove_suite_t(obj)`: close the innermost suite; `pop_back`
        needs an open suite. */
    method LeaveSuite()
      requires |suites| > 0
      modifies this
      ensures suites == old(suites)[..|old(suites)| - 1]
      ensures old(suites) == suites + [old(suites)[|old(suites)| - 1]]
      ensures tests == old(tests)
    {
      suites := suites[..|suites| - 1];
    }

    /** The constructor of a `TEST_CASE` type: each open suite followed by the
        separator, then the case name. */
    method TestName(name: string) returns (q: string)
      ensures q == SuitePrefix(suites, testSeparator) + name
    {
      var acc := "";
      var i := 0;
      while i < |suites|
        invariant 0 <= i <= |suites|
        invariant acc + SuitePrefix(suites[i..], testSeparator) == SuitePrefix(suites, testSeparator)
      {
        assert suites[i..][1..] == suites[i + 1..];
        AppendAssociative(acc, suites[i] + testSeparator, SuitePrefix(suites[i + 1..], testSeparator));
        AppendAssociative(acc, suites[i], testSeparator);
        acc := acc + suites[i];
        acc := acc + testSeparator;
        i := i + 1;
      }
      q := acc + name;
    }

    /** `__add_test_t`: store a copy of the case under its qualified name,
        after every entry already there. */
    method AddTest(t: TestCase)
      requires Valid()
      modifies this
      ensures Valid()
      ensures |tests| == |old(tests)| + 1 && tests[..|old(tests)|] == old(tests)
      ensures var e := tests[|tests| - 1];
              e.name == t.testName && fresh(e.test) &&
              e.test.testName == t.testName && e.test.body == t.body && e.test.listInfo == t.listInfo
      ensures suites == old(suites)
    {
      var copy := new TestCase.Copy(t);
      tests := tests + [TestInfo(copy.testName, copy)];
    }

    /** `TEST_CASE(name)`: build the case with its qualified name and an empty
        context list, and register it. */
    method DeclareCase(name: string, body: seq<Step>)
      requires Valid()
      modifies this
      ensures Valid()
      ensures |tests| == |old(tests)| + 1 && tests[..|old(tests)|] == old(tests)
      ensures var e := tests[|tests| - 1];
              e.name == SuitePrefix(suites, testSeparator) + name &&
              fresh(e.test) && e.test.body == body && e.test.listInfo == []
      ensures suites == old(suites)
    {
      var q := TestName(name);
      var t := new TestCase(q, body);
      AddTest(t);
    }
  }

  /** The bodies of the cases of demo-test-framework/part1.cpp. */
  const NestedCase1: seq<Step> := [Check(false, Bool("true", true), "part1.cpp", "8"),
                                   Check(false, Equal("2", "2", "2", "2", true), "part1.cpp", "9")]
  const Case2: seq<Step> := [Info("msg1"), Info("msg2"), Check(false, Bool("true", true), "part1.cpp", "17")]
  const Case1: seq<Step> := [Check(false, Bool("true", true), "part1.cpp", "21")]

  /** The qualified names part1.cpp gives its cases. */
  lemma Part1Names()
    ensures SuitePrefix(["suite_part1", "suite_nested"], "/") + "case1" == "suite_part1/suite_nested/case1"
    ensures SuitePrefix(["suite_part1"], "/") + "case2" == "suite_part1/case2"
    ensures SuitePrefix(["suite_part1"], "/") + "case1" == "suite_part1/case1"
  {
    assert SuitePrefix(["suite_nested"], "/") == "suite_nested/";
    assert SuitePrefix(["suite_part1"], "/") == "suite_part1/";
  }

  /** The registrations of demo-test-framework/part1.cpp: a nested suite,
      and the same case name declared in two suites. */
  method Part1Example() returns (obj: Registry)
    ensures obj.Valid() && |obj.tests| == 3 && obj.suites == []
    ensures obj.tests[0].name == "suite_part1/suite_nested/case1"
    ensures obj.tests[1].name == "suite_part1/case2"
    ensures obj.tests[2].name == "suite_part1/case1"
    ensures obj.tests[0].test.body == NestedCase1 && obj.tests[1].test.body == Case2 && obj.tests[2].test.body == Case1
    ensures forall i :: 0 <= i < 3 ==> fresh(obj.tests[i].test) && obj.tests[i].test.listInfo == []
  {
    obj := new Registry();
    obj.EnterSuite("suite_part1");
    obj.EnterSuite("suite_nested");
    Part1Names();
    obj.DeclareCase("case1", NestedCase1);
    var e0 := obj.tests[0];
    obj.LeaveSuite();
    obj.DeclareCase("case2", Case2);
    var e1 := obj.tests[1];
    obj.DeclareCase("case1", Case1);
    obj.LeaveSuite();
    assert obj.tests == [e0, e1, obj.tests[2]];
  }
}
