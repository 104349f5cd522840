/** The variadic stream printer of tools.h.

    `PrintBaseT` writes its arguments to a stream with a separator strictly
    between consecutive values; `PrintBaseLnT` does the same and then ends the
    line, but only when it was given at least one argument. Each heterogeneous
    C++ argument is represented here by the text `operator<<` makes of it, and
    the stream by the characters written to it so far. */
module Printer {

  /** The separator a printer uses unless it is built with another one. */
  const DefaultSeparator: char := ' '

  /** The values with `sep` strictly between consecutive ones: no output for no
      values, and neither a leading nor a trailing separator otherwise. */
  function Join(sep: char, vals: seq<string>): string
    decreases |vals|
  {
    if vals == [] then []
    else if |vals| == 1 then vals[0]
    else vals[0] + [sep] + Join(sep, vals[1..])
  }

  /** The joined text begins with the first value and ends with the last one:
      no separator leads or trails. */
  lemma {:induction false} JoinEnds(sep: char, vals: seq<string>)
    requires vals != []
    ensures vals[0] <= Join(sep, vals)
    ensures |vals[|vals| - 1]| <= |Join(sep, vals)|
    ensures Join(sep, vals)[|Join(sep, vals)| - |vals[|vals| - 1]|..] == vals[|vals| - 1]
    decreases |vals|
  {
    if |vals| > 1 {
      JoinEnds(sep, vals[1..]);
      var rest := Join(sep, vals[1..]);
      var whole := vals[0] + [sep] + rest;
      assert whole[|whole| - |vals[|vals| - 1]|..] == rest[|rest| - |vals[|vals| - 1]|..];
    }
  }

  /** Joining two non-empty runs of values puts exactly one separator between them. */
  lemma {:induction false} JoinAppend(sep: char, a: seq<string>, b: seq<string>)
    requires a != [] && b != []
    ensures Join(sep, a + b) == Join(sep, a) + [sep] + Join(sep, b)
    decreases |a|
  {
    assert (a + b)[0] == a[0];
    if |a| == 1 {
      assert (a + b)[1..] == b;
    } else {
      assert (a + b)[1..] == a[1..] + b;
      JoinAppend(sep, a[1..], b);
    }
  }

  /** The shape of the overload for six or more arguments: the first five
      values, one separator, then the output for the rest, which is the same
      text as joining all of them at once. */
  lemma JoinSplitsAfterFive(sep: char, vals: seq<string>)
    requires |vals| > 5
    ensures Join(sep, vals) == Join(sep, vals[..5]) + [sep] + Join(sep, vals[5..])
  {
    assert vals == vals[..5] + vals[5..];
    JoinAppend(sep, vals[..5], vals[5..]);
  }

  /** Total number of characters in the values. */
  function TotalLength(vals: seq<string>): nat
    decreases |vals|
  {
    if vals == [] then 0 else |vals[0]| + TotalLength(vals[1..])
  }

  /** How often `c` occurs inside the values themselves. */
  function Occurrences(c: char, vals: seq<string>): nat
    decreases |vals|
  {
    if vals == [] then 0 else multiset(vals[0])[c] + Occurrences(c, vals[1..])
  }

  /** Joining n >= 1 values adds exactly n - 1 characters: the separators. */
  lemma {:induction false} JoinLength(sep: char, vals: seq<string>)
    requires vals != []
    ensures |Join(sep, vals)| == TotalLength(vals) + |vals| - 1
    decreases |vals|
  {
    if |vals| > 1 {
      JoinLength(sep, vals[1..]);
    }
  }

  /** Joining n >= 1 values writes the separator character exactly n - 1 times
      beyond the occurrences the values carry themselves. */
  lemma {:induction false} JoinSeparatorCount(sep: char, vals: seq<string>)
    requires vals != []
    ensures multiset(Join(sep, vals))[sep] == Occurrences(sep, vals) + |vals| - 1
    decreases |vals|
  {
    if |vals| > 1 {
      JoinSeparatorCount(sep, vals[1..]);
      assert multiset(vals[0] + [sep] + Join(sep, vals[1..]))
          == multiset(vals[0]) + multiset{sep} + multiset(Join(sep, vals[1..]));
    }
  }

  /** An output stream, seen as the characters written to it so far; printing
      only ever appends to it. */
  class Stream {
    var text: string

    constructor ()
      ensures text == []
    {
      text := [];
    }
  }

  /** `PrintBaseT`: a printer that writes its arguments separated by `sep`. */
  class PrintBase {
    const sep: char

    constructor (sep: char := DefaultSeparator)
      ensures this.sep == sep
    {
      this.sep := sep;
    }

    /** The fixed-arity overloads for one to five arguments: the first value,
        then a separator and a value for each further one. */
    static method CallFixed(sep: char, out: Stream, args: seq<string>)
      requires 1 <= |args| <= 5
      modifies out
      ensures out.text == old(out.text) + Join(sep, args)
    {
      out.text := out.text + args[0];
      var i := 1;
      while i < |args|
        invariant 1 <= i <= |args|
        invariant out.text == old(out.text) + Join(sep, args[..i])
      {
        assert args[..i + 1] == args[..i] + [args[i]];
        JoinAppend(sep, args[..i], [args[i]]);
        out.text := out.text + [sep] + args[i];
        i := i + 1;
      }
      assert args[..i] == args;
    }

    /** All overloads of `call`: nothing for no arguments, the fixed-arity
        writers for one to five, and for six or more the first five, then
        (when more follow) a separator and the recursive call on the rest. */
    static method Call(sep: char, out: Stream, args: seq<string>)
      modifies out
      ensures out.text == old(out.text) + Join(sep, args)
      decreases |args|
    {
      if |args| == 0 {
      } else if |args| <= 5 {
        CallFixed(sep, out, args);
      } else {
        CallFixed(sep, out, args[..5]);
        var rest := args[5..];
        if |rest| > 0 {
          out.text := out.text + [sep];
          Call(sep, out, rest);
        }
        JoinSplitsAfterFive(sep, args);
      }
    }

    /** `operator()`: print with this printer's separator. */
    method Apply(out: Stream, args: seq<string>)
      modifies out
      ensures out.text == old(out.text) + Join(sep, args)
    {
      Call(sep, out, args);
    }
  }

  /** `PrintBaseLnT`: like `PrintBase`, then a newline, but only when there
      is at least one argument; with none it writes nothing at all. */
  class PrintBaseLn {
    const sep: char

    constructor (sep: char := DefaultSeparator)
      ensures this.sep == sep
    {
      this.sep := sep;
    }

    method Apply(out: Stream, args: seq<string>)
      modifies out
      ensures out.text == old(out.text) + (if args == [] then [] else Join(sep, args) + "\n")
    {
      if |args| > 0 {
        var p := new PrintBase(sep);
        p.Apply(out, args);
        out.text := out.text + "\n";
      }
    }
  }

  /** The empty calls of printlnTests.cpp: no output, not even a newline. */
  method EmptyPrintExample()
  {
    var out := new Stream();
    var sprint := new PrintBase();
    var sprintln := new PrintBaseLn();
    sprint.Apply(out, []);
    assert out.text == "";
    sprintln.Apply(out, []);
    assert out.text == "";
  }

  /** The default separator is a single space. */
  method DefaultSeparatorExample()
  {
    var out := new Stream();
    var sprintln := new PrintBaseLn();
    sprintln.Apply(out, ["one", "two", "3"]);
    assert Join(' ', ["3"]) == "3";
    assert Join(' ', ["two", "3"]) == "two 3";
    assert out.text == "one two 3\n";
  }

  /** A printer built with '+' uses it. */
  method CustomSeparatorExample()
  {
    var out := new Stream();
    var csprint := new PrintBase('+');
    csprint.Apply(out, ["string"]);
    assert out.text == "string";
  }

  /** Past the five-argument overload the separator is still '+', once between
      the fifth and sixth value and between all later ones. */
  method SevenArgumentsExample()
  {
    var out := new Stream();
    var csprint := new PrintBase('+');
    var args := ["1", "2", "3", "4", "5", "6", "7"];
    csprint.Apply(out, args);
    assert Join('+', args[6..]) == "7";
    assert Join('+', args[5..]) == "6+7";
    assert Join('+', args[4..]) == "5+6+7";
    assert Join('+', args[3..]) == "4+5+6+7";
    assert Join('+', args[2..]) == "3+4+5+6+7";
    assert Join('+', args[1..]) == "2+3+4+5+6+7";
    assert out.text == "1+2+3+4+5+6+7";
  }
}
