/** The harness configuration `__config_t` of tiny_framework.h: a verbosity
    level parsed from the process arguments, and the trace gate that prints a
    message only when its kind is enabled by that level. */
module Configuration {
  import opened Printer

  /** The four verbosity levels, least verbose first. */
  datatype Level =
    | Error          // only errors
    | Message        // also TEST_MESSAGE
    | TestCaseName   // also the name of each case entered and left
    | All            // also every check that passed

  /** Position of a level in the order Error < Message < TestCaseName < All. */
  function Rank(l: Level): nat {
    match l
    case Error => 0
    case Message => 1
    case TestCaseName => 2
    case All => 3
  }

  /** A trace of kind `kind` is printed under `level` iff `kind` is at most `level`. */
  predicate Enabled(kind: Level, level: Level) {
    Rank(kind) <= Rank(level)
  }

  /** What one `trace(kind, msg)` writes to standard output: the message on a
      line of its own when enabled, nothing otherwise. */
  function TraceText(level: Level, kind: Level, msg: string): string {
    if Enabled(kind, level) then msg + "\n" else ""
  }

  /** A trace prints its whole message, on one line, iff its kind is at most
      the level, and nothing otherwise; errors are printed at every level, and
      level All prints every trace. */
  lemma GateBounds(level: Level, kind: Level, msg: string)
    ensures TraceText(level, kind, msg) != "" <==> Rank(kind) <= Rank(level)
    ensures TraceText(level, kind, msg) == msg + "\n" || TraceText(level, kind, msg) == ""
    ensures TraceText(level, Error, msg) == msg + "\n"
    ensures TraceText(All, kind, msg) == msg + "\n"
  {
  }

  /** Raising the level never hides a trace that a lower level shows. */
  lemma GateMonotone(kind: Level, lower: Level, higher: Level)
    requires Rank(lower) <= Rank(higher)
    requires Enabled(kind, lower)
    ensures Enabled(kind, higher)
  {
  }

  /** The level an option selects, or None for `--help` and every option the
      parser does not recognise. */
  function OptionLevel(opt: string): Option<Level> {
    if opt == "--help" then None
    else if opt == "--log_level=message" then Some(Message)
    else if opt == "--log_level=testnames" then Some(TestCaseName)
    else if opt == "--log_level=all" then Some(All)
    else if opt == "--log_level=error" then Some(Error)
    else None
  }

  datatype Option<T> = None | Some(value: T)

  /** Outcome of parsing: whether the run may go on, and the level reached. */
  datatype Parsed = Parsed(level: Level, ok: bool)

  /** Options are read left to right; each recognised one overwrites the level,
      and the first that is not recognised stops parsing with the level it
      reached. */
  function ParseOptions(level: Level, opts: seq<string>): Parsed
    decreases |opts|
  {
    if opts == [] then Parsed(level, true)
    else
      match OptionLevel(opts[0])
      case None => Parsed(level, false)
      case Some(l) => ParseOptions(l, opts[1..])
  }

  /** The options proper: everything after the program name, and none when
      fewer than two arguments are given. */
  function Options(args: seq<string>): seq<string> {
    if |args| < 2 then [] else args[1..]
  }

  /** Parsing succeeds iff every option is a recognised `--log_level=` option. */
  lemma {:induction false} ParseOkIffAllRecognised(level: Level, opts: seq<string>)
    ensures ParseOptions(level, opts).ok <==>
            forall i :: 0 <= i < |opts| ==> OptionLevel(opts[i]).Some?
    decreases |opts|
  {
    if opts != [] {
      match OptionLevel(opts[0])
      case None =>
      case Some(l) =>
        ParseOkIffAllRecognised(l, opts[1..]);
        assert forall i :: 1 <= i < |opts| ==> opts[i] == opts[1..][i - 1];
    }
  }

  /** When several `--log_level=` options are given, the last one wins. */
  lemma {:induction false} LastLevelOptionWins(level: Level, opts: seq<string>)
    requires opts != []
    requires ParseOptions(level, opts).ok
    ensures OptionLevel(opts[|opts| - 1]).Some?
    ensures ParseOptions(level, opts).level == OptionLevel(opts[|opts| - 1]).value
    decreases |opts|
  {
    match OptionLevel(opts[0])
    case Some(l) =>
      if |opts| > 1 {
        LastLevelOptionWins(l, opts[1..]);
      }
  }

  /** `--help` anywhere among the options makes parsing fail. */
  lemma HelpStopsTheRun(level: Level, opts: seq<string>, i: nat)
    requires i < |opts| && opts[i] == "--help"
    ensures !ParseOptions(level, opts).ok
  {
    ParseOkIffAllRecognised(level, opts);
  }

  /** The usage text `print_help` writes to standard error. */
  function HelpText(name: string): string {
    "Usage:\n" + name + "\n --log_level=[error/message/testnames/all]\n"
    + " --help (print this help message)\n"
  }

  /** `__config_t`: the verbosity level of the run. */
  class Config {
    var level: Level

    /** A fresh configuration prints errors only. */
    constructor ()
      ensures level == Error
    {
      level := Error;
    }

    /** `parse_args`: `args[0]` is the program name. With fewer than two
        arguments it succeeds and keeps the level; otherwise each option in
        turn either sets the level or, for `--help` and anything unrecognised,
        prints the usage text to `err` and fails at once. */
    method ParseArgs(args: seq<string>, err: Stream) returns (ok: bool)
      modifies this, err
      ensures ok == ParseOptions(old(level), Options(args)).ok
      ensures level == ParseOptions(old(level), Options(args)).level
      ensures ok ==> err.text == old(err.text)
      ensures !ok ==> |args| >= 2 && err.text == old(err.text) + HelpText(args[0])
    {
      if |args| < 2 {
        return true;
      }
      var i := 1;
      while i < |args|
        invariant 1 <= i <= |args|
        invariant ParseOptions(level, args[i..]) == ParseOptions(old(level), args[1..])
        invariant err.text == old(err.text)
      {
        assert args[i..][1..] == args[i + 1..];
        var opt := args[i];
        if opt == "--help" {
          PrintHelp(args[0], err);
          return false;
        } else if opt == "--log_level=message" {
          level := Message;
        } else if opt == "--log_level=testnames" {
          level := TestCaseName;
        } else if opt == "--log_level=all" {
          level := All;
        } else if opt == "--log_level=error" {
          level := Error;
        } else {
          PrintHelp(args[0], err);
          return false;
        }
        i := i + 1;
      }
      return true;
    }

    /** `print_help`: the usage text on standard error. */
    static method PrintHelp(name: string, err: Stream)
      modifies err
      ensures err.text == old(err.text) + HelpText(name)
    {
      err.text := err.text + HelpText(name);
    }

    /** `trace`: print `msg` through `println` on `out` iff `kind` is enabled. */
    method Trace(out: Stream, kind: Level, msg: string)
      modifies out
      ensures out.text == old(out.text) + TraceText(level, kind, msg)
    {
      if Rank(kind) > Rank(level) {
        return;
      }
      var println := new PrintBaseLn();
      println.Apply(out, [msg]);
    }
  }
}
