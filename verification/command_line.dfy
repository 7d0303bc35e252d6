/**
  The command-line classification at the top of `main`: either the usage
  text is printed and the process exits with status 1, or the arguments name
  an optional log file and the list of arguments that become listening ports.

  `argv` is the whole argument vector, program name included, so `|argv|`
  plays the part of `argc`.
 */
module CommandLine {

  const PortFlag: string := "-p"
  const FileFlag: string := "-f"

  /** What `main` makes of its arguments before opening any socket. */
  datatype Invocation =
    | Usage
    | Config(logging: bool, logFile: string, portArgs: seq<string>)

  /** The two tokens the port loop skips wherever they appear. */
  predicate IsFlag(a: string) {
    a == PortFlag || a == FileFlag
  }

  /** `args` with every flag token removed, the others kept in order. */
  function WithoutFlags(args: seq<string>): (r: seq<string>)
    ensures |r| <= |args|
    ensures forall a <- r :: !IsFlag(a)
  {
    if |args| == 0 then []
    else (if IsFlag(args[0]) then [] else [args[0]]) + WithoutFlags(args[1..])
  }

  /** Usage is printed unless there are at least two arguments and the first is `-p`. */
  predicate NeedsUsage(argv: seq<string>) {
    |argv| < 3 || argv[1] != PortFlag
  }

  /** File logging is asked for by `-f` in the next-to-last position. */
  predicate LoggingRequested(argv: seq<string>) {
    |argv| >= 4 && argv[|argv| - 2] == FileFlag
  }

  /** One past the last index the port loop looks at. */
  function PortEnd(argv: seq<string>, logging: bool): int {
    |argv| - (if logging then 2 else 0)
  }

  /**
    The classification stated over whole slices of `argv`: the reference the
    argument loop of `main` is checked against.
   */
  function Classify(argv: seq<string>): (r: Invocation)
    ensures r.Config? ==> 3 <= |argv| && argv[1] == PortFlag
    ensures r.Config? ==> 2 <= PortEnd(argv, r.logging) <= |argv|
    ensures r.Config? ==> forall a <- r.portArgs :: !IsFlag(a) && a in argv[2..PortEnd(argv, r.logging)]
  {
    if NeedsUsage(argv) then Usage
    else
      var logging := LoggingRequested(argv);
      var end := PortEnd(argv, logging);
      var ports := WithoutFlags(argv[1..end]);
      assert forall a <- ports :: a in argv[2..end] by {
        forall a <- ports ensures a in argv[2..end] {
          WithoutFlagsMembership(argv[1..end], a);
          assert argv[1..end] == [argv[1]] + argv[2..end];
        }
      }
      Config(logging, if logging then argv[|argv| - 1] else "", ports)
  }

  /**
    The argument handling of `main`, statement by statement: the usage check,
    the `-f` check on the last two arguments, then the loop from index 1 that
    skips `-p` and `-f` tokens and keeps every other argument as a port.
   */
  method ParseArguments(argv: seq<string>) returns (r: Invocation)
    ensures r.Usage? <==> |argv| < 3 || argv[1] != PortFlag
    ensures r.Config? ==> (r.logging <==> |argv| >= 4 && argv[|argv| - 2] == FileFlag)
    ensures r.Config? && r.logging ==> r.logFile == argv[|argv| - 1]
    ensures r.Config? && !r.logging ==> r.logFile == ""
    ensures r.Config? ==> r.portArgs == WithoutFlags(argv[1..PortEnd(argv, r.logging)])
    ensures r == Classify(argv)
  {
    if |argv| < 3 || argv[1] != PortFlag {
      return Usage;
    }
    var logging := false;
    var logFile := "";
    if |argv| >= 4 && argv[|argv| - 2] == FileFlag {
      logging := true;
      logFile := argv[|argv| - 1];
    }
    var end := |argv| - (if logging then 2 else 0);
    var ports: seq<string> := [];
    var i := 1;
    while i < end
      invariant 1 <= i <= end
      invariant ports == WithoutFlags(argv[1..i])
    {
      WithoutFlagsAppend(argv[1..i], [argv[i]]);
      assert argv[1..i + 1] == argv[1..i] + [argv[i]];
      if argv[i] == PortFlag || argv[i] == FileFlag {
        i := i + 1;
        continue;
      }
      ports := ports + [argv[i]];
      i := i + 1;
    }
    return Config(logging, logFile, ports);
  }

  /** Removing flags distributes over concatenation. */
  lemma {:induction false} WithoutFlagsAppend(a: seq<string>, b: seq<string>)
    ensures WithoutFlags(a + b) == WithoutFlags(a) + WithoutFlags(b)
  {
    if |a| > 0 {
      assert (a + b)[1..] == a[1..] + b;
      WithoutFlagsAppend(a[1..], b);
    } else {
      assert a + b == b;
    }
  }

  /** An argument survives flag removal exactly when it occurs and is not a flag. */
  lemma {:induction false} WithoutFlagsMembership(args: seq<string>, x: string)
    ensures x in WithoutFlags(args) <==> x in args && !IsFlag(x)
  {
    if |args| > 0 {
      WithoutFlagsMembership(args[1..], x);
      assert args == [args[0]] + args[1..];
    }
  }

  /** Flag removal leaves nothing exactly when every argument was a flag. */
  lemma {:induction false} WithoutFlagsEmpty(args: seq<string>)
    ensures WithoutFlags(args) == [] <==> forall i :: 0 <= i < |args| ==> IsFlag(args[i])
  {
    if |args| > 0 {
      WithoutFlagsEmpty(args[1..]);
      assert forall i :: 1 <= i < |args| ==> args[i] == args[1..][i - 1];
    }
  }

  /**
    The usage check does not ensure a port: the port list is empty exactly
    when every argument the loop visits is `-p` or `-f`.
   */
  lemma PortListEmptyIff(argv: seq<string>)
    requires Classify(argv).Config?
    ensures var r := Classify(argv);
      r.portArgs == [] <==> forall i :: 1 <= i < PortEnd(argv, r.logging) ==> IsFlag(argv[i])
  {
    var r := Classify(argv);
    var args := argv[1..PortEnd(argv, r.logging)];
    WithoutFlagsEmpty(args);
    assert forall i :: 1 <= i < PortEnd(argv, r.logging) ==> argv[i] == args[i - 1];
  }

  /** `nbp -p -f x` passes the usage check, logs to `x` and listens on nothing. */
  lemma NoPortsAfterUsageCheck()
    ensures Classify(["nbp", "-p", "-f", "x"]) == Config(true, "x", [])
  {
  }

  /**
    With logging on, the last two arguments are never ports: replacing the
    file name by any other string changes the log file and nothing else.
   */
  lemma LogFileNeverAPort(argv: seq<string>, name: string)
    requires Classify(argv).Config? && Classify(argv).logging
    ensures Classify(argv[..|argv| - 1] + [name]) == Classify(argv).(logFile := name)
  {
    var argv' := argv[..|argv| - 1] + [name];
    assert |argv'| == |argv|;
    assert forall k | 0 <= k < |argv| - 1 :: argv'[k] == argv[k];
    assert argv'[1..|argv'| - 2] == argv[1..|argv| - 2];
  }

  /** Removing flags from one more leading argument. */
  lemma WithoutFlagsCons(x: string, rest: seq<string>)
    ensures WithoutFlags([x] + rest) == (if IsFlag(x) then [] else [x]) + WithoutFlags(rest)
  {
  }

  /** A flag in the middle of the arguments disappears without a trace. */
  lemma WithoutFlagsDropsFlag(a: seq<string>, x: string, b: seq<string>)
    requires IsFlag(x)
    ensures WithoutFlags(a + [x] + b) == WithoutFlags(a) + WithoutFlags(b)
  {
    assert a + [x] + b == a + ([x] + b);
    WithoutFlagsAppend(a, [x] + b);
    WithoutFlagsCons(x, b);
  }

  /**
    A `-f` anywhere but the next-to-last position is dropped and nothing else
    is: the argument after it is still a port.
   */
  lemma StrayFileFlagSkipped(argv: seq<string>, i: int)
    requires Classify(argv).Config?
    requires 1 <= i < PortEnd(argv, Classify(argv).logging)
    requires argv[i] == FileFlag
    ensures var r := Classify(argv); var end := PortEnd(argv, r.logging);
      r.portArgs == WithoutFlags(argv[1..i]) + WithoutFlags(argv[i + 1..end])
    ensures var r := Classify(argv);
      i + 1 < PortEnd(argv, r.logging) && !IsFlag(argv[i + 1]) ==> argv[i + 1] in r.portArgs
  {
    var r := Classify(argv);
    var end := PortEnd(argv, r.logging);
    var before, after := argv[1..i], argv[i + 1..end];
    assert argv[1..end] == before + [argv[i]] + after by {
      assert argv[1..end] == argv[1..i] + argv[i..end];
      assert argv[i..end] == [argv[i]] + after;
    }
    WithoutFlagsDropsFlag(before, argv[i], after);
    assert r.portArgs == WithoutFlags(before) + WithoutFlags(after);
    if i + 1 < end && !IsFlag(argv[i + 1]) {
      WithoutFlagsMembership(after, argv[i + 1]);
      assert argv[i + 1] == after[0];
    }
  }

  /**
    `nbp -p <port> -f <name> <extra>` does not log: `-f` is not next-to-last,
    so it is skipped and both `<name>` and `<extra>` become ports.
   */
  lemma MisplacedFileFlagMakesPorts(prog: string, port: string, name: string, extra: string)
    requires !IsFlag(port) && !IsFlag(name) && !IsFlag(extra)
    ensures Classify([prog, PortFlag, port, FileFlag, name, extra]) == Config(false, "", [port, name, extra])
  {
    var argv := [prog, PortFlag, port, FileFlag, name, extra];
    var tail := [name, extra];
    var middle := [port] + [FileFlag] + tail;
    assert WithoutFlags(tail) == tail by {
      WithoutFlagsCons(name, [extra]);
      WithoutFlagsCons(extra, []);
    }
    assert WithoutFlags(middle) == [port, name, extra] by {
      WithoutFlagsDropsFlag([port], FileFlag, tail);
      WithoutFlagsCons(port, []);
    }
    assert WithoutFlags(argv[1..6]) == [port, name, extra] by {
      assert argv[1..6] == [] + [PortFlag] + middle;
      WithoutFlagsDropsFlag([], PortFlag, middle);
    }
    assert !LoggingRequested(argv);
  }

  /**
    `-h` has no branch of its own. Alone, or with one more argument, it fails
    the usage check; after `-p <port>` it is a port argument like any other.
   */
  lemma HelpFlagIsAPort(prog: string, port: string, x: string)
    requires !IsFlag(port)
    ensures Classify([prog, "-h"]) == Usage && Classify([prog, "-h", x]) == Usage
    ensures Classify([prog, PortFlag, port, "-h"]) == Config(false, "", [port, "-h"])
  {
    var argv := [prog, PortFlag, port, "-h"];
    assert WithoutFlags(argv[1..4]) == [port, "-h"] by {
      assert argv[1..4] == [] + [PortFlag] + [port, "-h"];
      WithoutFlagsDropsFlag([], PortFlag, [port, "-h"]);
      WithoutFlagsCons(port, ["-h"]);
      WithoutFlagsCons("-h", []);
    }
    assert !LoggingRequested(argv);
  }
}
