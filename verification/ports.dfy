/**
  What `main` does with each port argument: the number handed to `bind`
  (through `htons`, whose parameter is a 16-bit unsigned integer) and the
  number it records and passes to the accept loop (the plain `int` from
  `atoi`), and whether start-up gets as far as serving.
 */
module Ports {
  import opened Text
  import opened Numerals
  import opened CommandLine
  import opened Wrappers

  /** How many values a 16-bit port field holds. */
  const PortCount: nat := 65536

  type Byte = b: int | 0 <= b < 256

  /**
    The port actually bound: `atoi`'s result converted to `uint16_t`, which
    C defines as reduction modulo 2^16.
   */
  function BoundPort(arg: string): (p: nat)
    ensures p < PortCount
    ensures (Atoi(arg) - p) % PortCount == 0
  {
    var a := Atoi(arg);
    assert a - a % PortCount == PortCount * (a / PortCount);
    a % PortCount
  }

  /** The two bytes `htons` stores in `sin_port`: most significant first. */
  function NetworkOrder(p: nat): (bytes: seq<Byte>)
    requires p < PortCount
    ensures |bytes| == 2
  {
    [p / 256, p % 256]
  }

  /** The port number the kernel reads back out of `sin_port`. */
  function FromNetworkOrder(bytes: seq<Byte>): (p: nat)
    requires |bytes| == 2
    ensures p < PortCount
  {
    bytes[0] as int * 256 + bytes[1] as int
  }

  /** `htons` and the kernel's reading of `sin_port` undo each other. */
  lemma NetworkOrderRoundTrip(p: nat, bytes: seq<Byte>)
    requires p < PortCount && |bytes| == 2
    ensures FromNetworkOrder(NetworkOrder(p)) == p
    ensures NetworkOrder(FromNetworkOrder(bytes)) == bytes
  {
  }

  /** One listening socket as `main` sets it up. */
  datatype Listener = Listener(
    arg: string,          // the command-line argument it came from
    sinPort: seq<Byte>,   // the `sin_port` field passed to `bind`
    reportedPort: int     // the entry of `serverPorts` and the accept loop's `port`
  )

  /** The listeners `main` creates, one per port argument and in the same order. */
  function PlanListeners(portArgs: seq<string>): (ls: seq<Listener>)
    ensures |ls| == |portArgs|
    ensures forall i :: 0 <= i < |ls| ==>
      && ls[i].arg == portArgs[i]
      && |ls[i].sinPort| == 2
      && FromNetworkOrder(ls[i].sinPort) == BoundPort(portArgs[i])
      && ls[i].reportedPort == Atoi(portArgs[i])
  {
    seq(|portArgs|, i requires 0 <= i < |portArgs| =>
      Listener(portArgs[i], NetworkOrder(BoundPort(portArgs[i])), Atoi(portArgs[i])))
  }

  /**
    The bound port and the reported port agree exactly when `atoi` yields a
    value that fits in 16 unsigned bits.
   */
  lemma BoundMatchesReportedIff(arg: string)
    ensures BoundPort(arg) == Atoi(arg) <==> 0 <= Atoi(arg) < PortCount
  {
  }

  /**
    `-p 70000` binds port 4464 while the log and the greeting report 70000;
    `-p -1` binds port 65535 while reporting -1.
   */
  lemma OutOfRangePortsDisagree()
    ensures BoundPort(Decimal(70000)) == 4464 && Atoi(Decimal(70000)) == 70000
    ensures BoundPort(Decimal(-1)) == 65535 && Atoi(Decimal(-1)) == -1
  {
    AtoiDecimal(70000);
    AtoiDecimal(-1);
  }

  /**
    An argument that does not start with white space, a sign or a digit reads
    as 0, so its listener binds port 0 (any free port) and reports port 0.
   */
  lemma NonNumericArgumentBindsPortZero(arg: string)
    requires |arg| > 0 && !IsSpace(arg[0]) && !IsDigit(arg[0]) && arg[0] != '-' && arg[0] != '+'
    ensures Atoi(arg) == 0 && BoundPort(arg) == 0
  {
  }

  /**
    A sign followed by something other than a digit, such as `-h`, reads as
    0, so its listener binds port 0 as well.
   */
  lemma SignWithoutDigitsBindsPortZero(arg: string)
    requires 2 <= |arg| && (arg[0] == '-' || arg[0] == '+') && !IsDigit(arg[1])
    ensures Atoi(arg) == 0 && BoundPort(arg) == 0
  {
    assert SkipSpace(arg) == arg by {
      assert !IsSpace(arg[0]);
    }
    assert DigitPrefix(arg[1..]) == [];
  }

  /** How far start-up gets. */
  datatype Outcome =
    | Exit(status: int)
    | Serving(logFile: Option<string>, listeners: seq<Listener>)

  /**
    Start-up as `main` performs it: the usage check, opening the log file
    (`logOpens` says whether that succeeds), then one socket per port
    argument (`canListen` says whether socket, bind and listen succeed for a
    bound port number). Every failure ends the process with status 1.
   */
  function Startup(argv: seq<string>, logOpens: bool, canListen: nat -> bool): (r: Outcome)
    ensures Classify(argv).Usage? ==> r == Exit(1)
    ensures r.Exit? ==> r.status == 1
    ensures r.Serving? <==>
      && Classify(argv).Config?
      && (Classify(argv).logging ==> logOpens)
      && forall a <- Classify(argv).portArgs :: canListen(BoundPort(a))
    ensures r.Serving? ==>
      && r.listeners == PlanListeners(Classify(argv).portArgs)
      && (r.logFile.Some? <==> Classify(argv).logging)
      && (r.logFile.Some? ==> r.logFile.value == argv[|argv| - 1])
  {
    match Classify(argv)
    case Usage => Exit(1)
    case Config(logging, logFile, portArgs) =>
      if logging && !logOpens then Exit(1)
      else if exists a <- portArgs :: !canListen(BoundPort(a)) then Exit(1)
      else Serving(if logging then Some(logFile) else None, PlanListeners(portArgs))
  }
}
