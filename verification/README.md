# nbp: argument classification and connection messages

`nbp` is a small TCP listener. It binds one or more ports, accepts
connections, logs every connection to the console (and to a file if one was
given), sends the peer a one-line greeting, and closes the connection. Most
of `nbp.cpp` is socket, thread, signal and terminal plumbing. This project
models the sequential logic inside that plumbing, as pure Dafny functions:

- **Command-line classification** at the top of `main`: when usage is
  printed (exit status 1), whether file logging is on and which argument
  names the file, and which arguments become listening ports, in which order.
  `CommandLine.Classify` states this over whole slices of `argv`.
  `CommandLine.ParseArguments` follows `main` statement by statement, with
  its loop over `argv`, and is proved equal to `Classify`.
- **Port conversion**: the port handed to `bind` is `atoi(arg)` narrowed to
  16 bits by `htons` and stored in network byte order. The port recorded in
  `serverPorts`, written in the log and sent in the greeting is the full
  `int` from `atoi`. The two differ for arguments outside 0..65535.
- **The two formatted lines**: the log line of `logConnection` and the
  greeting of `handleConnection`. Each has a parser as its partner, proved to
  invert it. `std::to_string` and `operator<<` on an `int` are modelled as a
  decimal rendering. C's `atoi` is modelled as the C standard defines it:
  skip leading white space, read one optional sign, then the longest run of
  digits, giving 0 if there are no digits. The two are proved to round-trip.

The arguments are `argv: seq<string>`, including the program name, so
`|argv|` is `argc`. Timestamps and IP addresses come from `strftime` and
`inet_ntop` and are opaque string parameters. Whether the log file opens is
a boolean parameter of `Ports.Startup`; whether a socket can be bound is its
parameter `canListen: nat -> bool`, a function of the bound port.

Modules: `Wrappers` (`Option`), `Text` (character classes, prefix/suffix
splitting), `Numerals` (`Decimal`, `Atoi`), `CommandLine`, `Ports`,
`Messages`, `Connection` (the three writes for one accepted connection).

The code checks less than its own usage text
(`-p <port1> [<port2> ...] [-f logfile.txt]`, nbp.cpp:122-125) suggests:

- The code checks neither that a port lies in 1..65535 nor that at least one
  port is given. `prog -p -f x` passes the usage check and listens on
  nothing (`CommandLine.NoPortsAfterUsageCheck`). `-p 70000` binds port 4464
  but announces 70000 (`Ports.OutOfRangePortsDisagree`). A non-numeric
  argument binds port 0 (`Ports.NonNumericArgumentBindsPortZero`).
- The code only checks that the next-to-last argument is `-f`. It skips every
  `-p` and `-f` token wherever it stands, and it keeps the token after a
  stray `-f` as a port (`CommandLine.StrayFileFlagSkipped`,
  `CommandLine.MisplacedFileFlagMakesPorts`).
- `-h` has no branch of its own. `prog -h` prints usage because `argc < 3`
  holds (the `-p` test is then never made), and `prog -h x` because the first
  argument is not `-p`. After the usage check, `-h` is an ordinary port
  argument: `prog -p 80 -h` listens on 80 and on `atoi("-h")`, which is 0
  (`CommandLine.HelpFlagIsAPort`, `Ports.SignWithoutDigitsBindsPortZero`).

## Model

| member | source | states |
|---|---|---|
| CommandLine.ParseArguments | nbp.cpp:135-159 | Usage exactly when there are fewer than two arguments or the first is not `-p`. Logging exactly when there are at least three arguments and the next-to-last is `-f`; the file is then the last argument. The ports are the arguments from index 1 up to the `-f` (or to the end) with every `-p`/`-f` removed, in order. The loop computes the same result as `Classify`. |
| CommandLine.Classify | nbp.cpp:135-159 | A non-usage result has at least two arguments with `-p` first. Its port-loop end lies between 2 and `argc`. Every selected port is a non-flag argument taken from index 2 up to that end. |
| CommandLine.WithoutFlags | nbp.cpp:156-159 | Skipping flag tokens never lengthens the list and never keeps a `-p` or `-f`. |
| CommandLine.WithoutFlagsAppend | nbp.cpp:156-159 | Skipping flags distributes over concatenation, so the kept arguments stay in their original order. |
| CommandLine.WithoutFlagsMembership | nbp.cpp:156-159 | An argument is kept exactly when it occurs in the input and is neither `-p` nor `-f`. |
| CommandLine.WithoutFlagsEmpty | nbp.cpp:156-159 | Nothing is kept exactly when every argument is a flag. |
| CommandLine.PortListEmptyIff | nbp.cpp:135-159 | After the usage check passes, the port list is empty exactly when every argument the loop visits is `-p` or `-f`. |
| CommandLine.NoPortsAfterUsageCheck | nbp.cpp:135-159 | `nbp -p -f x` is accepted, logs to `x` and selects no port. |
| CommandLine.LogFileNeverAPort | nbp.cpp:140-159 | With logging on, the last two arguments are never ports: replacing the file name changes the log file and nothing else. |
| CommandLine.StrayFileFlagSkipped | nbp.cpp:156-159 | A `-f` before the loop end is dropped and nothing else is. The ports are those before it followed by those after it, and a non-flag argument right after it is still a port. |
| CommandLine.MisplacedFileFlagMakesPorts | nbp.cpp:140-159 | `prog -p P -f N E` with no flags among P, N, E does not log and selects ports P, N, E. |
| CommandLine.HelpFlagIsAPort | nbp.cpp:135-159 | `prog -h` and `prog -h x` get usage; `prog -p P -h` does not log and selects ports P and `-h`. |
| Numerals.Decimal | nbp.cpp:87-88 | The decimal rendering is non-empty, starts with `-` exactly for negative numbers, and has no space or newline. |
| Numerals.AtoiDecimal | nbp.cpp:170 | `atoi` reads every decimal rendering back as the number rendered. |
| Numerals.AtoiOfDigits | nbp.cpp:170 | On a string of digits alone, `atoi` gives the value of those digits. |
| Numerals.DecimalInjective | nbp.cpp:87-88 | Distinct numbers have distinct renderings. |
| Numerals.Atoi | nbp.cpp:170 | `atoi` is negative only when the first non-space character is `-`, positive only when it is `+` or a digit, and 0 for a string with no digit at all. |
| Numerals.ParseDecimalIff | nbp.cpp:87-88 | The numeral reader, the partner of the rendering, accepts a string as `n` exactly when the string is the rendering of `n`. |
| Ports.BoundPort | nbp.cpp:170 | The bound port lies in 0..65535 and is congruent to `atoi(arg)` modulo 65536, as the conversion to a 16-bit unsigned value requires. |
| Ports.NetworkOrder | nbp.cpp:170 | `htons` yields the two bytes of `sin_port`. |
| Ports.NetworkOrderRoundTrip | nbp.cpp:170 | Writing a port into `sin_port` and reading it back are inverse. |
| Ports.FromNetworkOrder | nbp.cpp:170 | The port read from `sin_port` fits in 16 bits. |
| Ports.PlanListeners | nbp.cpp:156-189 | There is one listener per port argument, in argument order. Each binds `BoundPort(arg)` and reports `atoi(arg)`. |
| Ports.BoundMatchesReportedIff | nbp.cpp:170-189 | The bound port equals the reported port exactly when `atoi(arg)` lies in 0..65535. |
| Ports.OutOfRangePortsDisagree | nbp.cpp:170-189 | `70000` binds 4464 but reports 70000. `-1` binds 65535 but reports -1. |
| Ports.NonNumericArgumentBindsPortZero | nbp.cpp:170 | An argument not starting with white space, a sign or a digit reads as 0 and binds port 0. |
| Ports.SignWithoutDigitsBindsPortZero | nbp.cpp:170 | An argument made of a sign followed by a non-digit, such as `-h`, reads as 0 and binds port 0. |
| Ports.Startup | nbp.cpp:135-190 | Usage ends with status 1, and so does every failure. Serving happens exactly when the arguments pass the usage check, the log file (if requested) opens, and every bound port can be listened on. It then serves the planned listeners and logs to the last argument exactly when logging was requested. |
| Messages.LogLine | nbp.cpp:62-73 | The log line starts with `[` and ends with the newline of `std::endl`. |
| Messages.Greeting | nbp.cpp:87-88 | The greeting starts with `Connection established with ` and ends with a newline. |
| Messages.ParseLogLine | nbp.cpp:70-71 | Any line the parser accepts is exactly the log line of the fields it returns, and the timestamp has the `%Y-%m-%d %H:%M:%S` shape. |
| Messages.ParseGreeting | nbp.cpp:87-88 | Any message the parser accepts is exactly the greeting of the fields it returns, and the timestamp has the `%Y-%m-%d %H:%M:%S` shape. |
| Messages.LogLineRoundTrip | nbp.cpp:65-71 | Parsing a log line recovers its timestamp, peer address and port. |
| Messages.GreetingRoundTrip | nbp.cpp:78-88 | Parsing a greeting recovers its local address, port and timestamp. |
| Messages.GreetingMentionsPort | nbp.cpp:87-88 | The greeting contains ` on port ` followed by the port in decimal. |
| Messages.GreetingIsOneLine | nbp.cpp:87-88 | If the address and timestamp have no line break, the greeting's only newline is its last character. |
| Messages.LogLineIsOneLine | nbp.cpp:70-71 | If the timestamp and peer address have no line break, the log line's only newline is its last character. |
| Connection.Accepted | nbp.cpp:106-117 | A file line is written exactly when the log file is open. |
| Connection.AcceptedWritesAgree | nbp.cpp:106-117 | The console line, the file line and the greeting for one connection name the same addresses and the listener's reported port, each with its own timestamp. |
| Connection.AnnouncedPortIsBoundPortIff | nbp.cpp:170-189 | The port announced for a connection is the listener's bound port exactly when `atoi(arg)` lies in 0..65535. |

## Left out

- Socket creation, `bind`, `listen`, `accept`, `send`, `close` and `getsockname` are OS I/O. `Ports.Startup` reduces them to one parameter saying whether a bound port can be listened on. The local and peer addresses are opaque strings.
- Ports.Startup: takes socket success as a function of the port number alone, so it cannot express a second `bind` of the same port failing because an earlier listener holds it. It also does not model that listeners started before a later failure accept connections until the process exits.
- Threads, `detach`, the `logMutex` lock, the `shouldTerminate` flag and `signalHandler` are the concurrency around the core. The model covers what one accept writes, not how writes from several threads interleave.
- The accept loop itself is left out: its iteration, the "Accept failed" message, and the loop exit on `shouldTerminate`. `Connection.Accepted` covers one successful accept.
- The `kbhit` raw-mode key polling and the one-second wait loop are terminal I/O and timing.
- `time`, `localtime`, `strftime` and `inet_ntop` are library calls. Their results are string parameters. `IsTimestamp` describes the `%Y-%m-%d %H:%M:%S` shape for four-digit years and is needed only by the parsers.
- The help text, the "listening on port" line and the error messages on standard error are console output only.
- Opening and closing the `ofstream` is file I/O. Whether the open succeeds is a parameter of `Ports.Startup`.
- Numerals.AtoiDecimal: integers are unbounded, so `atoi` on a value outside the 32-bit `int` range (undefined in C) and `std::to_string` of such a value are not modelled.
