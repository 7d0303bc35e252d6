/**
  What the accept loop writes for one accepted connection on one listener:
  the log line on the console, the same line in the log file when one is
  open, and the greeting handed to the connection's handler. Each write takes
  its own reading of the clock, so the three timestamps are separate inputs.
 */
module Connection {
  import opened Wrappers
  import opened Numerals
  import opened Messages
  import opened Ports

  datatype Writes = Writes(console: string, file: Option<string>, greeting: string)

  /** The writes for one connection from `peerIp`, accepted on `listener`. */
  function Accepted(listener: Listener, peerIp: string, localIp: string, fileOpen: bool,
                    consoleTime: string, fileTime: string, greetingTime: string): (w: Writes)
    ensures w.file.Some? <==> fileOpen
  {
    Writes(
      LogLine(consoleTime, peerIp, listener.reportedPort),
      if fileOpen then Some(LogLine(fileTime, peerIp, listener.reportedPort)) else None,
      Greeting(localIp, listener.reportedPort, greetingTime))
  }

  /**
    Every write for one connection names the same peer or local address and
    the listener's reported port: each line parses back to exactly those
    fields and its own timestamp.
   */
  lemma AcceptedWritesAgree(listener: Listener, peerIp: string, localIp: string, fileOpen: bool,
                            consoleTime: string, fileTime: string, greetingTime: string)
    requires IsTimestamp(consoleTime) && IsTimestamp(fileTime) && IsTimestamp(greetingTime)
    ensures var w := Accepted(listener, peerIp, localIp, fileOpen, consoleTime, fileTime, greetingTime);
      && ParseLogLine(w.console) == Some(LogEntry(consoleTime, peerIp, listener.reportedPort))
      && (fileOpen ==> ParseLogLine(w.file.value) == Some(LogEntry(fileTime, peerIp, listener.reportedPort)))
      && ParseGreeting(w.greeting) == Some(GreetingFields(localIp, listener.reportedPort, greetingTime))
  {
    LogLineRoundTrip(consoleTime, peerIp, listener.reportedPort);
    LogLineRoundTrip(fileTime, peerIp, listener.reportedPort);
    GreetingRoundTrip(localIp, listener.reportedPort, greetingTime);
  }

  /**
    The port a connection is announced on (in the log and in the greeting)
    is the port the listener is bound to exactly when the argument's `atoi`
    value fits in 16 unsigned bits; otherwise, as for `-p 70000`, the
    announcement names a port nobody is listening on.
   */
  lemma AnnouncedPortIsBoundPortIff(portArgs: seq<string>, i: int, peerIp: string, localIp: string,
                                    consoleTime: string, greetingTime: string)
    requires 0 <= i < |portArgs|
    requires IsTimestamp(consoleTime) && IsTimestamp(greetingTime)
    ensures var listener := PlanListeners(portArgs)[i];
      var w := Accepted(listener, peerIp, localIp, false, consoleTime, consoleTime, greetingTime);
      var announced := Atoi(portArgs[i]);
      && ParseLogLine(w.console) == Some(LogEntry(consoleTime, peerIp, announced))
      && ParseGreeting(w.greeting) == Some(GreetingFields(localIp, announced, greetingTime))
      && (announced == FromNetworkOrder(listener.sinPort) <==> 0 <= announced < PortCount)
  {
    var listener := PlanListeners(portArgs)[i];
    var w := Accepted(listener, peerIp, localIp, false, consoleTime, consoleTime, greetingTime);
    assert listener.reportedPort == Atoi(portArgs[i]);
    assert FromNetworkOrder(listener.sinPort) == BoundPort(portArgs[i]);
    AcceptedWritesAgree(listener, peerIp, localIp, false, consoleTime, consoleTime, greetingTime);
    BoundMatchesReportedIff(portArgs[i]);
  }
}
