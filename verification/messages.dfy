/**
  The two lines the listener writes for every accepted connection: the log
  line (console, and the log file when one is open) and the greeting sent to
  the peer. The timestamp and the addresses are opaque strings produced by
  `strftime` and `inet_ntop`; ports are rendered in decimal.

  Each format has a parser as its partner: the lemmas below show that a
  parser recovers exactly the fields a line was formatted from, and that any
  line a parser accepts is the formatting of what it returned.
 */
module Messages {
  import opened Text
  import opened Numerals
  import opened Wrappers

  const LogLead: string := "] Connection established with: "
  const GreetingLead: string := "Connection established with "
  const OnPort: string := " on port "
  const At: string := " at "

  /**
    The shape `strftime` gives `%Y-%m-%d %H:%M:%S` for a four-digit year:
    each `D` of the pattern stands for a digit, every other character for
    itself.
   */
  const TimestampPattern: string := "DDDD-DD-DD DD:DD:DD"

  const TimestampLength: nat := |TimestampPattern|

  predicate IsTimestamp(ts: string) {
    && |ts| == TimestampLength
    && forall i :: 0 <= i < |ts| ==>
         if TimestampPattern[i] == 'D' then IsDigit(ts[i]) else ts[i] == TimestampPattern[i]
  }

  datatype LogEntry = LogEntry(timestamp: string, peerIp: string, port: int)

  datatype GreetingFields = GreetingFields(localIp: string, port: int, timestamp: string)

  /**
    The line `logConnection` writes: bracketed timestamp, the peer address and
    the port, ended by `std::endl`.
   */
  function LogLine(timestamp: string, peerIp: string, port: int): (line: string)
    ensures StartsWith(line, "[") && EndsWith(line, "\n")
  {
    "[" + timestamp + LogLead + peerIp + OnPort + Decimal(port) + "\n"
  }

  /** The message `handleConnection` sends to the peer. */
  function Greeting(localIp: string, port: int, timestamp: string): (msg: string)
    ensures StartsWith(msg, GreetingLead) && EndsWith(msg, "\n")
  {
    GreetingLead + localIp + OnPort + Decimal(port) + At + timestamp + "\n"
  }

  /**
    Splits `s` as `front + " on port " + numeral`, the numeral being the last
    space-free word of `s` in the form `std::to_string` writes.
   */
  function SplitPortSuffix(s: string): (r: Option<(string, int)>)
    ensures r.Some? ==> r.value.0 + OnPort + Decimal(r.value.1) == s
  {
    var (rest, numeral) := SplitLastWord(s);
    match StripSuffix(rest, OnPort)
    case None => None
    case Some(front) =>
      match ParseDecimal(numeral)
      case None => None
      case Some(port) => Some((front, port))
  }

  lemma SplitPortSuffixOf(front: string, port: int)
    ensures SplitPortSuffix(front + OnPort + Decimal(port)) == Some((front, port))
  {
    SplitLastWordAfterSpace(front + OnPort, Decimal(port));
    StripSuffixOf(front, OnPort);
    ParseDecimalOfDecimal(port);
  }

  /** Splits `"[" + timestamp + "] Connection established with: " + peerIp`. */
  function ParseLogHead(head: string): (r: Option<(string, string)>)
    ensures r.Some? ==> IsTimestamp(r.value.0) && "[" + r.value.0 + LogLead + r.value.1 == head
  {
    match StripPrefix(head, "[")
    case None => None
    case Some(stamped) =>
      if |stamped| < TimestampLength || !IsTimestamp(stamped[..TimestampLength]) then None
      else
        var timestamp := stamped[..TimestampLength];
        match StripPrefix(stamped[TimestampLength..], LogLead)
        case None => None
        case Some(peerIp) =>
          assert "[" + timestamp + LogLead + peerIp == head by {
            assert stamped == timestamp + (LogLead + peerIp);
            assert "[" + timestamp + LogLead + peerIp == "[" + (timestamp + (LogLead + peerIp));
          }
          Some((timestamp, peerIp))
  }

  lemma ParseLogHeadOf(timestamp: string, peerIp: string)
    requires IsTimestamp(timestamp)
    ensures ParseLogHead("[" + timestamp + LogLead + peerIp) == Some((timestamp, peerIp))
  {
    var rest := LogLead + peerIp;
    var stamped := timestamp + rest;
    assert "[" + timestamp + LogLead + peerIp == "[" + stamped;
    StripPrefixOf("[", stamped);
    assert stamped[..TimestampLength] == timestamp && stamped[TimestampLength..] == rest;
    StripPrefixOf(LogLead, peerIp);
  }

  /** Splits `front + " at " + timestamp`, the timestamp taking the last characters. */
  function SplitStampSuffix(body: string): (r: Option<(string, string)>)
    ensures r.Some? ==> IsTimestamp(r.value.1) && r.value.0 + At + r.value.1 == body
  {
    if |body| < TimestampLength then None
    else
      var timestamp := body[|body| - TimestampLength..];
      var beforeStamp := body[..|body| - TimestampLength];
      if !IsTimestamp(timestamp) then None
      else
        match StripSuffix(beforeStamp, At)
        case None => None
        case Some(front) =>
          assert body == beforeStamp + timestamp;
          Some((front, timestamp))
  }

  lemma SplitStampSuffixOf(front: string, timestamp: string)
    requires IsTimestamp(timestamp)
    ensures SplitStampSuffix(front + At + timestamp) == Some((front, timestamp))
  {
  }

  /**
    Reads a log line back. It accepts exactly the lines `LogLine` produces
    from a well-formed timestamp: what it returns formats to the same line.
   */
  function ParseLogLine(line: string): (r: Option<LogEntry>)
    ensures r.Some? ==> IsTimestamp(r.value.timestamp)
    ensures r.Some? ==> LogLine(r.value.timestamp, r.value.peerIp, r.value.port) == line
  {
    match StripSuffix(line, "\n")
    case None => None
    case Some(body) =>
      match SplitPortSuffix(body)
      case None => None
      case Some((head, port)) =>
        match ParseLogHead(head)
        case None => None
        case Some((timestamp, peerIp)) => Some(LogEntry(timestamp, peerIp, port))
  }

  /**
    Reads a greeting back. It accepts exactly the messages `Greeting`
    produces with a well-formed timestamp: what it returns formats to the
    same message.
   */
  function ParseGreeting(msg: string): (r: Option<GreetingFields>)
    ensures r.Some? ==> IsTimestamp(r.value.timestamp)
    ensures r.Some? ==> Greeting(r.value.localIp, r.value.port, r.value.timestamp) == msg
  {
    match StripSuffix(msg, "\n")
    case None => None
    case Some(body) =>
      match SplitStampSuffix(body)
      case None => None
      case Some((front, timestamp)) =>
        match SplitPortSuffix(front)
        case None => None
        case Some((head, port)) =>
          match StripPrefix(head, GreetingLead)
          case None => None
          case Some(localIp) => Some(GreetingFields(localIp, port, timestamp))
  }

  /** Parsing a formatted log line gives back its timestamp, peer and port. */
  lemma LogLineRoundTrip(timestamp: string, peerIp: string, port: int)
    requires IsTimestamp(timestamp)
    ensures ParseLogLine(LogLine(timestamp, peerIp, port)) == Some(LogEntry(timestamp, peerIp, port))
  {
    var head := "[" + timestamp + LogLead + peerIp;
    var body := head + OnPort + Decimal(port);
    assert StripSuffix(LogLine(timestamp, peerIp, port), "\n") == Some(body) by {
      StripSuffixOf(body, "\n");
    }
    assert SplitPortSuffix(body) == Some((head, port)) by {
      SplitPortSuffixOf(head, port);
    }
    assert ParseLogHead(head) == Some((timestamp, peerIp)) by {
      ParseLogHeadOf(timestamp, peerIp);
    }
  }

  /** Parsing a formatted greeting gives back its address, port and timestamp. */
  lemma GreetingRoundTrip(localIp: string, port: int, timestamp: string)
    requires IsTimestamp(timestamp)
    ensures ParseGreeting(Greeting(localIp, port, timestamp)) == Some(GreetingFields(localIp, port, timestamp))
  {
    var head := GreetingLead + localIp;
    var front := head + OnPort + Decimal(port);
    var body := front + At + timestamp;
    assert StripSuffix(Greeting(localIp, port, timestamp), "\n") == Some(body) by {
      StripSuffixOf(body, "\n");
    }
    assert SplitStampSuffix(body) == Some((front, timestamp)) by {
      SplitStampSuffixOf(front, timestamp);
    }
    assert SplitPortSuffix(front) == Some((head, port)) by {
      SplitPortSuffixOf(head, port);
    }
    assert StripPrefix(head, GreetingLead) == Some(localIp) by {
      StripPrefixOf(GreetingLead, localIp);
    }
  }

  /** The greeting names the port: it contains `" on port "` followed by the port in decimal. */
  lemma GreetingMentionsPort(localIp: string, port: int, timestamp: string)
    ensures IsInfix(OnPort + Decimal(port), Greeting(localIp, port, timestamp))
  {
    var msg := Greeting(localIp, port, timestamp);
    var k := |GreetingLead| + |localIp|;
    assert msg[k..k + |OnPort + Decimal(port)|] == OnPort + Decimal(port);
    assert OccursAt(OnPort + Decimal(port), msg, k);
  }

  /**
    When neither the address nor the timestamp holds a line break, the
    greeting is one line: its only newline is the last character.
   */
  lemma GreetingIsOneLine(localIp: string, port: int, timestamp: string)
    requires '\n' !in localIp && '\n' !in timestamp
    ensures var msg := Greeting(localIp, port, timestamp);
      forall i :: 0 <= i < |msg| ==> (msg[i] == '\n' <==> i == |msg| - 1)
  {
  }

  /**
    When neither the timestamp nor the peer address holds a line break, the
    log line is one line: its only newline is the one `std::endl` writes.
   */
  lemma LogLineIsOneLine(timestamp: string, peerIp: string, port: int)
    requires '\n' !in timestamp && '\n' !in peerIp
    ensures var line := LogLine(timestamp, peerIp, port);
      forall i :: 0 <= i < |line| ==> (line[i] == '\n' <==> i == |line| - 1)
  {
  }
}
