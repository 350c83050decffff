/** The publisher variants, the factory `New` that picks one from the
    configured destination, and the single producer operation `Push`.

    The calls into the operating system and the syslog package (`os.Chmod`,
    `os.Create`, `syslog.Dial`) are not modelled; their outcomes are inputs
    of `New`. */
module Publishers {
  import opened Wrappers
  import opened Decimal
  import opened LoggerUrl
  import DeliveryQueue

  /** The handle a stream publisher writes to. */
  datatype Output = Stdout | Stderr | File(path: string)

  /** A value of Go's `Publisher` interface. */
  datatype Publisher =
    | Nil
    | Dummy
    | Debug
    | Stream(output: Output, queue: DeliveryQueue.Queue)
    | Rsyslog(network: string, raddr: string, tag: string, queue: DeliveryQueue.Queue)
  {
    /** The variants that hand entries to a worker through a queue. */
    predicate HasQueue() {
      Stream? || Rsyslog?
    }

    predicate Valid() {
      HasQueue() ==> DeliveryQueue.Valid(queue)
    }

    /** The same publisher over another state of its queue. */
    function WithQueue(q: DeliveryQueue.Queue): (p: Publisher)
      requires HasQueue()
      ensures p.HasQueue() && p.queue == q
    {
      if Stream? then Stream(output, q) else Rsyslog(network, raddr, tag, q)
    }
  }

  /** Outcomes of the calls `New` makes into the operating system and the
      syslog package: whether `os.Chmod` and `os.Create` succeed on the
      file path, and the error `syslog.Dial` returns, if any. */
  datatype IoOutcomes = IoOutcomes(chmodOk: bool, createOk: bool, dialError: Option<string>)

  /** What `New` returns: the publisher and the status message. */
  datatype Built = Built(publisher: Publisher, msg: string)

  const SinkMessage := "Transaction log goes to sink"
  const DebugMessage := "Transaction log goes to the service logger"
  const StdoutMessage := "Transaction log goes to the stdout"
  const StderrMessage := "Transaction log goes to the stderr"

  /** The configured destination: the `TRANSACTION_LOGGER` environment
      variable, or the default of the `-logger` flag when it is empty (the
      flags are registered but never parsed, so the default always wins). */
  function ConfiguredUrl(env: string): (url: string)
    ensures |url| > 0
    ensures env != "" ==> url == env
  {
    if env == "" then "dummy" else env
  }

  predicate IsKnownProtocol(protocol: string) {
    protocol in {"rsyslog", "dummy", "sink", "debug", "stdout", "stderr", "file"}
  }

  function ParseFailureMessage(url: string): string {
    "Failed to parse activity log URL '" + url + "'. Using default: sink"
  }

  /** `fmt.Sprintf("%s:%d", host, port)`: the host, a colon, and the
      port's decimal digits. */
  function HostPort(params: LoggerParameters): (raddr: string)
    requires params.port >= 0
    ensures |raddr| > |params.host| + 1
    ensures raddr[..|params.host|] == params.host && raddr[|params.host|] == ':'
    ensures IsDigits(raddr[|params.host| + 1..])
  {
    var d := Itoa(params.port);
    assert (params.host + ":" + d)[|params.host| + 1..] == d;
    params.host + ":" + d
  }

  /** The address reads back: the digits after the host's colon are the
      port, for every port a parse can produce. */
  lemma HostPortReadsBack(params: LoggerParameters)
    requires 0 <= params.port <= MaxInt
    ensures Atoi(HostPort(params)[|params.host| + 1..]) == params.port
  {
    var d := Itoa(params.port);
    assert HostPort(params)[|params.host| + 1..] == d;
    AtoiItoa(params.port);
  }

  /** `NewRsyslog`: on a failed dial a nil publisher and the error;
      otherwise a publisher over TCP (the `--udp` flag is never parsed) on
      the address `host:port`, with an empty tag and a fresh queue. */
  function NewRsyslog(chSize: nat, params: LoggerParameters, dialError: Option<string>): (r: (Publisher, Option<string>))
    requires params.port >= 0
    ensures r.1 == dialError
    ensures r.0.Nil? <==> dialError.Some?
    ensures dialError.None? ==> r.0 == Rsyslog("tcp", HostPort(params), "", DeliveryQueue.Empty(chSize))
  {
    match dialError
    case Some(e) => (Nil, Some(e))
    case None => (Rsyslog("tcp", HostPort(params), "", DeliveryQueue.Empty(chSize)), None)
  }

  /** The `switch` on the protocol. `before` is what the function holds when
      the switch is reached: a nil publisher, and the parse-failure message
      or the empty string. A protocol no case names leaves it unchanged. */
  function Dispatch(params: LoggerParameters, chSize: nat, io: IoOutcomes, before: Built): (r: Built)
    requires params.port >= 0
    ensures params.protocol == "file" ==>
      && (io.createOk ==> r == Built(Stream(File(params.host), DeliveryQueue.Empty(chSize)),
                                    "Transaction log goes to the file '" + params.host + "'"))
      && (!io.createOk ==> r == Built(Dummy, "Failed to open transaction log file '" + params.host + "' for writing"))
    ensures params.protocol == "rsyslog" ==>
      && (io.dialError.Some? ==>
            r == Built(Nil, "Failed to dial rsyslog " + HostPort(params) + " " + io.dialError.value))
      && (io.dialError.None? ==>
            r == Built(Rsyslog("tcp", HostPort(params), "", DeliveryQueue.Empty(chSize)),
                       "Transaction log goes to rsyslog " + HostPort(params)))
    ensures params.protocol == "dummy" || params.protocol == "sink" ==> r == Built(Dummy, SinkMessage)
    ensures params.protocol == "debug" ==> r == Built(Debug, DebugMessage)
    ensures params.protocol == "stdout" ==> r == Built(Stream(Stdout, DeliveryQueue.Empty(chSize)), StdoutMessage)
    ensures params.protocol == "stderr" ==> r == Built(Stream(Stderr, DeliveryQueue.Empty(chSize)), StderrMessage)
    ensures !IsKnownProtocol(params.protocol) ==> r == before
    ensures IsKnownProtocol(params.protocol) ==>
      && r.msg != ""
      && (r.publisher.Nil? <==> params.protocol == "rsyslog" && io.dialError.Some?)
      && (r.publisher.HasQueue() ==> r.publisher.queue == DeliveryQueue.Empty(chSize))
  {
    var protocol := params.protocol;
    if protocol == "rsyslog" then
      var (p, err) := NewRsyslog(chSize, params, io.dialError);
      if err.Some? then Built(p, "Failed to dial rsyslog " + HostPort(params) + " " + err.value)
      else Built(p, "Transaction log goes to rsyslog " + HostPort(params))
    else if protocol == "dummy" || protocol == "sink" then
      Built(Dummy, SinkMessage)
    else if protocol == "debug" then
      Built(Debug, DebugMessage)
    else if protocol == "stdout" then
      Built(Stream(Stdout, DeliveryQueue.Empty(chSize)), StdoutMessage)
    else if protocol == "stderr" then
      Built(Stream(Stderr, DeliveryQueue.Empty(chSize)), StderrMessage)
    else if protocol == "file" then
      var filename := params.host;
      // What a failed chmod sets (the sink and "Failed to chmode ...") is
      // set again by both branches of the create, so its outcome is unused.
      if io.createOk then
        Built(Stream(File(filename), DeliveryQueue.Empty(chSize)), "Transaction log goes to the file '" + filename + "'")
      else
        Built(Dummy, "Failed to open transaction log file '" + filename + "' for writing")
    else
      before
  }

  /** `New`: parse the destination, fall back to the sink protocol when it
      does not parse, and build the publisher the protocol names. */
  function New(url: string, chSize: nat, io: IoOutcomes): (r: Built)
    // A destination that does not parse yields the sink; the parse-failure
    // message is overwritten by the sink's.
    ensures ParseLoggerUrl(url).err.Some? ==> r == Built(Dummy, SinkMessage)
    // A file destination: a stream on the file exactly when create
    // succeeds, whatever chmod did; otherwise the sink and the open failure.
    ensures var p := ParseLoggerUrl(url); p.err.None? && p.params.protocol == "file" ==>
      && (r.publisher.Stream? <==> io.createOk)
      && (io.createOk ==> r == Built(Stream(File(p.params.host), DeliveryQueue.Empty(chSize)),
                                    "Transaction log goes to the file '" + p.params.host + "'"))
      && (!io.createOk ==> r == Built(Dummy, "Failed to open transaction log file '" + p.params.host + "' for writing"))
    // An rsyslog destination: a nil publisher and the dial error in the
    // message when the dial fails, otherwise a TCP publisher on host:port.
    ensures var p := ParseLoggerUrl(url); p.err.None? && p.params.protocol == "rsyslog" ==>
      && (r.publisher.Nil? <==> io.dialError.Some?)
      && (io.dialError.Some? ==>
            r.msg == "Failed to dial rsyslog " + HostPort(p.params) + " " + io.dialError.value)
      && (io.dialError.None? ==>
            r == Built(Rsyslog("tcp", HostPort(p.params), "", DeliveryQueue.Empty(chSize)),
                       "Transaction log goes to rsyslog " + HostPort(p.params)))
    // The keywords and a parsed sink protocol: the publisher each names.
    ensures var p := ParseLoggerUrl(url); p.err.None? && (p.params.protocol == "dummy" || p.params.protocol == "sink") ==>
      r == Built(Dummy, SinkMessage)
    ensures var p := ParseLoggerUrl(url); p.err.None? && p.params.protocol == "debug" ==>
      r == Built(Debug, DebugMessage)
    ensures var p := ParseLoggerUrl(url); p.err.None? && p.params.protocol == "stdout" ==>
      r == Built(Stream(Stdout, DeliveryQueue.Empty(chSize)), StdoutMessage)
    ensures var p := ParseLoggerUrl(url); p.err.None? && p.params.protocol == "stderr" ==>
      r == Built(Stream(Stderr, DeliveryQueue.Empty(chSize)), StderrMessage)
    // A parsed protocol no case names: a nil publisher and an empty message.
    ensures var p := ParseLoggerUrl(url); p.err.None? && !IsKnownProtocol(p.params.protocol) ==>
      r == Built(Nil, "")
    // The publisher is nil only for an unknown protocol or a failed dial.
    ensures r.publisher.Nil? <==>
      var p := ParseLoggerUrl(url);
      p.err.None? && (!IsKnownProtocol(p.params.protocol) || (p.params.protocol == "rsyslog" && io.dialError.Some?))
    // Only an unknown protocol leaves the message empty.
    ensures r.msg == "" <==> ParseLoggerUrl(url).err.None? && !IsKnownProtocol(ParseLoggerUrl(url).params.protocol)
    // A publisher with a queue starts with an empty one of the configured size.
    ensures r.publisher.HasQueue() ==> r.publisher.queue == DeliveryQueue.Empty(chSize)
  {
    var parsed := ParseLoggerUrl(url);
    var msg := if parsed.err.Some? then ParseFailureMessage(url) else "";
    var params := if parsed.err.Some? then parsed.params.(protocol := "dummy") else parsed.params;
    Dispatch(params, chSize, io, Built(Nil, msg))
  }

  /** What one `Push` does: the publisher afterwards and what it printed;
      or the sender blocks on a full queue; or the call panics on a nil
      publisher. */
  datatype PushOutcome = Accepted(publisher: Publisher, printed: Option<string>) | Blocked | Panic

  /** `Push(s)` on each variant. */
  function Push(p: Publisher, s: string): (r: PushOutcome)
    requires p.Valid()
    ensures r.Panic? <==> p.Nil?
    ensures r.Accepted? ==> r.publisher.Valid()
    // The sink drops the entry.
    ensures p.Dummy? ==> r == Accepted(Dummy, None)
    // The debug publisher prints it at once and keeps nothing.
    ensures p.Debug? ==> r == Accepted(Debug, Some("Transaction " + s))
    // The queued variants block exactly when the channel is full and no
    // worker is waiting; otherwise the entry joins the back of the queue
    // and nothing else changes.
    ensures p.HasQueue() ==>
      && (r.Blocked? <==> |p.queue.pending| >= p.queue.cap && !DeliveryQueue.WorkerWaiting(p.queue))
      && (r.Accepted? ==>
            && r.printed.None?
            && r.publisher.HasQueue()
            && r.publisher == p.WithQueue(r.publisher.queue)
            && DeliveryQueue.Contents(r.publisher.queue) == DeliveryQueue.Contents(p.queue) + [s]
            && r.publisher.queue.written == p.queue.written
            && r.publisher.queue.cap == p.queue.cap)
  {
    match p
    case Nil => Panic
    case Dummy => Accepted(Dummy, None)
    case Debug => Accepted(Debug, Some("Transaction " + s))
    case _ =>
      match DeliveryQueue.Push(p.queue, s)
      case None => Blocked
      case Some(q') => Accepted(p.WithQueue(q'), None)
  }

  /** One step of the worker goroutine of a queued publisher: write the entry
      it holds, or else receive the next one. None when the publisher has no
      worker or the worker is waiting on an empty channel. */
  function Work(p: Publisher): (r: Option<Publisher>)
    requires p.Valid()
    ensures r.Some? <==> p.HasQueue() && DeliveryQueue.Contents(p.queue) != []
    ensures r.Some? ==> r.value.Valid() && r.value.HasQueue() && r.value == p.WithQueue(r.value.queue)
    // A worker holding an entry writes it, terminated, after the earlier
    // lines, and it leaves the front of the queue; an idle worker receives
    // the oldest buffered entry, writes nothing and moves no entry past
    // another. The capacity never changes.
    ensures r.Some? ==>
      var q, q' := p.queue, r.value.queue;
      && q'.cap == q.cap
      && (q.inFlight.Some? ==>
            && q'.inFlight.None?
            && q'.written == q.written + [q.inFlight.value + "\n"]
            && DeliveryQueue.Contents(q) == [q.inFlight.value] + DeliveryQueue.Contents(q'))
      && (q.inFlight.None? ==>
            && q.pending != []
            && q'.inFlight == Some(q.pending[0])
            && q'.written == q.written
            && DeliveryQueue.Contents(q') == DeliveryQueue.Contents(q))
  {
    if !p.HasQueue() then None
    else
      match DeliveryQueue.Write(p.queue)
      case Some(q') => Some(p.WithQueue(q'))
      case None =>
        match DeliveryQueue.Receive(p.queue)
        case Some(q') => Some(p.WithQueue(q'))
        case None => None
  }

  /** The outcome of chmod never matters: only create decides. */
  lemma ChmodIrrelevant(url: string, chSize: nat, createOk: bool, dialError: Option<string>)
    ensures New(url, chSize, IoOutcomes(true, createOk, dialError))
         == New(url, chSize, IoOutcomes(false, createOk, dialError))
  {
  }

  /** The bare keywords select their publishers without any I/O. */
  lemma KeywordDestinations(chSize: nat, io: IoOutcomes)
    ensures New("dummy", chSize, io) == Built(Dummy, SinkMessage)
    ensures New("sink", chSize, io) == Built(Dummy, SinkMessage)
    ensures New("debug", chSize, io) == Built(Debug, DebugMessage)
    ensures New("stdout", chSize, io) == Built(Stream(Stdout, DeliveryQueue.Empty(chSize)), StdoutMessage)
    ensures New("stderr", chSize, io) == Built(Stream(Stderr, DeliveryQueue.Empty(chSize)), StderrMessage)
  {
  }

  /** With the environment variable unset, the sink is used. */
  lemma UnsetEnvironmentGivesSink(chSize: nat, io: IoOutcomes)
    ensures New(ConfiguredUrl(""), chSize, io) == Built(Dummy, SinkMessage)
  {
  }
}
