# Transaction logger publisher — a Dafny model

The transaction logger is a small Go package. It takes one configured
destination string and ships log entries there asynchronously. The
destination can be a bare keyword (`debug`, `stdout`, `stderr`, `dummy`,
`sink`), `scheme://host:port` or `scheme://host`. The factory `New`
parses the string, picks a publisher variant and returns it with a status
message. The stream and rsyslog variants put each entry on a bounded
channel. A worker goroutine drains that channel and writes every entry
with a line terminator.

This project models three parts of the package:

- **The URL parser** (`LoggerUrl.ParseLoggerUrl`). Its two regular
  expressions are modelled with RE2 `FindStringSubmatch` semantics
  (`url_pattern.dfy`):
  - the search is unanchored;
  - the match that starts first wins;
  - among matches with the same start, the greedy groups decide, longest
    first group first;
  - `\S` is every character outside `[\t\n\f\r ]`.

  Each pattern has a relational definition of "a match" and of "the
  preferred match". Executable searches are proved to return exactly the
  preferred match, or nothing when no match exists. Inputs may contain
  whitespace. `strconv.Atoi` on the digit run is modelled with its 64-bit
  clamp.
- **The dispatch in `New`** (`Publishers.New`). It is a pure function of:
  - the destination string;
  - the channel size;
  - the outcomes of `os.Chmod`, `os.Create` and `syslog.Dial`.

  It keeps the source's overwriting of the publisher and the message.
- **The delivery queue** (`DeliveryQueue`). This is the buffered channel
  plus its worker, as a sequential state machine. A send on a full
  channel blocks and nothing is dropped. The worker's receive and its
  write are separate steps, so the entry the worker holds is part of the
  state. As in Go's runtime, a send hands its entry straight to a worker
  parked in its receive, whatever the channel's size; so a burst fits when
  it is at most the free buffer slots plus one for a parked worker.

Behaviour of the code worth noting:
- A full channel blocks the sender. It does not drop the entry.
- The port pattern is not anchored at the end of the string, so a trailing
  all-digit suffix is not required. `file:///var/log/app:1.log` parses as
  protocol `file`, host `/var/log/app`, port 1
  (`UrlRoundTrip.ExampleFilePathWithColonDigit`). More generally, for a
  non-empty, whitespace-free protocol p without `:` and a non-empty,
  whitespace-free host h without `://`, text after the digits of `p://h:d`
  is ignored when it has no colon or slash and does not start with a digit
  (`UrlRoundTrip.ParsePortText`).
- A failed rsyslog dial yields a nil publisher, not the sink. `Push` on
  that publisher panics.
- After a parse failure the final message is `Transaction log goes to
  sink`. The parse-failure text is overwritten.
- The parse error text is `Failed to parse <input>`.

Files: `wrappers.dfy` (Option), `decimal.dfy` (digits, `Atoi`, `%d`),
`url_pattern.dfy` (the two regexes), `logger_url.dfy` (the parser),
`url_roundtrip.dfy` (round trips and examples), `delivery_queue.dfy`
(the channel and its worker), `publishers.dfy` (variants, `New`, `Push`).

## Model

| member | source | states |
|---|---|---|
| UrlPattern.FindPortMatch | transactionlogger.go:33-35 | None exactly when no substring matches `(\S+)://(\S+):([0-9]+)`; otherwise the leftmost-first match: earliest start, then longest first group, then longest second, then longest digit run |
| UrlPattern.FindHostMatch | transactionlogger.go:46-47 | None exactly when no substring matches `(\S+)://(\S+)`; otherwise the leftmost-first match: earliest start, then longest first group, then longest second |
| UrlPattern.DigitRunEnd | transactionlogger.go:33 | the greedy `[0-9]+` covers only digits and stops at the first non-digit or at the end of the input |
| UrlPattern.TokenEnd | transactionlogger.go:46 | the greedy trailing `\S+` ends at the first whitespace character or at the end of the input |
| UrlPattern.LastColon | transactionlogger.go:33 | greedy second group: the last `:`-then-digit below the bound reachable from the group's start through non-whitespace only, and None exactly when there is none |
| UrlPattern.LastScheme | transactionlogger.go:33 | greedy first group: the last `://` below the bound after which the rest of the port pattern can still match, and None exactly when there is none |
| LoggerUrl.ParseLoggerUrl | transactionlogger.go:22-64 | a keyword gives (keyword, 0, "localhost") with no error; an error comes with the zero-valued parameters and the text "Failed to parse <input>"; a successful parse has port >= 0; a non-keyword success has non-empty, whitespace-free protocol and host |
| LoggerUrl.ParsePortMatch | transactionlogger.go:33-43 | whenever a leftmost-first port-form match exists in a non-keyword input, the parser returns exactly its groups, with no error |
| LoggerUrl.ParseHostMatch | transactionlogger.go:45-62 | whenever the port form has no match and a leftmost-first host-form match exists in a non-keyword input, the parser returns exactly its groups, with no error |
| LoggerUrl.PortGroupsOccur | transactionlogger.go:33-36 | the groups of a port-form match appear in the input as protocol + "://" + host + ":" + digits, and the port is the Atoi value of a non-empty digit run |
| LoggerUrl.HostGroupsOccur | transactionlogger.go:46-48 | the groups of a host-form match appear in the input as protocol + "://" + host |
| LoggerUrl.ParsePortForm | transactionlogger.go:33-43 | when the port pattern matches, parsing succeeds with the groups of the leftmost-first match; the port is the Atoi value of the digits; protocol + "://" + host + ":" + digits occurs in the input |
| LoggerUrl.ParseHostForm | transactionlogger.go:45-62 | when only the host pattern matches, parsing succeeds with its leftmost-first groups; protocol + "://" + host occurs in the input; the port is 514 exactly for rsyslog and 0 exactly otherwise |
| LoggerUrl.ParseFailsIff | transactionlogger.go:23-63 | parsing fails exactly when the input is no keyword and has no `://` with a non-whitespace character on each side (both directions) |
| LoggerUrl.HostMatchIffSeparator | transactionlogger.go:46-47 | the host pattern matches exactly when some `://` has a non-whitespace neighbour on both sides |
| LoggerUrl.LeftmostFirstPortUnique | transactionlogger.go:33-35 | the leftmost-first port match is unique, so the regex semantics alone fix the groups |
| LoggerUrl.LeftmostFirstHostUnique | transactionlogger.go:46-47 | the leftmost-first host match is unique |
| UrlRoundTrip.ParsePortText | transactionlogger.go:33-42 | for p and h non-empty and whitespace-free, p without `:` and h without `://`, `p://h:d` (d a non-empty digit run) followed by text with no colon, no slash and no leading digit parses to (p, Atoi(d), h); the trailing text is ignored |
| UrlRoundTrip.ParsePortRoundTrip | transactionlogger.go:33-42 | for p and h non-empty and whitespace-free, p without `:` and h without `://`, writing (p, n, h) as `p://h:n` and parsing it gives (p, n, h) back, for every n in [0, 2^63-1] |
| UrlRoundTrip.ParseHostRoundTrip | transactionlogger.go:46-61 | for p and h non-empty and whitespace-free, p without `:` and h without `://`, and h with no colon followed by a digit, writing `p://h` and parsing gives (p, 514 if p is rsyslog else 0, h) |
| UrlRoundTrip.ExampleRsyslogWithPort | transactionlogger.go:33-42 | "rsyslog://127.0.0.1:514" parses to ("rsyslog", 514, "127.0.0.1") |
| UrlRoundTrip.ExampleRsyncWithPort | transactionlogger.go:31-42 | "rsync://127.0.0.1:3306" parses to ("rsync", 3306, "127.0.0.1") |
| UrlRoundTrip.ExampleRsyslogDefaultPort | transactionlogger.go:46-61 | "rsyslog://127.0.0.1" parses to ("rsyslog", 514, "127.0.0.1") |
| UrlRoundTrip.ExampleFile | transactionlogger.go:45-61 | "file:///var/log/x.log" parses to ("file", 0, "/var/log/x.log") |
| UrlRoundTrip.ExampleFilePathWithColonDigit | transactionlogger.go:33-42 | the unanchored port pattern reads "file:///var/log/app:1.log" as host "/var/log/app", port 1 |
| UrlRoundTrip.ExampleNotAUrl | transactionlogger.go:63 | "not-a-url" fails with the zero-valued parameters and "Failed to parse not-a-url" |
| UrlRoundTrip.PortNotSwallowed | transactionlogger.go:35-47 | the port pattern is tried first, so "rsyslog://127.0.0.1:514" never yields host "127.0.0.1:514" |
| Decimal.Atoi | transactionlogger.go:36 | the result lies in [0, 2^63-1], never exceeds the digits' value, and equals it whenever it fits in an int |
| Decimal.AtoiItoa | transactionlogger.go:36 | Atoi inverts `%d` on every non-negative int |
| Decimal.Itoa | transactionlogger.go:92-94 | `%d` of a non-negative int is a non-empty digit string with no leading zero |
| Decimal.ValueOfItoa | transactionlogger.go:92-94 | the decimal text of n, as `%d` prints it in the status messages, has value n |
| Publishers.HostPort | transactionlogger.go:147 | the address is the host, a colon, then only decimal digits |
| Publishers.HostPortReadsBack | transactionlogger.go:147 | the digits after the host's colon read back as the port, for every port in Go's 64-bit int range |
| Publishers.NewRsyslog | transactionlogger.go:146-168 | the error returned is exactly the dial error; the publisher is nil exactly when the dial fails; otherwise it uses TCP (the `--udp` flag is never parsed) on `host:port`, with an empty tag and a fresh channel of the given size |
| Publishers.Dispatch | transactionlogger.go:88-123 | each protocol gives its exact publisher and message: rsyslog a TCP publisher on `host:port` and "Transaction log goes to rsyslog host:port", or nil and the dial error; dummy/sink the sink; debug the debug publisher; stdout and stderr a stream on that handle; file a stream on the path when create succeeds, else the sink and the open failure; a protocol no case names leaves the earlier publisher and message unchanged |
| Publishers.New | transactionlogger.go:72-125 | parse failure gives the sink publisher and the sink message (the failure text is lost); a parsed dummy/sink, debug, stdout or stderr gives exactly that publisher and its message; file gives a stream on the path exactly when create succeeds, whatever chmod did, else the sink and the open-failure message; rsyslog gives a nil publisher and the dial error exactly when the dial fails, else a TCP publisher on `host:port` and the success message; an unknown protocol gives nil and an empty message; the publisher is nil only for an unknown protocol or a failed dial, and the message is empty only for an unknown protocol; a queued publisher starts empty with the configured size |
| Publishers.KeywordDestinations | transactionlogger.go:96-107 | the bare keywords `dummy`, `sink`, `debug`, `stdout` and `stderr` give the sink, the debug publisher and the two standard streams, with their messages |
| Publishers.ChmodIrrelevant | transactionlogger.go:108-122 | the outcome of chmod never changes what `New` returns |
| Publishers.UnsetEnvironmentGivesSink | transactionlogger.go:73-76 | with the environment variable empty, `New` gives the sink publisher and the sink message |
| Publishers.ConfiguredUrl | transactionlogger.go:73-76 | the destination is never empty, and it is the environment variable whenever that is set |
| Publishers.Push | transactionlogger.go:177-214 | Push panics exactly on a nil publisher; the sink keeps nothing; debug prints "Transaction " + entry; a queued publisher blocks exactly when its channel is full and no worker is parked, and otherwise adds the entry at the back, keeping the written lines, the capacity and the rest of the publisher |
| Publishers.Work | transactionlogger.go:198-222 | the worker can move exactly when its publisher has accepted entries not yet written; a worker holding an entry writes it with "\n" after the earlier lines and drops it from the front; an idle worker takes the oldest buffered entry and writes nothing; the capacity never changes |
| DeliveryQueue.Empty | transactionlogger.go:128-131 | a fresh channel is empty, has the given capacity, and its worker is parked |
| DeliveryQueue.Push | transactionlogger.go:194-214 | a send succeeds exactly when the worker is parked or the buffer has room; a parked worker takes the entry itself and the buffer stays empty; the entry joins the back of the queue, nothing is written, and the bound holds |
| DeliveryQueue.Receive | transactionlogger.go:201-219 | the worker takes the oldest buffered entry when idle; the queued order is unchanged |
| DeliveryQueue.Write | transactionlogger.go:202-220 | the worker writes the entry it holds, with "\n", after everything written before; that entry leaves the front of the queue |
| DeliveryQueue.StepKeepsOrder | transactionlogger.go:194-222 | one step only extends the output, and keeps the written lines followed by the lines of the queued entries equal to the earlier ones followed by the line of the entry sent |
| DeliveryQueue.AccountsTrans | transactionlogger.go:194-222 | that bookkeeping composes: two stretches of a run account for the entries of both, in order |
| DeliveryQueue.RunKeepsOrder | transactionlogger.go:194-222 | over any run, the buffer stays within capacity, the output only grows, and the written lines followed by the lines of the queued entries are the starting ones followed by the lines of all entries sent, in send order |
| DeliveryQueue.FifoFromEmpty | transactionlogger.go:128-131 | from a fresh channel: the written lines followed by the lines of the queued entries are exactly the sent entries, terminated, in send order, and the buffer holds at most its capacity |
| DeliveryQueue.WrittenIsSentPrefix | transactionlogger.go:194-222 | from a fresh channel, the written lines are the first sent entries, each with "\n", and the queue holds exactly the entries sent after them, in order |
| DeliveryQueue.RunThenDrain | transactionlogger.go:194-222 | after any run from a fresh channel, letting the worker catch up writes exactly the sent entries, each terminated, in send order: nothing is lost, duplicated or reordered |
| DeliveryQueue.PushedSends | transactionlogger.go:194-214 | the entries sent by a burst are exactly the burst |
| DeliveryQueue.BurstKeepsOrder | transactionlogger.go:194-222 | a burst that completes keeps the FIFO bookkeeping: the output only grows, and the written lines followed by the lines of the queued entries are the earlier ones followed by the lines of the burst, in order |
| DeliveryQueue.BufferFits | transactionlogger.go:194-214 | with the worker busy or the buffer non-empty, a burst that fits in the free slots is buffered in order behind the earlier entries and nothing else changes |
| DeliveryQueue.BurstFits | transactionlogger.go:194-214 | a burst of at most the free slots plus one for a parked worker completes, queued in order behind the earlier entries, with nothing written |
| DeliveryQueue.BurstBlocks | transactionlogger.go:194-214 | a burst longer than the free slots plus one for a parked worker blocks before it completes |
| DeliveryQueue.BurstBlocksWhenFull | transactionlogger.go:194-214 | with no worker step in between, a burst of sends completes exactly when it is at most the free slots plus one for a parked worker; nothing is dropped, and the burst is queued in order behind the earlier entries |
| DeliveryQueue.Drain | transactionlogger.go:198-222 | letting the worker run empties the queue, and the output gains every queued entry, in order, each with "\n" |
| DeliveryQueue.SendThenDrain | transactionlogger.go:194-222 | entries sent while there is room all reach the output, in send order, each terminated |
| DeliveryQueue.ThreeInOrder | transactionlogger.go:212-222 | any three entries a, b, c sent to a fresh channel of size at least 2 (two slots and the parked worker) come out as a + "\n", b + "\n", c + "\n" |

## Left out

- Reading the environment and the flags (`os.Getenv`, `flag.StringVar`,
  `flag.BoolVar`). Only their effect is modelled: an empty variable means
  `dummy`, and rsyslog always uses TCP because the flags are never parsed.
  Registering the same flag twice panics in Go, so a second call of `New`
  with the variable empty, or a second rsyslog dial, would panic. That is
  not modelled.
- Publishers.NewRsyslog: assumes `flag.BoolVar(&isUdp, "--udp", ...)` at
  transactionlogger.go:149 registers the flag. A Go release whose `flag`
  package rejects names that begin with "-" panics there, before dialing,
  for every rsyslog destination; that panic is not modelled, and no Go
  release is pinned.
- `TRANSACTION_LOGGER_CH_SIZE` and its `strconv.Atoi` conversion: the
  channel size is a parameter (`nat`), and the default 32 * 1024 is one
  value of it. A negative size, which makes `make`
  panic, cannot be expressed.
- `os.Chmod`, `os.Create`, `syslog.Dial` and the writes to a file, a
  standard stream or syslog are foreign I/O. Each call is reduced to an
  outcome input, or to appending a line to `written`. Errors of the
  worker's writes are ignored by the code and not modelled.
- Goroutines, scheduling and the blocking itself are not modelled. A step
  that would block is reported as not enabled. The model orders entries
  from one producer only; interleavings of concurrent producers are not
  modelled.
- The text of the dial error (`%v`) is an input string.
- The unused `Shippable` interface.
- Decimal.Atoi: assumes a 64-bit `int`; a 32-bit build would clamp at 2^31-1.
- LoggerUrl.ParseLoggerUrl: the destination is a sequence of Unicode
  characters, while a Go string is bytes. A destination that is not valid
  UTF-8 cannot be expressed; Go's regexp reads each invalid byte as U+FFFD,
  which `\S` matches.
- DeliveryQueue.Push: the worker goes back to its receive as part of its
  write, so a worker holding no entry while the buffer is empty counts as
  parked. In Go a freshly started worker, or one between a write and its
  next receive, is not yet parked; a send then goes to the buffer, and a
  burst has one slot less than `Room` counts.
