# Verified model of the HyperRuby syslog listeners

HyperRuby accepts syslog over stream sockets and UDP next to HTTP, and hands both to the same Ruby
worker threads. This project models the path of a syslog message from raw socket bytes to an
admission verdict, and the worker scheduler it shares with HTTP, and proves what that path promises
for every input, every cut of the bytes into reads, and every interleaving of the tasks.

The parts, in the order they build on each other:

- `Bytes`, `Utf8`: byte strings, searching, decimal lengths, UTF-8.
- `Framing`: the framer (octet counting, section 3.4.1 of RFC 6587, with the newline fallback of
  section 3.4.2) as a class over its state and its buffer, proved against the function `DecodeTurn`.
- `FramingStream`, `FramingExact`, `StreamReader`: a whole-stream reference (`StreamSpec`), the
  proof that a framer fed in any pieces follows it up to the first rejection, how far the cuts
  between reads can show there, and the nested read loops.
- `FramingTales`, `FramingCuts`, `FramingCondition`: past skipped lines too. `Tale` says of the bytes
  of a stream alone which sequences of events some way of reading it gives. Every run gives one of
  them, every one of them is given by a run, and the set of them can be computed, which decides when
  the reads make a difference and when they can end in a panic.
- `Proxy`: the PROXY v2 header parser and its read loop.
- `Delivery`: the delivery protocol as a transition system. Tasks are accept loops, the datagram
  loop, connections (a reader and a delivery task with a bounded channel) and datagrams; one step is
  one operation that another task can observe. Every interleaving is a `run`.
- `Protocol`, `Conservation`, `Safety`: the invariant of that system. Counters are handled by giving
  every position of every task the part of each counter it accounts for.
- `Ledger`, `Guarantees`, `History`, `Draining`, `Credits`, `Stopping`, `StreamDelivery`,
  `StreamTales`, `Unwatched`: what follows for every reachable state and every run, and one run that
  drain does not wait for.
- `Journal`, `EndToEnd`: the labels of a run are its inputs (accepts, bytes, datagrams, answers), and
  what the system holds and delivers is exactly what they say.
- `Channels`, `Scheduler`, `Handoff`: the work channels, the workers' choice between the two, and how
  a request gets into one.

The system state carries history that the program does not keep (bytes read, messages decoded,
offers made, messages settled), so that properties of whole runs can be read off a state.
`History.HistoryGrows` shows that a run only ever adds to it.

Assumptions about code outside the repository: tokio's bounded channels are FIFO, its semaphore
counts, a verdict arrives at most once, and sleeps last at least as long as asked; tokio-util's
`LinesCodec` (version 0.7.13) behaves as `Framing.LineTurn` says. It splits at the first newline,
strips one carriage return, rejects a longer line once and skips to its end, and releases an
unterminated line at end of stream. It also remembers how many bytes of the buffer it has searched:
it forgets that number when it finds a newline, skips or reaches the end of the stream, but not when
somebody else takes bytes out of the buffer, and it panics on a slice that starts behind its end when
the buffer has become shorter than that. No task panics otherwise. Atomic operations are sequentially
consistent. A full worker queue, a lost worker, a failed read and a timeout are steps that may happen
at any time.

Where the source and its comments differ the model follows the source. The comment in
`ext/hyper_ruby/src/syslog/framing.rs:202` speaks of a buffer beyond the maximum length, but that
arm is also taken by a short length prefix whose newline has arrived and whose space has not. Before
any line is skipped that is the one case in which an event depends on the reads, and
`FramingExact.SplitPrefixDependsOnReads` is an instance. After a skipped line there are others: a
read that begins with a digit in the middle of the line is taken for a counted frame
(`FramingExact.SkippedLineDependsOnReads`), and the line behind it is decoded as a line or as a
counted frame depending on how much of it is buffered. `FramingCondition.ReadsMatterExactly` gives
the exact condition for every stream.

Before the first skipped line the codec's search index cannot show. Behind one, a counted frame that
follows takes searched bytes out of the buffer behind the codec's back. Then a newline can be
overlooked (`FramingCondition.NewlineInMessage`), or the reader panics
(`FramingCondition.PanicsBehindSkip`); `FramingCondition.CrashesExactly` says on which streams. A
panic leaves the connection counted as open for good (`Guarantees.CrashedForGood`) and its delivery
task untracked, so that an empty tracker does not mean that every message is settled
(`Unwatched.DrainLeavesMessage`). `Guarantees.DrainCompleteness` says exactly when it does.

A worker that looks for deliveries stops on a closed, empty syslog channel even if requests are
queued (`Scheduler.StopsWithRequestQueued`); `Scheduler.AbandonsExactly` says exactly when.

## Model

| member | source | states |
|---|---|---|
| Bytes.LengthExactly | ext/hyper_ruby/src/syslog/framing.rs:159-170 | of the strings that open with 1 to 9 exactly the decimal numerals up to 2^64 - 1 are read as lengths, each as the number it denotes |
| Utf8.ValidExactly | ext/hyper_ruby/src/syslog/framing.rs:182-190 | the check on a message passes if and only if its bytes are the encoding of a sequence of Unicode scalar values |
| Framing.Framer.Decode | ext/hyper_ruby/src/syslog/framing.rs:73-82 | one call on the framer and buffer objects leaves exactly the result, state and remaining bytes of the specification function |
| Framing.Framer.DecodeEof | ext/hyper_ruby/src/syslog/framing.rs:85-94 | the same at end of stream, where an unterminated line is released |
| Framing.Framer.CheckedDecode | ext/hyper_ruby/src/syslog/framing.rs:97-114 | handles the buffer exactly if an octet counted frame is in progress or the buffer opens with 1 to 9, and otherwise changes nothing |
| Framing.Framer.OctetDecode | ext/hyper_ruby/src/syslog/framing.rs:116-216 | every arm of the octet counting state machine, with what it discards and keeps |
| Framing.Framer.CountedFrame | ext/hyper_ruby/src/syslog/framing.rs:158-199 | the arm that has found the end of a length: bad number, oversize, complete, invalid UTF-8, not all here |
| Framing.Framer.LineDecode | ext/hyper_ruby/src/syslog/framing.rs:219-225 | the assumed line codec, search index and all, with its errors mapped: oversize recoverable, invalid UTF-8 fatal |
| StreamReader.EmitBuffered | ext/hyper_ruby/src/syslog.rs:716-754 | the inner emit loop ends on every buffer and framer state, and emits exactly what the buffer holds up to a fatal rejection |
| StreamReader.ServeReads | ext/hyper_ruby/src/syslog.rs:711-780 | the read loop computes exactly the run that the stream properties below speak of |
| FramingStream.DecodeSimulates | ext/hyper_ruby/src/syslog/framing.rs:73-216 | one decode call, on any buffer, agrees with the whole-stream reference about every possible future of the stream |
| FramingStream.RunFollows | ext/hyper_ruby/src/syslog/framing.rs:73-216 | for every byte string and every cut into reads, the messages and the ending are those of the reference up to the first rejection |
| FramingStream.ChunkInvariance | ext/hyper_ruby/src/syslog/framing.rs:458-507 | two cuts of one stream give the same messages and agree on rejection; reasons differ only between InvalidLength and Oversize, on an ambiguous prefix |
| FramingStream.DrainEofFollows | ext/hyper_ruby/src/syslog/framing.rs:84-94 | at end of stream a waiting framer releases its last line, reports a finished countdown, or says nothing |
| FramingStream.EmissionSafety | ext/hyper_ruby/src/syslog/framing.rs:182-194 | from any state, over any reads and past any rejections, every message is valid UTF-8 and within the limit |
| FramingStream.CountdownRun | ext/hyper_ruby/src/syslog/framing.rs:127-144 | a countdown discards exactly its count over any reads and then rejects, or the stream ends first and nothing is said |
| FramingStream.OversizeCountdown | ext/hyper_ruby/src/syslog/framing.rs:173-181 | a length over the limit, however it and its body arrive, discards exactly that many bytes before the fatal rejection, none of them in a message |
| FramingExact.Diverges | ext/hyper_ruby/src/syslog/framing.rs:201-205 | an ambiguous stream is an invalid length in one piece and oversize when cut behind the newline |
| FramingExact.SplitPrefixDependsOnReads | ext/hyper_ruby/src/syslog/framing.rs:201-205 | a three-byte stream that is ambiguous, so that its rejection depends on the reads |
| FramingExact.RunFatalLast | ext/hyper_ruby/src/syslog/framing.rs:36-39 | nothing follows a fatal rejection or a panic |
| FramingExact.SkippedLineDependsOnReads | ext/hyper_ruby/src/syslog/framing.rs:104-110 | concrete stream and two cuts for which the events after an oversize line differ |
| FramingCuts.TalesAreExact | ext/hyper_ruby/src/syslog/framing.rs:73-225 | for every stream, oversize lines and all, a sequence of events (messages, rejections, a panic) is that of some way of reading it if and only if it is a tale of its bytes |
| FramingCondition.ReadsMatterExactly | ext/hyper_ruby/src/syslog/framing.rs:97-225 | for every stream the reads make no difference to any event if and only if its computed set of tales has one member, which without an oversize line means that no length prefix has a newline before its space |
| FramingCondition.CalmReadsDoNotMatter | ext/hyper_ruby/src/syslog/framing.rs:97-225 | nor do they on any stream with no such prefix and with no digit from 1 to 9 where a read may begin inside an oversize line or right behind it, and no way of reading such a stream ends in a panic |
| FramingCondition.CrashesExactly | ext/hyper_ruby/src/syslog/framing.rs:97-114 | some way of reading a stream ends in a panic if and only if one of its computed tales does, and never without an oversize line |
| FramingCondition.PanicsBehindSkip | ext/hyper_ruby/src/syslog/framing.rs:97-114 | two concrete reads that end in a panic: a skipped line, a digit, and the rest of the counted frame |
| FramingCondition.NewlineInMessage | ext/hyper_ruby/src/syslog/framing.rs:97-114 | two concrete reads after which a message has a newline in it |
| Proxy.ParseEncoded | ext/hyper_ruby/src/syslog/proxy.rs:88-117 | of a header written for source, destination, ports and extensions, with anything behind it, the parser gives the source address and the header's end; a health check or an unnamed family gives none; too long is refused |
| Proxy.ParseHeader | ext/hyper_ruby/src/syslog/proxy.rs:66-114 | any header of this shape is refused for its version, command, size or family exactly as listed by their values, and otherwise complete |
| Proxy.CompleteIsEncoded | ext/hyper_ruby/src/syslog/proxy.rs:47-118 | the converse: every header the parser completes is one so written, for the client it names |
| Proxy.WaitsExactly | ext/hyper_ruby/src/syslog/proxy.rs:47-64 | the parser waits if and only if the bytes agree with the signature and are not all there, and refuses at the first byte that differs |
| Proxy.ParseStable | ext/hyper_ruby/src/syslog/proxy.rs:47-118 | more bytes never change a complete answer nor undo an error; only a partial "PROXY " changes its kind |
| Proxy.CompleteIsExact | ext/hyper_ruby/src/syslog/proxy.rs:251-270 | a complete header is within the limit, decided by its own bytes, and every shorter prefix is incomplete |
| Proxy.ReadProxyHeader | ext/hyper_ruby/src/syslog.rs:841-865 | for every cut into reads the loop answers as parsing all bytes at once would, and leaves exactly the bytes behind the header |
| Protocol.HoldKeeps | ext/hyper_ruby/src/syslog.rs:809-836 | every step of a held message keeps its attempt numbering, refusals, waits, outcome and at most one attempt after shutdown |
| Protocol.BackoffDoubles | ext/hyper_ruby/src/syslog.rs:826-828 | doubling with the cap computes the closed form min(5 * 2^k, 500) |
| Protocol.BackoffBounds | ext/hyper_ruby/src/syslog.rs:38-40 | the wait is non-decreasing and stays between 5 and 500 |
| Protocol.TaskKeeps | ext/hyper_ruby/src/syslog.rs:674-838 | every step of every task keeps order, numbering, capacity and ids, and never takes the failed-send branch |
| Conservation.HoldConserves | ext/hyper_ruby/src/syslog.rs:373-391 | each delivery step changes the counters by exactly what it changes the message's position |
| Conservation.TaskConserves | ext/hyper_ruby/src/syslog.rs:183-203 | the same for every step of every task, with what it spawns |
| Safety.ReachableInv | ext/hyper_ruby/src/syslog.rs:472-537 | from any number of listeners and along any run, counters are accounted for, every task is in order, ids are distinct and complete, credits and the connection limit hold |
| Ledger.ExactlyOnePlace | ext/hyper_ruby/src/syslog.rs:662-672 | in every reachable state each message given an id is in exactly one place |
| Ledger.CountersAreClassSizes | ext/hyper_ruby/src/syslog.rs:183-203 | every counter is the size of its class of messages; after a drain timeout the gauge falls short by at most what was swapped out, and the abandoned counter exceeds by what of it has been added |
| Guarantees.CreditBounds | ext/hyper_ruby/src/syslog.rs:662-672 | credits plus held permits are max_pending, none is overdrawn, and the gauge never exceeds the permits |
| Guarantees.ConnectionCredits | ext/hyper_ruby/src/syslog.rs:701-744 | one connection holds at most max_pending_per_connection + 2 permits |
| Guarantees.ConnectionLimit | ext/hyper_ruby/src/syslog.rs:635-651 | live connections never exceed the limit, the counter is live plus provisional ones, and each connection is counted opened once and closed once unless its reader panicked |
| Guarantees.DrainCompleteness | ext/hyper_ruby/src/syslog.rs:417-430 | with an empty tracker, timeout or not, all credits are back if and only if all messages are delivered, abandoned or dropped, and if and only if no crashed connection left messages behind; then the gauge is empty and each message counted once; the connections still counted are the crashed ones |
| Guarantees.CrashedForGood | ext/hyper_ruby/src/syslog.rs:782-794 | along every run a connection whose reader panicked stays crashed and counted |
| Unwatched.DrainLeavesMessage | ext/hyper_ruby/src/syslog.rs:417-430 | a reachable state in which the tracker is empty without a timeout and a message is pending |
| Guarantees.HeadOfLineOrder | ext/hyper_ruby/src/syslog.rs:796-838 | per connection the workers see one message's attempts one after the other, and a later message only after the last of them |
| Guarantees.AttemptsCounted | ext/hyper_ruby/src/syslog.rs:809-829 | each message is offered under attempts 1, 2, 3 and so on, each exactly once |
| Guarantees.NeverOfferedAgain | ext/hyper_ruby/src/syslog.rs:813-817 | along every run a settled message stays as it was and is never offered again |
| Guarantees.SettledFairly | ext/hyper_ruby/src/syslog.rs:801-836 | how every settled message ended and why: accepted on its last attempt, abandoned at shutdown, or unattempted exactly after the first lost worker |
| Guarantees.InHandFairly | ext/hyper_ruby/src/syslog.rs:809-828 | the waits so far and the next one are the closed form of the refusals; at most one attempt began after shutdown |
| Guarantees.DatagramTriedOnce | ext/hyper_ruby/src/syslog.rs:908-944 | a datagram is tried at most once, dropped unless accepted, and never a truncated one |
| Guarantees.ReaderNeverLosesReceiver | ext/hyper_ruby/src/syslog.rs:740-743 | the failed-send branch is enabled in no reachable state |
| History.HistoryGrows | ext/hyper_ruby/src/syslog.rs:674-838 | along every run what was read, decoded, offered and settled only grows |
| Draining.NeverStuck | ext/hyper_ruby/src/syslog.rs:417-430 | after shutdown some task can move as long as one is tracked, also when all readers wait for credits |
| Draining.RunBounded | ext/hyper_ruby/src/syslog.rs:412-415 | after shutdown every run without new input is bounded by the rank of its first state |
| Draining.DrainFinishes | ext/hyper_ruby/src/syslog.rs:417-430 | such a run that can go no further has emptied the tracker, and one exists from every reachable state |
| Credits.NoCreditDeadlock | ext/hyper_ruby/src/syslog.rs:725-744 | in every reachable state, shutdown or not, a task can move without input while a permit is out, and within 13 such steps a credit is free for every reader that waits |
| StreamDelivery.StreamFaithful | ext/hyper_ruby/src/syslog.rs:674-780 | in every reachable state and on any input, header, peer and decoded messages of a connection are those of the reference for every way its stream may go on |
| StreamDelivery.RefusedNotAwaited | ext/hyper_ruby/src/syslog.rs:687-695 | a connection whose bytes are refused as a header waits for no more and never starts |
| StreamTales.StreamTale | ext/hyper_ruby/src/syslog.rs:711-780 | in every reachable state and on any input, past skipped lines too, the decoded messages are the first of one of the computed tales of the bytes read and any to come, and a reader has panicked only where such a tale ends in a panic |
| Stopping.ListensUntilShutdown | ext/hyper_ruby/src/syslog.rs:652-656 | no accept loop and no datagram loop ends before shutdown |
| Stopping.NotTriedAgain | ext/hyper_ruby/src/syslog.rs:818-825 | along every run a stream message turned away after shutdown has begun is never offered again, and settled only as abandoned |
| Journal.ConnectionsFromAccepts | ext/hyper_ruby/src/syslog.rs:623-651 | along every run the k-th connection a listener spawns is from the peer of its k-th accept within the limit |
| Journal.AcceptAdmits | ext/hyper_ruby/src/syslog.rs:635-640 | an accept is admitted, as the peer it came from, if and only if fewer connections than the limit are counted when it is |
| Journal.DatagramsFromReceives | ext/hyper_ruby/src/syslog.rs:899-945 | along every run the datagrams in delivery are, in id order and with body and peer unchanged, exactly those received that were not truncated and found a credit, and as many as found none were turned away |
| Journal.DatagramAnswer | ext/hyper_ruby/src/syslog.rs:934-944 | a datagram is delivered if and only if its one answer accepts it, and dropped only if that does not or none came |
| Journal.ConnectionInputs | ext/hyper_ruby/src/syslog.rs:711-780 | along every run a connection has read exactly the bytes that came, its messages' verdicts are the answers given, and it neither gives up nor leaves without the cause |
| Journal.SpawnedSomewhere | ext/hyper_ruby/src/syslog.rs:642-651 | every connection and every datagram in delivery is one of those |
| EndToEnd.EnterExactly | ext/hyper_ruby/src/syslog/framing.rs:104-110 | octet counting starts on the bytes 0x31 to 0x39 and on no other |
| EndToEnd.RoundTrip | ext/hyper_ruby/src/syslog/framing.rs:1-3 | the reference reads back exactly the frames a sender wrote, whatever follows |
| EndToEnd.CountedNeedsTwo | ext/hyper_ruby/src/syslog/framing.rs:158 | a counted frame within the limit can be read if and only if the limit is at least two |
| EndToEnd.FramerRoundTrip | ext/hyper_ruby/src/syslog/framing.rs:458-507 | well-formed frames in any reads give their messages and no rejection |
| EndToEnd.EndToEnd | ext/hyper_ruby/src/syslog.rs:623-838 | along every run the messages taken on by the k-th connection of a listener are the first frames its sender wrote, in order, from the client its header names or else the peer of the k-th accept, with the answers given as their verdicts; the reader leaves early only for cause; all frames are settled once the connection is gone, and none is given up without shutdown or worker loss |
| EndToEnd.EmissionSafe | ext/hyper_ruby/src/syslog.rs:281-289 | every stream message in the running system is valid UTF-8 and within the limit |
| Scheduler.Worker.NextWorkItem | ext/hyper_ruby/src/lib.rs:615-653 | a call takes what the specification picks from the two queues and leaves the streak and queues it says |
| Scheduler.AloneLikePick | ext/hyper_ruby/src/lib.rs:615-653 | a worker left alone in the interleaved system makes the choice of the single call, whatever is queued, whichever channels are open and whatever its select wakes up with |
| Scheduler.FirstInFirstOut | ext/hyper_ruby/src/lib.rs:680-694 | along every run of any number of workers requests are taken in the order queued, none lost and none twice, and so are deliveries |
| Scheduler.StopsDrained | ext/hyper_ruby/src/lib.rs:671-678 | along every run a worker that has stopped leaves a channel with no sender and nothing queued, and while the syslog channel has a sender that is the request channel |
| Scheduler.PickStopsExactly | ext/hyper_ruby/src/lib.rs:621-632 | with a request queued a call stops the worker if and only if the streak is below the ratio and the syslog channel is drained |
| Scheduler.MoveStopsExactly | ext/hyper_ruby/src/lib.rs:623-648 | with a request queued a move stops a worker if and only if its first or third look, or its select, finds the syslog channel drained |
| Scheduler.AbandonsExactly | ext/hyper_ruby/src/lib.rs:615-653 | along every run a worker stops with a request queued if and only if one meets the drained syslog channel so |
| Scheduler.StopsWithRequestQueued | ext/hyper_ruby/src/lib.rs:621-628 | concrete state in which a worker stops on the syslog channel with a request queued |
| Scheduler.BoundedBypass | ext/hyper_ruby/src/lib.rs:610-614 | while the request at position k waits, W workers complete at most k * (ratio + 1) + W * ratio calls begun since |
| Scheduler.OneWorkerBound | ext/hyper_ruby/src/lib.rs:610-614 | with one worker the request at position k is taken within (k + 1) * (ratio + 1) calls |
| Scheduler.SyslogOutpaces | ext/hyper_ruby/src/lib.rs:610-614 | with deliveries queued, at least ratio of them go between two requests of a worker |
| Handoff.HandOff | ext/hyper_ruby/src/lib.rs:797-858 | whatever others do, the answer is the one settled by the channel, their turns and the clock; the request is queued once, behind what is queued then, or never, with at most ceil(send_timeout / 10) retries |
| Handoff.AnswersExactly | ext/hyper_ruby/src/lib.rs:797-858 | it is queued if and only if some attempt made before the timeout finds room, at the first that does; told of the shutdown if and only if one finds no worker; and 429 if and only if the queue is full at every attempt until the timeout |

## Left out

- Draining.DrainFinishes: takes max_pending and max_pending_per_connection to be at least one, which the configuration enforces (ext/hyper_ruby/src/syslog.rs:137-142), and that nobody sends more bytes; it speaks of tracked tasks, so not of the delivery task of a connection whose reader panicked.
- Credits.NoCreditDeadlock: takes the same two limits to be at least one; that the 13 steps are taken depends on the workers and timers, which may answer later.
- FramingCondition.CalmReadsDoNotMatter: a sufficient condition only; the exact one is that of `ReadsMatterExactly`.
- EndToEnd.EndToEnd: the frame limit is at least two and fits a `usize`; `CountedNeedsTwo` shows that a limit of one reads no counted frame.
- Requests still queued when the last worker is gone: the channel library discards them, the model keeps them in its history.
- The capacity of the syslog worker queue and the workers' own progress: a full queue is a step that may always happen.
- The rejection, refusal, truncation and PROXY error counters, the statistics hash, `received_at_ns`, and the transport label and UTF-8 flag of a message.
- The `usize` overflow of `from + len` for a length over the limit, whose value is not used (ext/hyper_ruby/src/syslog/framing.rs:174-176).
- Ruby bindings, GVL handling, HTTP connection serving, gRPC, socket binding, socket options and Unix socket takeover.
- Task panics other than the line codec's, and memory orderings weaker than sequential consistency.
