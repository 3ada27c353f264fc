# Verified model of the SOME/IP load balancer

The repository is a small load balancer for SOME/IP requests. Clients send 16-byte requests to a
distributor. The distributor puts the client's file descriptor in front of a request, which makes
a 20-byte record, and writes the record to one of four servers. The server echoes the record, and
the distributor answers the client whose descriptor stands in it. Next to that, the distributor
polls every server's CPU, memory and I/O usage and turns the usages into the weights of a random
draw. Around this core stand a round-robin distributor, a packet sniffer that cuts SOME/IP frames
out of captured TCP payloads, a reuse-port server and a benchmark client.

This project models those parts in Dafny and proves what they keep over every run and every
interleaving. `dafny verify dfyconfig.toml` checks all of it.

## Reading order

- `Common`: what several programs share. `Wire`: the 20-byte record and the byte image of a queue of records.
- `Routing`: the routing protocol as a transition system, one step per system call of the
  distributor, a server or a client. A connection is named by the order of its `accept`, so a
  descriptor that is closed and handed out again names a new connection.
- `RoutingSafety`, `RoutingDelivery`, `RoutingDrain`, `RoutingStartup`: conservation, delivery,
  progress, and the facts that need a concrete run. `RoutingBoundaries`: where in a client's byte
  stream the forwarded requests come from.
- `ByteRouting`: the same protocol on byte streams, with the branches for short reads kept, proved
  to make exactly the same runs.
- `DistributorThread`: the two loops as mutable objects over `buf` and `mess`, with clients and
  servers moving in between and writes that block; every effect of a method is a run of the byte
  system. `OneRequest`: a request taken through these objects from the start to its reply.
- `Selection`, `Feedback`, `Balancer`, `Composition`: weights and draws, the feedback loop of two
  distributor threads, four monitor threads and four ticking threads, the polling thread as an
  object, and routing and feedback run together. The three usage fields behind `getStat` are
  stored and copied one by one under the monitor's lock.
- `RoundRobin`, `ReusePort`, `Bench`, `SomeIp`: the other programs.
- `TextStream`, `DiskStats`, `Procmon`, `DiskUsage`: the usage monitor, from the characters of
  /proc/diskstats to the published percentage.

## Assumptions

- A `write` of one 20-byte record between distributor and server is all or nothing, and its 20
  bytes become readable together. A stream direction holds a fixed number of whole records
  (`capacity`, at least 1, otherwise arbitrary). A `write` that finds no room blocks: in the
  transition systems a step that is not enabled, in the objects a thread that stays inside the write.
- One `epoll_wait` batch names each descriptor at most once, names only registered descriptors,
  and reports a server readable only when its reply stream is not empty.
- `accept` returns a descriptor that is not open. Descriptors that are open for the whole life of
  the process (standard input, the listener, the servers) are therefore never clients.
- Servers do not crash and do not close their connections. `exit(1)` in the distributor is a halted
  state, in which all invariants still hold.
- A `write` to a client that is open is logged as received; one to a descriptor that is not open
  fails silently, as in the source.
- `discrete_distribution` is its contract (section 26.5.8.6.1 of ISO/IEC 14882:2011): a ticket below
  the sum of the weights selects the server whose prefix-sum interval holds it.
- Usages, weights and times are exact reals.
- Plain `char` is signed and the machine is little-endian. A `write` of zero bytes succeeds, one of
  a negative number of bytes fails.

## Where the code does not do what it is for

Each of these is modelled as the code is, with a failing input and the exact condition proved.

- The servers' descriptors are put in `serverFd_set` but never added to the epoll set. As written no
  reply is ever read, no client ever gets a success, and at most `2 * capacity + 1` records go to a
  server before the next write to it blocks for ever (`RoutingStartup.AsWritten`,
  `RoutingStartup.FullForGood`). Whether they are
  registered is a parameter; some run answers a request exactly when they are
  (`RoutingStartup.SuccessNeedsRegistration`).
- A client may close while its request is pending. Its descriptor can then be handed out again and
  a stranger gets the reply (`RoutingStartup.ReplyToStranger`). All replies reach their senders exactly
  when no connection closes with a request pending (`RoutingDelivery.NoCrossDelivery`).
- A read of fewer than 16 bytes is refused and its bytes are gone, so the next 16 bytes can join two
  requests (`RoutingBoundaries.JoinsRequests`). A forwarded request is one the client sent exactly
  when the short reads before it threw away a multiple of 16 bytes (`RoutingBoundaries.RequestBoundaries`).
- The distributor and a server can block each other, both in `write`. That takes exactly
  `2 * capacity + 1` records in flight to that server (`RoutingDrain.DeadlockIsFull`), is reachable
  for every capacity (`RoutingDrain.DeadlockReachable`), and is for good
  (`RoutingDrain.DeadlockForGood`). With at most `2 * capacity + 1` requests unread, in hand and
  under way it cannot come about (`RoutingDrain.FewAllAnswered`).
- A draw and the write that follows it are two steps, so a publication can fall between them and
  a request goes to a server just published as overloaded (`Composition.StaleForward`). That
  happens exactly when the publication in between takes the server's weight away, and at most
  once after each publication (`Composition.OverloadExact`); between publications it never does
  (`Composition.NoneToOverloaded`).
- With all four servers overloaded the weights sum to zero, outside the contract of
  `discrete_distribution` (`Feedback.NothingToDraw`); a draw is defined exactly when some server of the
  last round was not overloaded (`Feedback.DrawDefined`).
- The frame splitter reads the length through a signed `char` and starts at byte 54 whatever the TCP
  header length, so TCP options are forwarded as a frame (`SomeIp.OptionsFirst`,
  `SomeIp.ZeroOptions`, `SomeIp.OptionsForwarded`): it is right exactly when both length bytes are below 128 and the TCP header
  has no options (`SomeIp.CaptureExact`). A length of 248 makes it loop for ever (`SomeIp.Spins`).
- The cast `(char*)cur` in `build_request` leaves the pointer 16 bits wide, so bytes 12 to 15 become
  1, 0, 1, 0 and four bytes behind the request are overwritten (`SomeIp.BuildRequest`).
- Trailing white space in /proc/diskstats costs one more pass of the parser, which adds the last
  row's column 17 (`DiskStats.ParseExact`, `DiskUsage.SurplusSeen`). The published I/O usage is right
  exactly when that surplus did not change between two ticks (`DiskUsage.IoUsageExact`,
  `DiskUsage.UsageWrong`).
- `benchcore` takes one failure back when the timer expires, even when the timer cut nothing short
  (`Bench.FailureForgotten`); that is right exactly when it did, or when nothing had failed
  (`Bench.TakenBackExact`).

## Model

| member | source | states |
|---|---|---|
| Wire.DecodeEncode | servers/algorithm_distributor.cc:37-40 | every record, negative descriptors included, is recovered from its 20 bytes |
| Wire.RecordLayout | servers/algorithm_distributor.cc:37-40 | the record is 20 bytes: the four base-256 digits of the descriptor, least significant first, and the 16 payload bytes |
| Wire.EncodeDecode | servers/inner_server.cc:149-165 | every 20 bytes are the image of exactly one record |
| Wire.ImageAppend | servers/algorithm_distributor.cc:244 | writing a whole record at the end of a byte stream appends it to the queue the stream holds |
| Wire.ImageHead | servers/algorithm_distributor.cc:254 | reading 20 bytes of a non-empty stream takes exactly its oldest record |
| Wire.ImageInjective | servers/algorithm_distributor.cc:241-244 | a byte stream holds at most one queue of records |
| RoutingSafety.InvStep | servers/algorithm_distributor.cc:207-268 | every step of clients, distributor and servers keeps the whole invariant: descriptors, epoll set, batch, worker's hands, histories, per-server FIFO conservation, capacities |
| RoutingSafety.InvFromStart | servers/algorithm_distributor.cc:202-268 | every reachable state, halted ones included, satisfies that invariant |
| RoutingSafety.ConservedStep | servers/algorithm_distributor.cc:235-268 | per server and per step: everything forwarded is, in order and unaltered, what was answered followed by what is under way |
| RoutingSafety.InFlightStep | servers/inner_server.cc:149-165 | reading, processing and echoing move records without reordering, losing or duplicating any |
| RoutingSafety.HandRecordOk | servers/algorithm_distributor.cc:261-262 | the record about to be answered was forwarded to that server by a client with that descriptor; the source's assertion that it is positive holds |
| RoutingSafety.CountsBalance | servers/algorithm_distributor.cc:235-268 | whatever property one counts, the forwards having it are the answers having it plus the records under way having it |
| RoutingSafety.ExactlyOnePlace | servers/algorithm_distributor.cc:235-268 | in every reachable state every request forwarded is in exactly one place, under way or answered, and there it is the record that was forwarded to that server |
| RoutingDelivery.ClientIsNeverServer | servers/algorithm_distributor.cc:228-293 | no client's descriptor is ever in `serverFd_set` or the listener's |
| RoutingDelivery.BatchSafety | servers/algorithm_distributor.cc:209-252 | whatever is closed, accepted and reused while a batch is handled, every event left names the connection it was reported for |
| RoutingDelivery.OpenStep | servers/algorithm_distributor.cc:161-169 | a connection stops being open exactly at the read that finds its end or an error, and never becomes open again |
| RoutingDelivery.FaithfulStep | servers/algorithm_distributor.cc:237-267 | a step that closes no connection with a request pending keeps every reply, written or to come, with its sender |
| RoutingDelivery.UnfaithfulStep | servers/algorithm_distributor.cc:238-267 | one that does so misdirects or loses a reply for good |
| RoutingDelivery.NoCrossDelivery | servers/algorithm_distributor.cc:237-267 | over all runs: every reply goes to the connection that asked if and only if no connection closes with a request pending |
| RoutingDelivery.RepliesFromStart | servers/algorithm_distributor.cc:235-267 | over all runs: a client's successes are the answers addressed to it; its failures, forwards and the read being decided add up to its reads that returned data or EAGAIN |
| RoutingDelivery.OneReplyPerRead | servers/algorithm_distributor.cc:235-268 | once nothing is pending and no connection closed early: each forwarded request of a client has exactly one answer, addressed to that client; its replies number its reads that returned data plus those that returned EAGAIN, success for each forward and failure for the rest |
| RoutingBoundaries.RequestBoundaries | servers/algorithm_distributor.cc:237-249 | over all runs: every forwarded payload is 16 consecutive bytes of what its connection sent, starting at a multiple of 16 if and only if the short reads before it threw away a multiple of 16, and no byte is forwarded twice |
| RoutingBoundaries.JoinsRequests | servers/algorithm_distributor.cc:237-249 | for every two requests and every split of the first, a run that forwards the end of one joined to the beginning of the other |
| RoutingStartup.ReplyToStranger | servers/algorithm_distributor.cc:238-267 | for every free descriptor and request, a run in which the success goes to a second client, while only the first ever sent anything |
| RoutingStartup.NeverAnswers | servers/algorithm_distributor.cc:252-268 | without the servers in the epoll set no run ever reads a reply |
| RoutingStartup.AsWritten | servers/algorithm_distributor.cc:202-293 | with the start-up as written: no answers, no success at any client, at most 2 * capacity + 1 records ever sent to a server |
| RoutingStartup.FullForGood | servers/algorithm_distributor.cc:202-293 | and a server with both streams full and a record in hand stays so whatever anybody does, so no further write to it succeeds |
| RoutingStartup.SuccessNeedsRegistration | servers/algorithm_distributor.cc:202-293 | some run answers a request if and only if the servers' descriptors are in the epoll set |
| RoutingDrain.MeasureStep | servers/algorithm_distributor.cc:209-268 | every service step of distributor and servers lowers a natural-number measure |
| RoutingDrain.ProgressExact | servers/algorithm_distributor.cc:209-268 | in every reachable state a service step is possible if and only if something is left to do and the write-write deadlock is not reached |
| RoutingDrain.DeadlockIsFull | servers/inner_server.cc:147-167 | in a deadlock exactly 2 * capacity + 1 records are under way at the server being written to, so two capacities are safe |
| RoutingDrain.StaysUp | servers/algorithm_distributor.cc:237-267 | no service step stops the distributor |
| RoutingDrain.ServeToTheEnd | servers/algorithm_distributor.cc:209-268 | from every reachable state a finite service run to the end exists |
| RoutingDrain.DrainsOrDeadlocks | servers/algorithm_distributor.cc:209-268 | with no new input every service run is finite, and one that cannot go on has answered every request or ended in the deadlock |
| RoutingDrain.RequestsStep | servers/algorithm_distributor.cc:209-268 | no service step makes the requests unread, in hand and under way more |
| RoutingDrain.FewAllAnswered | servers/algorithm_distributor.cc:209-268 | from every reachable state with at most 2 * capacity + 1 such requests, every service run that cannot go on has answered all of them |
| RoutingDrain.DeadlockForGood | servers/algorithm_distributor.cc:244-246 | once in the deadlock, no run moves the distributor or a record any more, unless the write it stands in fails |
| RoutingDrain.DeadlockReachable | servers/algorithm_distributor.cc:237-246 | for every capacity the deadlock is reached by one client, so the bound is tight |
| ByteRouting.HoldsRead | servers/inner_server.cc:149-149 | a read of up to 20 bytes from an aligned stream fills the whole buffer with the oldest record, whatever the buffer held |
| ByteRouting.SameEnabled | servers/algorithm_distributor.cc:207-268 | byte state and record state allow the same steps |
| ByteRouting.RefinesStep | servers/algorithm_distributor.cc:241-267 | every step keeps the byte state an image of the record state |
| ByteRouting.BytesRefineRecords | servers/algorithm_distributor.cc:207-268 | the two systems make exactly the same runs, and along each the streams are the images of the queues |
| ByteRouting.AlwaysAligned | servers/algorithm_distributor.cc:254-267 | streams stay multiples of 20 bytes, no read is short, and at the reply `mess` decodes to a positive descriptor of an accepted client |
| ByteRouting.SameNoEarlyClose | servers/algorithm_distributor.cc:161-169 | a run closes a client whose descriptor stands in some record's bytes exactly when the record run closes a connection with a request pending |
| ByteRouting.BytesOneReplyPerRead | servers/algorithm_distributor.cc:235-267 | on bytes alone: one success for each of a client's requests written to a server, and one reply for each of its reads that returned data or EAGAIN |
| DistributorThread.Distributor.ReadSocket | servers/algorithm_distributor.cc:237-237 | the four results of the client read and what each leaves in `buf` and in the socket |
| DistributorThread.Distributor.FillMessage | servers/algorithm_distributor.cc:241-242 | `mess` becomes the descriptor's four bytes followed by `buf` |
| DistributorThread.Distributor.Environment | servers/inner_server.cc:149-165 | clients and servers go on between the distributor's system calls by whichever of the given steps are possible |
| DistributorThread.Distributor.Resume | servers/algorithm_distributor.cc:244-246 | the write to the server, after what happens while it waits: it stays blocked exactly when it does not fail and there is no room, and the client is refused exactly when it fails |
| DistributorThread.Distributor.Dispatch | servers/algorithm_distributor.cc:243-246 | the draw and the write of the message: forwarded, refused, or blocked with server and client remembered |
| DistributorThread.Distributor.TakeRequest | servers/algorithm_distributor.cc:237-251 | the read of a client and the branch it takes are the byte system's read step: closed, a message filled, or refused |
| DistributorThread.Distributor.ServeClient | servers/algorithm_distributor.cc:235-251 | a client event is exactly this run of the byte system: close, refusal, forward, forward refused, or a write that blocks |
| DistributorThread.Distributor.ServerEvent | servers/algorithm_distributor.cc:254-262 | at a server event a whole record with a positive descriptor is waiting |
| DistributorThread.Distributor.ServeServer | servers/algorithm_distributor.cc:252-268 | a server event is a read of one record and a reply, and never an exit |
| DistributorThread.Distributor.AcceptAll | servers/algorithm_distributor.cc:211-229 | the accept loop takes exactly the descriptors up to the first the kernel cannot grant |
| DistributorThread.Distributor.ServeEvent | servers/algorithm_distributor.cc:210-269 | exactly which system calls each kind of event costs; the thread is left inside a write exactly when that does not fail and finds no room |
| DistributorThread.Distributor.ServeRest | servers/algorithm_distributor.cc:209-270 | history, state and number of events served are exactly those of the events left, each with its own choices, up to and including the first that blocks, if any |
| DistributorThread.Distributor.ServeBatch | servers/algorithm_distributor.cc:207-270 | the same for `epoll_wait` and its whole batch: it ends at the top of the loop, or inside the first write that finds no room with the events behind it left |
| DistributorThread.EchoServer.WriteRecord | servers/inner_server.cc:165-165 | the byte system's echo, blocked exactly when the reply stream has no room |
| DistributorThread.EchoServer.Turn | servers/inner_server.cc:149-165 | one turn is the byte system's take followed, for a full record and where there is room, by its echo |
| DistributorThread.EchoServer.Serve | servers/inner_server.cc:147-167 | whole records come back in order and unchanged; the server ends up blocked exactly when they do not all fit, holding the next one |
| OneRequest.RoundTrip | servers/algorithm_distributor.cc:207-270 | for every descriptor, request and server: through the objects that request alone is forwarded, unaltered and to that server, is answered once, to the client that sent it, and that client gets one success and nobody anything else |
| Selection.WeightBounds | servers/algorithm_distributor.cc:319-322 | a weight is positive exactly when all three usages are below 95, is then above 5, and at most 100 for usages that are not negative |
| Selection.WeightCosts | servers/algorithm_distributor.cc:322-322 | the weights of any two servers below 95 differ by 0.6, 0.3 and 0.1 times the differences in CPU, memory and I/O, and an idle server weighs 100 |
| Selection.RateOfExchange | servers/algorithm_distributor.cc:322-322 | x points of CPU cost as much as 2x of memory and 6x of I/O |
| Selection.WeightAntitone | servers/algorithm_distributor.cc:319-322 | a server busier in every respect never weighs more |
| Selection.SelectExact | servers/algorithm_distributor.cc:177-185 | server i is drawn by exactly the tickets of one interval of length weight i: its share is its weight over the sum |
| Selection.SelectedHasWeight | servers/algorithm_distributor.cc:177-185 | a server without weight is never drawn |
| Selection.TotalPositive | servers/algorithm_distributor.cc:171-175 | the weights have a positive sum exactly when one of them is positive |
| Feedback.InvStep | servers/algorithm_distributor.cc:298-353 | every step of polling thread, worker, monitors and tickers keeps lockstep, the monitors' locks, genuine and ordered samples, whole-round `d` and the round counter |
| Feedback.LatestStep | servers/algorithm_distributor.cc:319-325 | `p` always holds each server's latest sample's weight, possibly of two different rounds |
| Feedback.WholeRounds | servers/algorithm_distributor.cc:171-185 | over all interleavings every draw uses the uniform weights or those of all four samples of one finished round, and draws a server that was below 95 in it |
| Feedback.PickIsCurrent | servers/algorithm_distributor.cc:177-185 | every draw is of the last published round, so an overloaded server gets none until the next publication |
| Feedback.DrawDefined | servers/algorithm_distributor.cc:171-185 | a draw is defined if and only if no round is finished yet or some server was not overloaded in the last one |
| Feedback.LockStep | servers/pm.h:174-192 | under every interleaving of the three stores of a tick and the three copies of `getStat`, the lock is held by the thread inside, and a finished copy is one tick |
| Feedback.MonitorSnapshots | servers/inner_server.cc:185-206 | at most one exchange with a monitor is open; every triple, though stored and copied field by field, is one single tick of that very server, no older than the last tick before the poll nor than an earlier triple |
| Feedback.NothingToDraw | servers/algorithm_distributor.cc:177-185 | a run after which the polling thread goes on and no ticket can be drawn, for any four overloaded samples |
| Feedback.HundredRounds | servers/algorithm_distributor.cc:328-351 | the polling thread ends exactly after 100 rounds, with 100 samples of every server |
| Balancer.RoundWeights | servers/algorithm_distributor.cc:319-322 | a round yields four weights, none negative |
| Balancer.RoundShares | servers/algorithm_distributor.cc:171-185 | the ticket intervals of a round: none for a server at 95 or above, differences of the others by what their usages cost, 100 for an idle one |
| Balancer.Balancer.Poll | servers/algorithm_distributor.cc:304-325 | one server gets the weight of its answer and three longer histories, nothing else changes |
| Balancer.Balancer.PollAll | servers/algorithm_distributor.cc:304-327 | after a round the ticket intervals of `d` are those shares of that round alone, and all twelve histories hold every round's samples in order |
| Balancer.Balancer.MainThread | servers/algorithm_distributor.cc:298-353 | the loop stops after exactly 100 rounds with the twelve histories complete and the shares of the hundredth round |
| Balancer.Balancer.Draw | servers/algorithm_distributor.cc:177-185 | the index returned owns the ticket and has a positive weight |
| Composition.InvStep | servers/algorithm_distributor.cc:177-327 | routing and feedback interleaved keep both invariants, each forward tied to its own draw, and the server in hand to the last draw |
| Composition.RequestsFollowDraws | servers/algorithm_distributor.cc:177-327 | over all runs every request went to the server of its own draw, successive requests have successive draws, and each draw used one whole round in which its server was below 95 |
| Composition.OverloadExact | servers/algorithm_distributor.cc:177-327 | over all runs a request goes to a server overloaded in the last published round if and only if a publication that takes its weight away falls between draw and write; it is then the first request written after that publication |
| Composition.NoneToOverloaded | servers/algorithm_distributor.cc:177-327 | over any stretch of a run without a publication that begins with no draw unwritten, every request goes to a server that was below 95 in the round published last |
| Composition.StaleForward | servers/algorithm_distributor.cc:243-244 | for every server, request and overloaded sample, a run that writes the request to that server right after it was published as overloaded |
| RoundRobin.WindowFair | servers/round_robin_distributor.cc:217-224 | any window of L selections gives each server floor(L/4) or ceil(L/4) |
| RoundRobin.AdmittedExact | servers/round_robin_distributor.cc:194-207 | open after the accept loop are the clients open before and exactly the listed descriptors up to the first that is open already |
| RoundRobin.Distributor.AcceptAll | servers/round_robin_distributor.cc:191-208 | clients that were open keep what they received; every descriptor up to the first that is open already is opened with nothing received, and no other |
| RoundRobin.Distributor.SelectServer | servers/round_robin_distributor.cc:217-224 | selection k goes to server k mod 4 and the cursor stays in range |
| RoundRobin.Distributor.OnReadable | servers/round_robin_distributor.cc:209-232 | a read with data moves the cursor once, copies what was written to that one server and sends one reply, success exactly for a complete write; end and error close; EAGAIN changes nothing |
| RoundRobin.BatchExact | servers/round_robin_distributor.cc:188-233 | over any batch with accepts, closes and reuse of descriptors the process goes on, selections are one for one with the reads that returned data, and every client that had an event finds exactly what its own event did: one reply by the outcome of the write, nothing, or the end |
| RoundRobin.BatchFrame | servers/round_robin_distributor.cc:188-233 | an open client without an event comes out of the batch as it went in |
| RoundRobin.StreamsExact | servers/round_robin_distributor.cc:217-226 | over any batch the stream of server k grows by exactly the first `written` bytes of those data events whose ordinal j satisfies (made + j) % 4 == k, in order |
| RoundRobin.Distributor.ServeBatch | servers/round_robin_distributor.cc:188-233 | a batch is every event served in order: each server's stream grows by exactly the bytes due to it, every client finds what its own event did, and selections are one for one with the reads of data |
| RoundRobin.AlwaysFair | servers/round_robin_distributor.cc:186-234 | the selections of any run of a distributor object are fair in every window |
| SomeIp.Split | tcpdump_my/my_grub.c:88-104 | the pointer loop computes the splitter's specification on every buffer and every sequence of write results |
| SomeIp.Capture | tcpdump_my/my_grub.c:75-106 | one pass of the capture loop, tests on the headers included |
| SomeIp.SplitsFrames | tcpdump_my/my_grub.c:88-104 | with length bytes below 128 only whole frames are written, in order, up to the first the socket refuses |
| SomeIp.MissesFrames | tcpdump_my/my_grub.c:90-90 | one length byte of 128 or more anywhere and the frames never come out as they went in |
| SomeIp.BadFrame | tcpdump_my/my_grub.c:90-103 | what a frame with a high length byte leads to, case by case: its beginning without the last 256 bytes, its first one to seven bytes, an endless loop, or a write that fails |
| SomeIp.SplitExact | tcpdump_my/my_grub.c:88-104 | splitting undoes concatenation if and only if every length byte is below 128 |
| SomeIp.LoopingExact | tcpdump_my/my_grub.c:89-103 | the splitter's specification says `Looping` exactly where a pass leaves the pointer where it was, and then any number of passes does |
| SomeIp.Spins | tcpdump_my/my_grub.c:90-102 | with a first frame of length 248 nothing but empty frames is written, and after any number of passes the pointer stands where it began |
| SomeIp.PassesWanted | tcpdump_my/my_grub.c:80-87 | for packets with true lengths and no IP options the tests pass exactly the packets with a payload to port 9527 from outside 127.0.0.0/8 |
| SomeIp.CaptureExact | tcpdump_my/my_grub.c:80-104 | the packet's frames are forwarded if and only if the TCP header has no options and every length byte is below 128 |
| SomeIp.OptionsFirst | tcpdump_my/my_grub.c:88-96 | for every packet with TCP options, all write results and any rest of the buffer, the first thing forwarded begins with option bytes |
| SomeIp.ZeroOptions | tcpdump_my/my_grub.c:88-96 | of 12 zero option bytes eight are forwarded as the first frame |
| SomeIp.OptionsForwarded | tcpdump_my/my_grub.c:80-104 | such a packet passes the tests, and its frame is not what is forwarded |
| SomeIp.BuildRequest | test_bench/someip_bench/test_bench.c:193-204 | the 16 bytes as sent and the four bytes behind them that the last two stores overwrite |
| SomeIp.RequestVersusHeader | test_bench/someip_bench/test_bench.c:188-204 | byte by byte, where the request agrees with the intended header |
| SomeIp.RequestsSplit | tcpdump_my/my_grub.c:88-104 | the benchmark's requests, any number back to back, are cut into exactly those 16-byte requests |
| TextStream.IntToken | servers/pm.h:83-85 | extracting a decimal numeral behind white space yields its value and stops right behind it |
| TextStream.SignedToken | servers/pm.h:83-85 | the same for a numeral with a sign |
| TextStream.NotANumber | servers/pm.h:83-85 | anything else fails the stream, yields 0 and stays unread |
| TextStream.WordToken | servers/pm.h:83-83 | the same for a word |
| TextStream.IStringStream.GetInt | servers/pm.h:83-85 | the character loop of an integer extraction, end-of-file and failure bits included |
| TextStream.IStringStream.GetWord | servers/pm.h:83-83 | the same for a word |
| DiskStats.StuckForever | servers/pm.h:81-88 | a stream that failed before its end never changes again, so the loop does not end |
| DiskStats.IoData.Parse | servers/pm.h:75-89 | the parser computes the specification of its two loops on every text, and whatever its uninitialised variable holds |
| DiskStats.RowPass | servers/pm.h:81-88 | one pass of the outer loop reads exactly one row |
| DiskStats.ParseExact | servers/pm.h:75-88 | for any non-empty list of rows of 17 columns, however spaced: the sum of cols[9] over names not ending in a digit, plus cols[16] of the last row exactly when white space follows and its name does not end in a digit |
| DiskStats.OnlyTwoColumnsCount | servers/pm.h:75-88 | no other column of any row, no device number and no spacing has any influence on the result |
| Procmon.CpuInRange | servers/pm.h:171-171 | the CPU usage is a percentage if and only if the busy ticks are within the elapsed capacity |
| Procmon.IoInRange | servers/pm.h:172-172 | the I/O usage is a percentage if and only if the busy time is within the elapsed time |
| Procmon.MemInRange | servers/pm.h:173-173 | the memory usage is a percentage if and only if idle memory is part of all memory |
| Procmon.UsageInCounters | servers/pm.h:163-173 | usage times what there was equals 100 times what was used: busy ticks against two cores' ticks, memory that is not idle against all, busy milliseconds against elapsed ones |
| Procmon.IdleMemoryLowers | servers/pm.h:173-173 | the more memory is idle, the smaller the published memory usage |
| Procmon.CpuTelescopes | servers/pm.h:161-184 | over any run CPU usage times seconds adds up to the difference of the last and first counters |
| Procmon.IoTelescopes | servers/pm.h:161-184 | the same for I/O |
| Procmon.CpuAverage | servers/pm.h:161-184 | the time-weighted average of all published CPU usages is that of the whole run |
| Procmon.IoAverage | servers/pm.h:161-184 | the same for I/O |
| Procmon.Monitor.Difference | servers/pm.h:163-173 | the three usages satisfy these equations in the counters of the two readings |
| Procmon.Monitor.Tick | servers/pm.h:131-187 | an empty file changes nothing; the first reading publishes nothing; every later one publishes usages that satisfy these equations between it and its predecessor |
| Procmon.Monitor.GetStat | servers/pm.h:189-193 | what the last tick that published left, or the initial zeros |
| Procmon.ReadProcFile | servers/pm.h:219-225 | the pieces read before the first end or error, joined in order |
| DiskUsage.ReadDisks | servers/pm.h:148-159 | what a tick holds in `io_run_` after parsing a well-formed file |
| DiskUsage.SurplusSeen | servers/pm.h:81-88 | for every disk row with a newline behind it the parser returns column 10 plus column 17 |
| DiskUsage.IoUsageExact | servers/pm.h:159-172 | the published I/O usage is that of the true counters if and only if the parser's surplus did not change between the ticks |
| DiskUsage.UsageWrong | servers/pm.h:159-172 | between two ticks in which column 17 grew the published I/O usage is wrong |
| ReusePort.HandledInv | reuseport_test/server_reuseport.cc:146-196 | every event keeps live objects, open descriptors and registrations in one-to-one correspondence |
| ReusePort.HandledFrame | reuseport_test/server_reuseport.cc:146-196 | an event leaves every other live object live and what it is |
| ReusePort.ListenerExact | reuseport_test/server_reuseport.cc:149-171 | whenever the kernel has a client, the listener's event yields a new live object with its descriptor, open and registered; otherwise nothing changes |
| ReusePort.EndExact | reuseport_test/server_reuseport.cc:178-185 | the event that ends a client deletes that object, closes and unregisters that descriptor |
| ReusePort.OutputExact | reuseport_test/server_reuseport.cc:186-193 | over any batch the file grows by exactly the bytes of the clients' reads, in order and numbered on |
| ReusePort.GoneExact | reuseport_test/server_reuseport.cc:174-185 | over any batch an object that was live is gone, for good, exactly when one of its own events was its end or an error |
| ReusePort.BatchSafety | reuseport_test/server_reuseport.cc:143-197 | at every point of a batch, whatever is closed, accepted and reused (descriptors and addresses), no dead pointer has been touched and every event left names the very object it was reported for |
| ReusePort.BatchSafeExact | reuseport_test/server_reuseport.cc:143-197 | a batch is free of dead pointers for all choices of kernel and allocator if and only if no readable client event is followed by another for the same object |
| ReusePort.ReportedSafe | reuseport_test/server_reuseport.cc:143-197 | batches that name each object once, as `epoll_wait` makes them, never touch a dead pointer |
| ReusePort.Worker.OnListen | reuseport_test/server_reuseport.cc:149-171 | a client the kernel has gets object, descriptor and registration; every live object stays live and what it is |
| ReusePort.Worker.OnClient | reuseport_test/server_reuseport.cc:174-195 | end or error removes object, descriptor and registration of that client only; data is written out under the next number; every other live object stays what it is |
| ReusePort.Worker.ServeEvent | reuseport_test/server_reuseport.cc:144-197 | the event does what its branch does, and the events left still name the live objects they were reported for |
| ReusePort.Worker.ServeBatch | reuseport_test/server_reuseport.cc:143-197 | every event of a reported batch is served, in order, without touching a dead pointer; the file grows by exactly the bytes read, and exactly the clients with an end or an error are gone |
| Bench.BenchCore | test_bench/someip_bench/test_bench.c:287-320 | successes, failures less one if there were any, and the time of the successes only; they add up to the attempts less the failure taken back |
| Bench.AttemptsAdd | test_bench/someip_bench/test_bench.c:303-319 | successes, losses and times of attempts made one after the other add up |
| Bench.OneAttempt | test_bench/someip_bench/test_bench.c:309-318 | a success counts one and its time, anything else one failure and no time |
| Bench.TakenBackExact | test_bench/someip_bench/test_bench.c:304-307 | the failures reported are the genuine ones if and only if the last attempt is the one the timer cut short, or nothing failed |
| Bench.FailureForgotten | test_bench/someip_bench/test_bench.c:304-307 | a refused connection followed by a success is reported as no failure |
| Bench.Collect | test_bench/someip_bench/test_bench.c:264-275 | the totals of the first `clients` reports, or of all that arrive |
| Bench.SumPermutes | test_bench/someip_bench/test_bench.c:271-273 | the totals do not depend on the order of arrival |
| Bench.SumFields | test_bench/someip_bench/test_bench.c:271-273 | the totals are, field by field, the sums of speeds, failures and times |
| Bench.AllArrive | test_bench/someip_bench/test_bench.c:264-275 | if every child's report arrives, in any order, the totals are the children's speeds, failures and times summed |

## Left out

- Socket creation and options, `listen`, `connect`, signals, `fork`, `waitpid`, promiscuous mode: only their effect on descriptors and streams is modelled.
- The random engine and the statistics of sampling; a draw is given its ticket.
- IEEE 754 rounding, infinities and NaN, and 64-bit overflow of counters and parsed numbers.
- Procmon.Monitor.Tick: asks for a growing uptime and a positive memory size, because a division by zero yields an infinity or NaN in the source.
- DistributorThread.Distributor.AcceptAll: a failing `accept` other than EAGAIN, which ends the process, is a step of the transition system only.
- DistributorThread.EchoServer.Serve: ends when there is no input; the source waits there, and exits when the distributor closes.
- RoundRobin.Distributor.OnReadable: how much of a write to a server goes out is the kernel's choice; a write that blocks is not modelled.
- SomeIp.Split: the frames are the write requests the socket accepted; a write that takes only part of a frame moves the source's pointer by the whole frame too, and the bytes lost are not modelled.
- SomeIp.Capture: a failing `recvfrom` is not modelled.
- Bench.Collect: the reports are numbers already; reading and formatting them is not modelled.
- A server that crashes or closes while the distributor runs.
- `StatData::parse`, `MemData::parse` and `UpData::parse`, which extract fields in one straight line.
- Writing the histories to files, console output, `getopt_long`, the URL split, `do_something`.
- Agreement between the bytes the benchmark tests in a reply and the bytes the distributors send (they set only the first).
- The process lifetime of the round-robin `main`, which returns after `detach`.
- `procmon/procmon.cc`, `procmon/promon_all.cc` and `test_bench/someip_bench/someip_bench.c`, which repeat `pm.h` and `test_bench.c`; the experiments in `eventfd_test` and `procmon/load_test.cc`.
