# q2pc: two-phase commit over lossy datagrams and byte streams

A Dafny model of q2pc's coordinator, worker threads, clients and transports, with proofs
of what they guarantee. `dafny verify dfyconfig.toml` checks everything.

## What is modelled

**The two-phase-commit program** (`TwoPhase`, `FifoSystem`): one coordinator main thread, any
number of worker threads and clients, as interleaved steps. A step is one access to the
scoreboard, a vote counter, `pause_signal` or `stop_signal`, or one call into a
connection. Two of main's steps also test `stop_signal` first, a scan step and the beginning
of a write; a signal raised between the test and the access could as well be raised after
it, since that commutes with everything that does not test the signal
(`StopSignal.StopCommutes`), and a worker that quits meanwhile does nothing more. Workers
take a message, post it, release it, read their counter and write it back in separate steps;
pausing is not acknowledged; `wait_for_votes` may time out in any iteration; `stop_signal` may
rise and clients may die at any moment. A connection keeps its whole history, so a message's
position is its round: position 2r downwards is the request of round r, 2r+1 its decision;
upwards 0 is the hello, 2r+1 the vote and 2r+2 the ack of
round r. `CommitInvariant` is the inductive invariant, `CommitTheorems`, `VoteCount`,
`Schedule`, `Shutdown`, `Pause` and `Unread` state the results for every run.

**Reliable UDP** (`RudpEndpoint`, `RudpLink`): two endpoints with stop-and-wait sequence
numbers over a network that loses, duplicates and reorders. `RudpSystem` runs the
two-phase-commit program over such links and proves that it refines the program over FIFO
channels; `RudpTheorems` carries the results over. `RudpProgress`, built on `RudpRuns`,
`RudpExchange` and `RudpRounds`, says from which states the program can go on to the next
round. `UdpConn` and `RudpConn` are the connection objects in the source's imperative form,
proved to compute the endpoint functions; `RudpCalls` ties their calls to the link steps,
whatever the workers do meanwhile. `RudpRace` is a run that loses the race described below.

**TCP framing** (`TcpFraming`, `TcpConn`): the in-place delimiter buffer as a class, proved to
split the stream for any stable delimiter, and instantiated with fixed-size messages; and
the writer's side of the same class, up to what a reader consumes of what a writer committed.

**The sequential programs** (`Coordinator`, `Partition`, `ClientProgram`, `WorkerProgram`): the
scans, the send loop, the thread partition, the client program and a worker's turn, as
methods with the source's loops. The send loop and the turn are shown to be steps of
`TwoPhase` that nobody disturbs.

## Assumptions

- Client ids are distinct and in 1..n (in any order over the connections), and both ends use
  the same message size.
- Memory is sequentially consistent. Sequence numbers and round counters are unbounded; the
  client's 64-bit vote counter and the 16-bit retransmit counters wrap as in C.
- A message that is retransmitted differs only in its retransmit counters; equality of
  messages means equality of type and source.
- Over reliable UDP the client waits for its acknowledgement as long as it takes. That a
  write given up after `RTOS_MAX` retransmissions spoils the next one is
  `RudpEndpoint.AbandonedWriteSwallowsNext`.
- A non-blocking call that has nothing more to report from its script finds nothing to read,
  or has its write taken.
- Main visits connections and workers visit theirs in any order, which includes the source's.

## Findings

- `is_server` is true in the client process (rudp.c:309); the model keeps the name.
- The first transmission (rudp.c:184) and the recording of `current_seq` (rudp.c:194) are two
  steps here. Safety does not need them to be one, but progress does: if a worker accepts
  the reply in between, the write is never acknowledged, whatever happens later
  (`RudpLink.RaceIsFinal`), and this does occur in the whole program
  (`RudpRace.RaceOccursInProgram`). The recording loses the race if and only if the number has
  moved since the transmission (`RudpLink.RecordLosesRace`), and never if it follows at once
  (`RudpLink.PromptNeverLoses`).
- This race is the only way into a deadlock: a state of any run over reliable UDP, with
  `stop_signal` not raised and no client dead, has a continuation to the next top of the round
  loop if and only if no write has lost its race or is bound to, and the scan has not failed
  the cluster (`RudpProgress.NextTopIff`). In the middle of a phase-1 scan that has met a
  missing vote the latter means that a vote still to be scanned is no, which will hide it.
- `wait_for_votes` does not test `stop_signal`. A shutdown that meets main there needs its timeout,
  unless n votes are counted already (`Shutdown.OnlyTimeoutEndsWait`); with it, everything comes
  to its end (`Shutdown.ShutdownCompletes`). With a negative timeout, which switches it off, main
  then waits for ever.
- A lost vote does not always fail the cluster in phase 1: the last entry that is not yes
  decides (`Coordinator.VoteScanMeaning`, `Coordinator.LostVoteCanHide`).
- Over TCP the client reads a message after it has released it: get_messge calls end_read
  (client.c:134) and returns the pointer, and do_phase1 reads the type through it
  (client.c:227). The memmove of conn_end_delimit (tcp.c:198) may by then have put bytes of the
  next message there. The bytes survive if and only if another whole frame follows, or what is
  left, if anything, does not reach them or is the same there
  (`TcpConn.ReleasedFrameSurvives`; an input on which they do not is
  `TcpConn.ReleasedFrameIsOverwritten`). As long as no `wait_for_votes` has timed out nothing
  is ever left behind the message a client takes (`Unread.AloneWithoutTimeout`); after a
  timeout a cancel can be behind an unread request (`Unread.TwoUnreadOccur`), and if a chunk
  ends inside it the client takes its protocol-failure branch. Over reliable UDP the slot stays
  as it is until the next read.
- "Case 2" of `conn_end_delimit` (tcp.c:201-220), which the comments there expect, is never
  taken, and the search at the start of `conn_beg_delimit` (tcp.c:97-109), which is made
  whenever bytes are buffered, never finds a frame.

## Model

| member | source | states |
|---|---|---|
| CommitTheorems.AtomicCommit | src/server/q2pc_server.c:421-497 | in every run a commit of round r is on a connection only if every client's own round-r vote was cast and is yes, a cancel only if some client's was cast and is no |
| CommitTheorems.CommitIsUnanimous | src/server/q2pc_server.c:441-490 | the same for every state that satisfies the invariant |
| CommitTheorems.NoSplitDecision | src/server/q2pc_server.c:483-497 | two clients are never sent different messages at the same position |
| CommitTheorems.AgreementAtRoundBoundary | src/server/q2pc_server.c:475-543 | back at the round loop with stop false, every client got exactly each decision and acked it, nothing is unread or unposted, and a round committed iff all votes were yes |
| CommitTheorems.BoundaryIsQuiet | src/server/q2pc_server.c:522-543 | quiescence at round boundaries, from the invariant |
| CommitTheorems.NothingSentAfterCut | src/server/q2pc_server.c:312-343 | after main left a loop on stop_signal no step puts anything on any connection |
| CommitTheorems.ExitIsFinal | src/client/q2pc_client.c:26-38 | a client may exit at any moment; nothing else changes, and it takes no further step |
| StopSignal.StopIsMonotone | src/server/q2pc_server.c:312-343 | stop_signal is never taken back, and neither is having acted on it |
| StopSignal.StopCommutes | src/server/q2pc_server.c:342-343 | raising stop_signal commutes with every step that does not test it |
| Shutdown.ShutdownCompletes | src/server/q2pc_server.c:50-59 | from every reachable state behind do_connectall with stop_signal raised, steps of main and the workers alone lead to main terminated and every worker thread returned, whatever clients and network do |
| Shutdown.AnyRunCanShutDown | src/server/q2pc_server.c:116-125 | the signal can be raised in every such state, and that is all it takes |
| Shutdown.MainEnds | src/server/q2pc_server.c:338-378 | main's own steps, giving up on acknowledgements and votes, lead to its end |
| Shutdown.WorkerEnds | src/server/q2pc_server_worker.c:58-139 | a worker's own steps post, release and count the message it holds and lead out of its loop |
| Shutdown.OnlyTimeoutEndsWait | src/server/q2pc_server.c:398-416 | with the workers gone, wait_for_votes ends without a timeout iff they have counted n votes; stop_signal does not end it |
| Pause.PauseTakesHold | src/server/q2pc_server_worker.c:58-68 | from every reachable state with pause_signal up, steps of the workers alone finish what they hold and bring each to the top of its loop with its counter cleared, or out of it |
| Pause.PauseHolds | src/server/q2pc_server_worker.c:60-65 | from then on, whoever moves, no worker takes or counts a message until main takes the signal back |
| CommitTheorems.ClientUnderstands | src/client/q2pc_client.c:227-277 | over FIFO channels that hand over whole messages, a client that waits for a request or a decision gets one and goes on to answer; for TCP see TcpConn.ReleasedFrameSurvives |
| CommitTheorems.WorkerUnderstands | src/server/q2pc_server_worker.c:88-98 | a worker that took a message holds the last one taken from one of its own connections, with an id in range |
| CommitTheorems.ScanUnderstands | src/server/q2pc_server.c:458-461 | the protocol-violation branch of phase 1 is never taken |
| CommitTheorems.ConnectIsExact | src/server/q2pc_server.c:139-177 | do_connectall leaves its loop iff each connection delivered exactly its one con message |
| CommitInvariant.RunInv | src/server/q2pc_server.c:421-591 | the invariant holds in every state of every run |
| CommitInvariant.StepKeeps | src/server/q2pc_server_worker.c:58-110 | every step of main, a worker, a client or stop keeps the invariant |
| CommitInvariant.MainKeeps | src/server/q2pc_server.c:277-543 | every step of main keeps it |
| CommitInvariant.WorkerKeeps | src/server/q2pc_server_worker.c:54-135 | every step of a worker keeps it, including a late counter reset and a late posting |
| CommitInvariant.ClientKeeps | src/client/q2pc_client.c:215-281 | every step of a client keeps it |
| CommitInvariant.NewDecision | src/server/q2pc_server.c:483-497 | the decision chosen after phase 1 rests on votes that the scan saw |
| CommitInvariant.FailIsVoted | src/server/q2pc_server.c:448-451 | the scan turns to fail only on a no vote of this round |
| CommitInvariant.NoProtocolViolation | src/server/q2pc_server.c:443-462 | a scoreboard entry in the phase-1 scan is a vote or empty |
| CommitInvariant.OwnerOfEntry | src/server/q2pc_server_worker.c:88-98 | every scoreboard entry belongs to a client |
| VoteCount.SumWithinEntries | src/server/q2pc_server.c:408-415 | in every run in which no wait timed out, also once stop_signal is raised and acted on, the sum read by main is at most the number of entries set in this phase |
| VoteCount.NothingLostWithoutTimeout | src/server/q2pc_server.c:440-469 | in every run in which no wait timed out, also once stop_signal is acted on, every client's entry of the phase is posted, counted and read once polling has ended, as it can by VoteCount.WaitEnds |
| VoteCount.VerdictWithoutTimeout | src/server/q2pc_server.c:465-472 | without timeouts neither phase fails the cluster; and if main has not cut a loop short on stop_signal, phase 1 returns success iff all voted yes, fail otherwise |
| VoteCount.RunCount | src/server/q2pc_server_worker.c:61-110 | the counting invariant holds in every run as long as nothing timed out, stop_signal or not: counter resets drop no vote of the next phase |
| VoteCount.WorkerCountedBy | src/server/q2pc_server_worker.c:98-109 | only writing back the counter counts a message, and it counts one |
| VoteCount.FullSum | src/server/q2pc_server.c:408-415 | when the sum that main has read reaches n every connection has been counted |
| VoteCount.WaitEnds | src/server/q2pc_server.c:385-418 | in every run without a timeout, once every connection has been counted the polls of main alone end the wait, with no timeout and no other change; from the top of its loop one pass ends it iff every connection has been counted |
| VoteCount.PassOfPolls | src/server/q2pc_server.c:408-415 | one undisturbed pass over the counters breaks out iff their sum is at least n, and otherwise starts again from zero |
| Schedule.OutcomeSchedule | src/client/q2pc_client.c:223-248 | round r committed iff no client id makes id + r a multiple of five, iff n < 5 - r % 5 |
| Schedule.FiveRounds | src/client/q2pc_client.c:223-248 | any five consecutive finished rounds contain max(0, 5-n) commits |
| RudpEndpoint.AbandonedWriteSwallowsNext | src/transport/q2pc_trans_rudp.c:178-214 | end_write transmits iff no write is outstanding; after an abandoned write it can report success for a message never sent |
| RudpLink.ReliableFifo | src/transport/q2pc_trans_rudp.c:63-252 | in each direction the accepted messages are a prefix of the transmitted ones, and acknowledged ones are accepted |
| RudpLink.Lockstep | src/transport/q2pc_trans_rudp.c:94-122 | the two numbers differ by at most one, datagrams carry at most their sender's, and the larger-than test never skips |
| RudpLink.AckSoundness | src/transport/q2pc_trans_rudp.c:182-214 | ENONE is possible only after the peer accepted this very message, which it never accepts again in the rest of the run |
| RudpLink.ClientProgress | src/transport/q2pc_trans_rudp.c:216-251 | on the client's turn one retransmission and delivery moves the pair of numbers on |
| RudpLink.ServerProgress | src/transport/q2pc_trans_rudp.c:182-251 | on the coordinator's turn it does so iff the write has not lost the race with its acknowledgement |
| RudpLink.RaceIsFinal | src/transport/q2pc_trans_rudp.c:184-196 | a write that lost the race is never acknowledged and nothing is accepted any more |
| RudpLink.RaceOccurs | src/transport/q2pc_trans_rudp.c:184-196 | a concrete run that loses the race |
| RudpLink.RecordLosesRace | src/transport/q2pc_trans_rudp.c:184-196 | the recording loses the race iff the number has moved since the transmission |
| RudpLink.PromptNeverLoses | src/transport/q2pc_trans_rudp.c:184-196 | a run in which every recording follows its transmission at once never loses it |
| RudpRace.RaceOccursInProgram | src/transport/q2pc_trans_rudp.c:184-196 | a run of the whole program, main, worker and client, that loses it |
| RudpLink.LinkStepKeeps | src/transport/q2pc_trans_rudp.c:63-252 | every call in contract, on any network behaviour, keeps the link invariant |
| RudpLink.LinkRunInv | src/transport/q2pc_trans_rudp.c:301-324 | the link invariant holds in every run from the initial numbers 0 and -1 |
| RudpSystem.RunRefines | src/transport/q2pc_trans_rudp.c:63-252 | any run over the lossy network is, transport steps left out, a run over FIFO channels ending in the same program state |
| RudpSystem.ProgramStepRefines | src/transport/q2pc_trans_rudp.c:63-252 | a program step over links is that step over channels |
| RudpSystem.InsideStepRefines | src/transport/q2pc_trans_rudp.c:200-251 | reads, retransmissions and recordings inside calls are invisible |
| RudpSystem.CallIsLabel | src/transport/q2pc_trans_rudp.c:124-145 | a call in contract puts or takes exactly what it says |
| RudpSystem.CallersKeepContract | src/server/q2pc_server.c:311-377 | no write begins before the last completed, none before the client was heard, and a worker never finds an old message in the slot |
| RudpSystem.RStepKeeps | src/server/q2pc_server.c:311-377 | every step keeps the coupling of program and links |
| RudpTheorems.CommitOverRudp | src/transport/q2pc_trans_rudp.c:148-175 | a commit datagram numbered k implies that every client itself transmitted a yes vote numbered k |
| RudpTheorems.CancelOverRudp | src/transport/q2pc_trans_rudp.c:148-175 | a cancel datagram numbered k implies that some client itself transmitted a no vote numbered k |
| RudpTheorems.ConnectOverRudp | src/server/q2pc_server.c:139-177 | do_connectall leaves its loop iff each link delivered exactly its one con message |
| RudpTheorems.ClientUnderstandsOverRudp | src/client/q2pc_client.c:227-277 | a client over reliable UDP that waits for a request or a decision takes one and goes on to answer |
| RudpTheorems.NumbersEncodeRounds | src/transport/q2pc_trans_rudp.c:158-159 | a datagram's number gives its type and round in both directions |
| RudpTheorems.StampIsRound | src/transport/q2pc_trans_rudp.c:158-159 | send_request stamps 2r on the request and 2r+1 on the decision of round r |
| RudpTheorems.AgreementOverRudp | src/server/q2pc_server.c:475-543 | at round boundaries every link is settled and drained |
| RudpProgress.NextTopIff | src/server/q2pc_server.c:421-591 | from any reachable state with stop not raised and no client dead, main can get to the next top of its round loop iff no write has lost its race or will, and the scan has not failed the cluster; if no wait has timed out before, without a timeout |
| RudpProgress.RoundsReachable | src/server/q2pc_server.c:545-591 | every configuration has runs that finish any number of rounds, without a timeout |
| RudpProgress.HopelessStays | src/transport/q2pc_trans_rudp.c:182-251 | once a race is lost or the scan has failed the cluster, no continuation leads back |
| RudpExchange.FinishExchange | src/transport/q2pc_trans_rudp.c:182-251 | an exchange of a message and its answer can be finished from anywhere in it, if its race is not lost |
| RudpRounds.Round | src/server/q2pc_server.c:421-543 | from one round boundary the program can get to the next, without a timeout unless one has happened before |
| RudpCalls.ClientFirstCall | src/transport/q2pc_trans_rudp.c:178-252 | a client-side write call is a sequence of link steps: it transmits the stamped message once, or EFIN if that is refused; ENONE iff the acknowledgement step is possible; otherwise it retransmits and returns RTOFIRED iff the timer has run out and the stream takes it, EAGAIN with nothing more sent iff it has not run out, EFIN iff the stream is closed or refuses it |
| RudpCalls.ClientNextCall | src/transport/q2pc_trans_rudp.c:200-252 | the same for a repeated call, which transmits only when due |
| RudpCalls.ServerFirstCall | src/transport/q2pc_trans_rudp.c:182-252 | a coordinator-side first call, with any steps of workers before and after the recording, is stamp, send, record; it returns ENONE iff a worker accepted something after the recording, so never undisturbed, and otherwise retransmits exactly when due |
| RudpCalls.ServerNextCall | src/transport/q2pc_trans_rudp.c:200-252 | a repeated call sends nothing first and returns ENONE iff the number it finds has moved, whatever workers did before it looks; otherwise it retransmits exactly when due |
| RudpCalls.ClientCallMoves | src/transport/q2pc_trans_rudp.c:216-251 | progress through the call: on the client's turn an end_write whose timer has run out puts a datagram on the network whose delivery moves the coordinator's number on |
| RudpCalls.ServerCallMoves | src/transport/q2pc_trans_rudp.c:216-251 | the same for the coordinator, unless its write has lost the race |
| RudpCalls.RetransmissionsCount | src/transport/q2pc_trans_rudp.c:226-234 | k retransmissions add k to the counter of their side, modulo 2 to the 16, and change nothing else in the message |
| RudpCalls.ServerReadCall | src/transport/q2pc_trans_rudp.c:63-134 | a read on the coordinator's side takes a datagram iff nothing is held and its number is the next in order; it returns ENONE iff something is then held, and hands out the message that the client sent in that place; EFIN iff nothing is held and the stream is closed |
| RudpCalls.ClientReadCall | src/transport/q2pc_trans_rudp.c:63-134 | the same on the client's side |
| RudpConn.Conn.BegRead | src/transport/q2pc_trans_rudp.c:63-134 | computes the endpoint's read; a held datagram is returned again without moving the number |
| RudpConn.Conn.EndRead | src/transport/q2pc_trans_rudp.c:136-145 | frees both read slots |
| RudpConn.Conn.BegWrite | src/transport/q2pc_trans_rudp.c:148-175 | stamps the write buffer with the current number |
| RudpConn.Conn.EndWrite | src/transport/q2pc_trans_rudp.c:178-252 | an undisturbed call computes the endpoint's write: what is sent, the new state and the code; the timer has run out iff the timeout has passed since the last transmission, and starts again at a retransmission |
| RudpConn.Conn.Transmit | src/transport/q2pc_trans_rudp.c:182-197 | the part up to the recording, on the state it finds |
| RudpConn.Conn.Check | src/transport/q2pc_trans_rudp.c:200-252 | the part from the look at the number on, on whatever state a worker has left, and which clock reading the timer starts from afterwards |
| RudpConn.Conn.constructor | src/transport/q2pc_trans_rudp.c:301-324 | starts at 0 in the client process and at -1 in the coordinator |
| UdpConn.Conn.BegRead | src/transport/q2pc_trans_udp.c:45-97 | with an occupied slot returns ENONE and sets no outputs, otherwise takes the next datagram; the first one connects the socket |
| UdpConn.SendMeaning | src/transport/q2pc_trans_udp.c:126-146 | the first outcome that is not would-block decides whether the datagram is out |
| UdpConn.Conn.EndWrite | src/transport/q2pc_trans_udp.c:117-148 | retries while blocked; the datagram is out iff ENONE |
| Coordinator.VoteScanMeaning | src/server/q2pc_server.c:441-463 | success iff all yes; otherwise the last entry that is not yes decides |
| Coordinator.LostVoteCanHide | src/server/q2pc_server.c:448-456 | a lost vote below a no vote gives fail, not cluster failure |
| Coordinator.Coordinator.ClearBoard | src/server/q2pc_server.c:427-430 | every entry is lost |
| Coordinator.Coordinator.ScanVotes | src/server/q2pc_server.c:424-463 | the phase-1 scan loop computes the scan of the entries before stop was seen |
| Coordinator.Coordinator.ScanAcks | src/server/q2pc_server.c:504-520 | the phase-2 scan succeeds iff every entry seen is an ack |
| Coordinator.Coordinator.SendRequest | src/server/q2pc_server.c:338-377 | calls go round the uncommitted connections in turn and never to a committed one; the program is terminated iff the last call, and no earlier one, returned EFIN, or RTOFIRED on a connection with MAX_RTOS earlier RTOFIRED results; all-committed iff each returned ENONE; markers are negative iff committed; total_rtos grows by the retransmissions that did not terminate |
| Coordinator.CallsDetermined | src/server/q2pc_server.c:342-376 | the turn rule and the results determine every call that the send loop makes |
| Coordinator.Coordinator.SendPass | src/server/q2pc_server.c:343-376 | one pass calls the uncommitted connections in turn, at least one of them unless it is stopped |
| Coordinator.Coordinator.CallOne | src/server/q2pc_server.c:351-375 | one call moves the marker of its connection as its result says, or ends the program exactly if it is fatal |
| Coordinator.MarksOfCall | src/server/q2pc_server.c:353-368 | after any result that does not end the loop the marker of each connection is negative iff it has returned ENONE |
| Coordinator.CallProgress | src/server/q2pc_server.c:353-368 | each result keeps the committed count equal to the number of negative markers |
| Coordinator.SendingIsSteps | src/server/q2pc_server.c:342-377 | the calls of the send loop are steps of the state machine, which can leave its loop exactly when all connections are committed |
| Partition.Split | src/server/q2pc_server.c:217-259 | the workers' intervals are in bounds and each connection lies in exactly one |
| Partition.CoversAll | src/server/q2pc_server.c:218-219 | the threads together hold all clients, one never holds more, and one connection less for each would not do |
| Partition.SplitIsConfig | src/server/q2pc_server.c:217-259 | the owners that Split lists make a configuration of the state machine |
| ClientProgram.Client.Run | src/client/q2pc_client.c:284-303 | whatever arrives, the program sends con, vote 0, ack, vote 1, ack, ...; it sends message k exactly if the hello is acknowledged, the messages it waits for before answers 1 to k are heard, and the answers before k are written |
| ClientProgram.RoundsAreAnswered | src/client/q2pc_client.c:284-303 | with r whole rounds delivered and every write acknowledged that is so for its first 2r + 1 messages |
| ClientProgram.Client.GetMessage | src/client/q2pc_client.c:108-156 | returns the message, or NULL, of the first poll that finds a message, the end of the stream or an expired timer, and has made only the polls up to it |
| ClientProgram.AwaitMeaning | src/client/q2pc_client.c:122-152 | the same for the function that the phases use: all polls before the deciding one found nothing |
| ClientProgram.Client.SendResponse | src/client/q2pc_client.c:159-212 | begins one message; the first result that is ENONE or EFIN, or completes RTOS_MAX retransmissions, ends it: EFIN terminates the program, the other two let it go on, and the results behind it are left |
| ClientProgram.PushMeaning | src/client/q2pc_client.c:190-211 | the same for the function that the phases use |
| ClientProgram.Client.DoPhase1 | src/client/q2pc_client.c:215-249 | answers a request with the vote its counter gives and, once that is written, advances the counter; anything else heard, or no message, terminates without answering |
| ClientProgram.Client.DoPhase2 | src/client/q2pc_client.c:251-281 | acknowledges a decision, ending as the write ends; anything else heard, or no message, terminates without answering |
| ClientProgram.Client.Connect | src/client/q2pc_client.c:71-96 | begins one con message; the first result that is ENONE or EFIN ends it, the former normally, however many retransmissions came before; they are counted |
| ClientProgram.NextOnScript | src/client/q2pc_client.c:223-287 | the vote that the wrapping counter gives and the ack of a round are the two messages due next |
| ClientProgram.ProgramSendsModel | src/client/q2pc_client.c:223-248 | until the counter wraps, the program's k-th message is the one the protocol model has |
| WorkerProgram.Worker.Turn | src/server/q2pc_server_worker.c:54-135 | a pause clears only the own counter; a pass posts the messages in order and counts each once; the end of a stream stops |
| WorkerProgram.BoardMeaning | src/server/q2pc_server_worker.c:88-98 | an entry holds the kind of the last message of its client and is otherwise unchanged; a changed entry comes from a message taken from that client |
| WorkerProgram.PassIsSteps | src/server/q2pc_server_worker.c:68-110 | an undisturbed pass is a sequence of steps of the state machine with the same scoreboard and counter |
| TcpFraming.FramesAppend | src/transport/q2pc_trans_tcp.c:111-146 | splitting a chunk after the rest of the last one gives the frames of the whole stream |
| TcpFraming.FramesAndRest | src/transport/q2pc_trans_tcp.c:137-146 | frames and rest are the stream, and the rest holds no frame |
| TcpFraming.FramesAreBlocks | src/server/q2pc_server.c:263-272 | with fixed-size messages frame k is block k of the stream |
| TcpFraming.FrameCount | src/server/q2pc_server.c:263-272 | every whole block is a frame |
| TcpFraming.RoundTrip | src/transport/q2pc_trans_tcp.c:240-271 | from any front part of whole messages and an unfinished one the frames are the first messages, and all of them from all of it |
| TcpConn.Conn.BegDelimit | src/transport/q2pc_trans_tcp.c:86-150 | hands out the next frame of the received stream iff there is one; EFIN iff it holds none and its read meets the end of the stream, EAGAIN iff that read takes no frame to its end, whose bytes it has then received; repeating it changes nothing |
| TcpConn.Conn.EndDelimit | src/transport/q2pc_trans_tcp.c:161-227 | consumes exactly that frame and keeps the rest, with or without moving it |
| TcpConn.ReleasedFrameSurvives | src/transport/q2pc_trans_tcp.c:161-199 | the bytes of a released frame are intact iff another frame follows or what is left does not reach them or equals them |
| TcpConn.ReleasedFrameIsOverwritten | src/transport/q2pc_trans_tcp.c:196-199 | one byte of the next frame behind it overwrites its first |
| Unread.AloneWithoutTimeout | src/client/q2pc_client.c:125-134 | in runs without timeouts no message is ever behind the one that a client takes |
| Unread.TwoUnreadOccur | src/server/q2pc_server.c:448-497 | after a timeout a cancel can be behind a request that is still unread |
| TcpConn.Conn.LookBehind | src/transport/q2pc_trans_tcp.c:178-198 | the optimistic search finds the complete frame at the front of what is left, or moves it down |
| TcpConn.Conn.Grow | src/transport/q2pc_trans_tcp.c:121-125 | doubling keeps the bytes and reaches the size that fits |
| TcpConn.FittedIsFirst | src/transport/q2pc_trans_tcp.c:121-125 | that size is the first of the doubled sizes that fits |
| TcpConn.Conn.BegRead | src/transport/q2pc_trans_tcp.c:47-77 | takes the next chunk; EFIN iff the connection has ended, EAGAIN iff nothing can be read; leaves its outputs unset if the read buffer is not empty |
| TcpConn.MeetMeans | src/transport/q2pc_trans_tcp.c:54-70 | what the next read meets: the end of the stream, nothing to read, or as many bytes as there are, fit and are offered |
| TcpConn.Conn.EndWrite | src/transport/q2pc_trans_tcp.c:240-271 | EFIN iff the connection breaks before the writes have taken all bytes, and then those taken are on the wire; otherwise ENONE, all are, and the message is committed; the wire stays the committed messages and at most a part of one |
| TcpConn.GrowsOnce | src/transport/q2pc_trans_tcp.c:121-125 | a chunk that meets a buffer without a frame needs at most one doubling of the initial size, which Conn.Valid keeps for the life of the connection |
| TcpConn.MessagesFit | src/transport/q2pc_trans_tcp.c:312-330 | messages up to the initial buffer size meet that condition |
| TcpConn.ReaderGetsCommitted | src/transport/q2pc_trans_tcp.c:86-271 | for a writer and a reader object, the frames consumed are the first messages committed with ENONE, the frame handed out is the next one, and all are consumed once all have arrived |

## Left out

- Sockets, bind, connect, accept, fcntl, errno texts, allocation and deletion: foreign calls; reads and writes are scripts of outcomes.
- Option parsing, logging, statistics, request-rate reporting and signal handlers: input and output plumbing.
- The clock: its readings are arbitrary inputs of the calls that look at it, so a timeout of `wait_for_votes` and, in the state machines, a retransmission can happen at any moment.
- The broadcast transport `udp_qj` and its branch of send_request (server.c:283-308): it ignores stop_signal and trusts the network.
- Plain `udp_ln` under the two-phase-commit program: without sequence numbers a duplicate can appear in a later round.
- The program over TCP as a combined state machine: `TcpConn.ReaderGetsCommitted` makes a TCP connection a FIFO channel of whole messages, but a client that is given a message by conn_end_delimit may find it overwritten, as said under Findings.
- Vote counting after a timeout: a late increment may then count towards the next phase; only the safety results hold there.
- Messages that are too short for a header or with ids out of range never reach the program in the assumed configuration; the worker's branch for the latter is modelled and shown unreachable.
- The concurrent form of run_thread, of main and of the clients is the state machine of `TwoPhase`; `WorkerProgram`, `Coordinator`, `ClientProgram` and `RudpConn.Conn.EndWrite` show their loops and calls undisturbed by other threads.
- UdpConn.Conn.EndWrite: does not model partial counts, because a datagram socket takes a datagram whole.
- ClientProgram.Client.Connect: does not model the connection attempts before the first beg_write, which are foreign calls.
