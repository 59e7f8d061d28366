# Crust in Dafny

Crust is a peer-to-peer TCP library. One single-threaded event loop owns a table of small state objects, one per
token; every step is one dispatch of a readiness event, a timer or a posted call. This project models the parts of it
where correctness depends on many steps together, and proves what holds over every run.

| modules | what they model |
|---|---|
| `Framing`, `Reading`, `Writing`, `WriterRuns`, `Socket`, `EndToEnd` | the socket: length-prefixed frames, the incremental reader, the writer with priority queues, age-based dropping and partial writes |
| `Messages` | the messages of the protocol and one concrete serialiser for them |
| `Endpoint` | one connection's reads from any of its handshakes into service, with whatever the socket has buffered |
| `TwoPeer` | two peers, any number of parallel connections, FIFO channels: which connection both sides settle on |
| `Sides`, `NodeSide` | one side of such a pair as a small system of moves, and a node, to each of its peers, as the same system |
| `ConnMap`, `Node`, `NodeInv`, `Family`, `ConnectOps`, `IncomingOps`, `BootstrapOps`, `NodeRuns`, `Core` | one node: state table, connection map, parents and sub-states, timers, events to the user |
| `Effects`, `EffectRuns`, `Outcomes` | what each step of a node is to do, said without its handlers, and that it does that and nothing else |
| `NodeTheorems`, `Attempts`, `StaleTimers`, `Assumptions`, `Bystanders` | what a node's runs mean to its user, and what they rest on |
| `Reachability`, `NodeReach` | what an incoming exchange is answered, the checks behind it, and that a node's exchanges behave so |
| `Config` | the configuration's change flag and the periodic purge |
| `Heartbeat` | inactivity and heartbeat timers of two peers in service |
| `Mapping` | collecting a socket's external addresses |

Code that works in place is a class whose methods are proved against functions on values: `Socket.SockInner` against
`Reading.ReadCall` and `Writing.WriteCall`, `Core.Core` against the handlers in `Node`, and likewise `Heartbeat.Pair`,
`ConfigWrapper`, `IncomingExchange` and `MappedTcpSocket`. What the source promises is then proved of those functions
over runs. For a node, `Effects.EffectOf` says once more, from the table and the step alone, which states go and which
are made and which events are sent; `EffectRuns.StepDoes` shows every step of every run to do that, and with the
invariant it leaves no other table, map or event list (`EffectRuns.NoOtherState`). A run is a sequence of states and
steps; the environment picks the steps, so a statement about every run is about every interleaving, every chunking of
a stream and every outcome of a system call.

`dafny verify dfyconfig.toml` checks the whole project.

## What is assumed of the surroundings

Each of these is a condition on the steps of a run (`NodeRuns.Enabled`, `WriterRuns.Calls`), and where the code relies
on it without checking, a lemma says exactly what depends on it.

- Heartbeat timers can be set: `Assumptions.CandidateNeedsHeartbeat`, `AcceptNeedsHeartbeat` and `GrantNeedsHeartbeat`
  say what else goes wrong, for each way into service.
- A choice read by a candidate finds nothing in service. The read path does not look at the map.
  `Assumptions.ChoiceNeedsFreePeer` and `ChoiceKeepsSessions` say that the map stays right, and the peer's events in
  sessions, exactly under this condition. `NodeSide.ChoiceFindsFreePeer` shows that a node whose moves are those of the
  smaller id meets it until the larger id gives a connection up.
- A peer makes one request on a connection: `Assumptions.SecondRequest` says when a further one keeps the map right,
  `Reachability.SecondReply` when there is still at most one reply.
- A bootstrap grant comes from a peer the map knows nothing of: `Assumptions.GrantNeedsUnknownPeer` for the map. The
  peer's events need less, that it is not in service: `Assumptions.GrantKeepsSessions`.
- The poll takes a socket's new interest after a write. Otherwise a message can go out whole and its write fail
  (`TwoPeer.ChoiceThatBreaks`). `TwoPeer` has this as the step `WriteBreaks`, and counts it as giving the connection up.
- A readiness event whose first half ends the state is not processed further: `Assumptions.BothHalves`,
  `ActiveHalves` and `ExchangeHalves`.
- A fatal stream error is the last operation on a socket: `WriterRuns.FatalTearsTheFrame`.
- The poll reports only readiness that was asked for, so an incoming exchange is writable only once it is replying.
- The serialiser is self-delimiting. `Messages.MessagesSelfDelimiting` gives one that is.

## Where the code falls short of what it is for

- An attempt can report failure and go on to succeed (`Attempts.FailureThenSuccess`). It reports failure early if and
  only if its first socket cannot be registered and the map does not know the peer, once for every socket that fails
  before the first that does not (`Attempts.StartReports`).
- An attempt whose first socket cannot be registered loses its timeout for good, and only such an attempt does
  (`Attempts.TimeoutLost`). It then ends only through what its other sockets do (`Attempts.EndsThroughSocket`); with a
  peer that accepts and never answers it stays in the table (`Attempts.SilentIsForever`, `WaitsForEver`). If none of its
  sockets can be registered it has neither timeout nor sub-state and stays whatever happens (`Attempts.AttemptLeaks`,
  `LeakedExactly`).
- A bootstrap can be ended by the timer of an earlier one that failed to start (`StaleTimers.AnothersTimer`);
  `StaleTimers.EndedByStale` says exactly when.
- A choice heard while a connection to the peer is in service reports success a second time with no loss in between;
  a choice breaks the order of events only then (`Assumptions.ChoiceKeepsSessions`). So does a grant from a peer already
  in service, and only then (`Assumptions.GrantKeepsSessions`). The first happens in the next item.
- Once the larger id has dropped a connection and chosen another, the smaller id can have both in service
  (`TwoPeer.DisagreementAfterGivingUp`). The two sides disagree if and only if the smaller id has in service what the
  larger id gave up (`TwoPeer.AgreementExactly`), and this first happens exactly when a choice is heard while the map
  already names a connection (`TwoPeer.FirstSecond`).
- A choice can go out whole and its write fail all the same, because the poll does not take the socket's new interest.
  The larger id then ends a candidate that the smaller id puts in service (`TwoPeer.ChoiceThatBreaks`).
- A grant that is due is given up, unanswered, if the peer has a connection in service (`Reachability.GrantRule`).
- Two live peers can drop each other for inactivity if and only if the heartbeat period and twice the message delay
  reach the inactivity timeout (`Heartbeat.DropsIffSlow`).
- A payload over the limit is framed and sent, but its frame does not parse to its message and the right rest
  (`Framing.FrameRoundTrip`).
- A gateway that fails sends no answer, so a mapping that asked one is over only when its time is up
  (`Mapping.WaitsForAll`).
- After a send that breaks the socket, the send timer is set again for a state that is gone. The model does the same;
  its token is never reused, so no later state hears that timer (`NodeRuns.RunKeeps`).

## Model

| member | source | states |
|---|---|---|
| `Framing.LE32RoundTrip` | src/common/socket.rs:277-279 | the length prefix gives back the payload's length modulo 2^32: lengths from 2^32 up are truncated |
| `Framing.FrameRoundTrip` | src/common/socket.rs:205-232 | a frame followed by any bytes parses to its message and exactly those bytes if and only if the payload is within the limit |
| `Framing.FramePrefixIncomplete` | src/common/socket.rs:208-224 | any proper prefix of a frame is reported as incomplete, never as a message or an error |
| `Framing.ParsePrefixOfFrames` | src/common/socket.rs:205-232 | bytes that begin a run of frames yield the first message exactly when they reach its end, and what is left begins the rest of the run |
| `Messages.MessagesSelfDelimiting` | src/common/message.rs:20-39 | there is a serialiser of these messages whose decoder, given a message and any bytes after it, returns that message: the assumption on serialisers can be met |
| `Messages.BodyRoundTrip` | src/common/message.rs:20-39 | every kind of message, with every value of its fields (IPv4 and IPv6 addresses among them), decodes to itself whatever follows |
| `Reading.NoFrameLeftBehind` | src/common/socket.rs:162-203 | a call answers "nothing" or end of stream only when no complete frame is left in the buffer |
| `Reading.LoopStops` | src/common/socket.rs:169-202 | the read loop ends with the stream's first answer that is not a chunk and consumes the script up to there |
| `Reading.ReadAnswers` | src/common/socket.rs:162-203 | the call fails as the stream's own if and only if nothing was complete in the buffer and a fatal error follows the chunks; as end of stream if and only if neither buffer nor chunks hold a frame or a bad one and an empty read follows; it answers nothing exactly when none of this is so, and otherwise with the first frame or what is bad about it |
| `Reading.CallOnFrames` | src/common/socket.rs:162-203 | on a prefix of well-formed frames one call returns the first message whole or keeps every byte; it fails only for the connection's own sake |
| `Reading.ReadsDeliver` | src/common/socket.rs:162-203 | over any number of calls and any chunking, the messages returned are a prefix of those framed, in order, and frames returned plus bytes pending equal bytes taken |
| `Reading.ReadsDeliverAll` | src/common/socket.rs:162-203 | when every byte has been taken and the last call found nothing more, exactly the framed messages have been returned |
| `Socket.SockInner.constructor` | src/common/socket.rs:146-152 | a new socket has nothing pending and no history |
| `Socket.SockInner.ReadFromBuffer` | src/common/socket.rs:205-232 | resuming with a remembered length gives the same as parsing all unread bytes afresh, the prefix put back |
| `Socket.SockInner.Gather` | src/common/socket.rs:169-202 | the read loop adds to the unread bytes exactly what the stream gave before it stopped giving |
| `Socket.SockInner.Read` | src/common/socket.rs:162-203 | one call returns what the whole-bytes reference says, an end of stream and a fatal error included, each exactly when the stream shows it and nothing complete is buffered; it leaves what the reference says and takes from the stream only what it accounts for |
| `Writing.LeastExists` | src/common/socket.rs:287-291 | a map of queues that is not empty has a first queue in key order |
| `Socket.SockInner.ExpiredKeys` | src/common/socket.rs:247-256 | the keys collected are exactly those at or after the first droppable queue whose head had expired when it was looked at, each queue being looked at by its own reading of the clock |
| `Socket.SockInner.DropExpired` | src/common/socket.rs:257-261 | exactly those queues go, and each dropped message is recorded |
| `Socket.SockInner.Queue` | src/common/socket.rs:270-285 | the message's frame, stamped with the clock as read then, goes to the back of its priority's queue and every other queue is as it was |
| `Socket.SockInner.PickNext` | src/common/socket.rs:287-296 | transmission begins on the oldest message of the smallest priority value; no queue in the map is ever empty, so taking its head cannot fail |
| `Socket.SockInner.Send` | src/common/socket.rs:298-327 | the stream is offered the current frame once; what it does not accept stays current, and write interest is asked for while anything is unsent |
| `Socket.SockInner.Write` | src/common/socket.rs:241-328 | one call, in this order, drops, queues, picks and sends as the reference on histories says, for every stream and poll outcome; the message it is given is recorded as given |
| `WriterRuns.DropKeeps` | src/common/socket.rs:247-261 | dropping keeps order and conservation: what goes was waiting, and was neither started nor dropped before |
| `WriterRuns.EnqueueKeeps` | src/common/socket.rs:270-285 | queueing keeps every queue in write order, so oldest first |
| `WriterRuns.PickKeeps` | src/common/socket.rs:287-296 | picking keeps what has started ahead of what waits, priority by priority |
| `WriterRuns.WriteCallKeeps` | src/common/socket.rs:241-328 | a call that does not fail keeps order, conservation, whole frames and the scheduled write event |
| `WriterRuns.RunKeepsInv` | src/common/socket.rs:241-328 | in every state of every run, accepted bytes followed by the current rest are whole frames of the started messages in order: a started frame is never interleaved, pre-empted or dropped |
| `WriterRuns.FatalTearsTheFrame` | src/common/socket.rs:298-315 | with a frame under way, the bytes accepted are still whole frames but for the current rest if and only if the error was not fatal |
| `WriterRuns.AllRecorded` | src/common/socket.rs:270-285 | in every run the history the other results speak of is exactly the messages the calls were given, with their priorities and times, in order |
| `WriterRuns.OneFateEach` | src/common/socket.rs:247-315 | every message that any call was given is, with the priority and time it was given, exactly one of transmitted, being sent, queued or dropped |
| `WriterRuns.OrderWithinPriority` | src/common/socket.rs:281-296 | messages of one priority are transmitted in the order they were written |
| `WriterRuns.PickIsBest` | src/common/socket.rs:287-296 | a call begins at most one frame, only when none is under way, and one that precedes everything still waiting in priority and then in age |
| `WriterRuns.Progress` | src/common/socket.rs:287-315 | in every run a call begins a frame if and only if none is under way and it is given a message or one waits that it does not drop, and exactly the bytes the stream accepts of it move to the stream |
| `WriterRuns.HeadIsOldest` | src/common/socket.rs:247-256 | looking at the head of a queue is as good as scanning it: it holds an expired message exactly when its head is one |
| `WriterRuns.StaleFrom` | src/common/socket.rs:251-253 | a message expires exactly 61 seconds after it was queued, the age being counted in whole seconds |
| `WriterRuns.DropRule` | src/common/socket.rs:247-261 | a call drops a message if and only if it is waiting and some droppable priority at or ahead of its own holds a message that had expired when that priority was looked at |
| `WriterRuns.DoneMeansNothingLeft` | src/common/socket.rs:287-327 | a call answers that all is written if and only if every message so far is transmitted whole or dropped; otherwise a write event is scheduled |
| `WriterRuns.CallAnswers` | src/common/socket.rs:287-327 | for every stream and poll outcome: a call fails if and only if there is something to send and the stream fails for good or the poll does not take the interest; otherwise it answers done exactly when nothing is left and asks for a write event exactly when something is |
| `EndToEnd.WireCoversTransmitted` | src/common/socket.rs:298-315 | the stream has accepted all frames of transmitted messages and a proper part of the one under way |
| `EndToEnd.DeliveredAreTransmitted` | src/common/socket.rs:162-328 | for every run of a writer and every chunking towards a reader, the reader returns a prefix of the transmitted messages in the order they were picked, and all of them once it has the bytes and finds no more |
| `Endpoint.Endpoint.constructor` | src/main/connect/exchange_msg.rs:50-88 | a connection starts, as outgoing exchange, incoming exchange or try, with nothing received and nothing reported |
| `Endpoint.Endpoint.ReadOne` | src/common/socket.rs:162-203 | a read takes exactly the peer's next message or none, wherever the bytes were cut; it answers nothing only when drained, and fails only when drained or when the stream itself failed |
| `Endpoint.Endpoint.ReceiveResponse` | src/main/connect/exchange_msg.rs:96-111 | if the peer's first message has come, the exchange goes on if and only if it is the introduction of the expected id and network; if not, it waits unless the stream is over |
| `Endpoint.Endpoint.ReadRequest` | src/main/connection_listener/exchange_msg.rs:109-147 | if the first message has come, the incoming exchange goes on, to what was asked, if and only if it is an introduction or a bootstrap request of the right network, not our own and not refused; if not, it waits unless the stream is over |
| `Endpoint.Endpoint.ReplyWritten` | src/main/connection_listener/exchange_msg.rs:400-457 | a written reply makes a candidate or, for a bootstrap, a connection in service that is drained or was closed with nothing left unread unless the stream failed |
| `Endpoint.Endpoint.ReadGrant` | src/main/bootstrap/try_peer.rs:91-106 | a first message that is a grant puts the try in service, with every complete message behind it passed up, any other ends it; without one it waits unless the stream is over |
| `Endpoint.Endpoint.ReadChoice` | src/main/connection_candidate.rs:76-119 | a choice puts a candidate, of an outgoing or an incoming exchange, in service with every complete message behind it already passed up; any other message ends it; without one it waits, with no complete message buffered, unless the stream is over |
| `Endpoint.Endpoint.ChoiceWritten` | src/main/connection_candidate.rs:93-119 | the larger id is in service, after its own write, with whatever the peer sent behind its introduction passed up |
| `Endpoint.Endpoint.Serve` | src/main/active_connection.rs:97-118 | every way into service, after the messages its handshake takes and no others, reports it first and then exactly the data received |
| `Endpoint.Endpoint.Readable` | src/main/active_connection.rs:187-207 | after every readable event, however service began, no complete message is left in the buffer of a connection in service, and what was passed up is exactly the data received since; a fatal error behind the bytes, or the end of the stream, closes it with the loss reported, and nothing else does |
| `Endpoint.Endpoint.ReadAndReport` | src/main/active_connection.rs:121-143 | one round passes up the next message, or leaves the connection drained in service or reported lost |
| `Endpoint.Endpoint.ReadLoop` | src/main/active_connection.rs:120-145 | the loop ends in service only when drained; when it ends the connection, every complete message has been passed up before the loss unless the stream itself failed |
| `Endpoint.OverIsReached` | src/main/active_connection.rs:120-145 | a fatal error behind the bytes, or an end of stream for good, is reached however many messages come before it; a connection is given up only where the stream shows one of them |
| `TwoPeer.LoReadKeeps` | src/main/connection_candidate.rs:76-82 | every message the smaller id reads finds its end in the state that expects it, and it enters service exactly on reading the choice |
| `TwoPeer.HiReadKeeps` | src/main/connect/exchange_msg.rs:96-111 | nothing the larger id reads closes its end |
| `TwoPeer.ChooseKeeps` | src/main/connection_candidate.rs:84-119 | choosing with nothing in service keeps one connection in service at the larger id and each choice distinct |
| `TwoPeer.WrittenKeeps` | src/common/socket.rs:298-327 | whatever an end writes whole, request, reply or choice, keeps what holds of channels and choices, so a write that then fails does too |
| `TwoPeer.CloseKeeps` | src/main/active_connection.rs:214-235 | ending any end at any time keeps what holds of channels and choices |
| `TwoPeer.StepKeeps` | src/main/connection_candidate.rs:76-119 | every step of either side keeps the two-peer invariant |
| `TwoPeer.Agreement` | src/main/connection_candidate.rs:76-119 | until the larger id gives its connection up it has chosen at most once, and whatever the smaller id has in service is that connection |
| `TwoPeer.ActiveIsChosen` | src/main/connection_candidate.rs:76-119 | in every run, a connection the smaller id has in service was chosen, and is what the larger id has in service if and only if the larger id has not given it up |
| `TwoPeer.AgreementExactly` | src/main/connection_candidate.rs:76-119 | in every run, whatever the smaller id has in service is what the larger id has if and only if the larger id gave up nothing that the smaller id still has in service |
| `TwoPeer.InServiceStep` | src/main/connection_candidate.rs:76-82 | what the smaller id has in service grows by hearing a choice, shrinks by a drop, and changes in no other way |
| `TwoPeer.SecondInService` | src/main/connection_candidate.rs:76-82 | the smaller id comes to have two connections in service if and only if it hears a choice on one while it has another |
| `TwoPeer.MapIsRight` | src/main/active_connection.rs:99-115 | as long as it never had two, the smaller id's map names exactly the connection it has in service |
| `TwoPeer.FirstSecond` | src/main/connection_candidate.rs:76-78 | it first comes to have two if and only if it hears a choice while its map already names a connection |
| `TwoPeer.SecondChoice` | src/main/connection_candidate.rs:76-78 | a choice that arrives while another connection is in service means the larger id gave one of the two up |
| `TwoPeer.ChoiceFindsNothingActive` | src/main/connection_candidate.rs:76-78 | until something is given up, the unchecked read of a choice finds nothing in service |
| `TwoPeer.PayloadOnlyOnChosen` | src/main/active_connection.rs:120-145 | data and heartbeats of either side travel only on a chosen connection, behind its choice, so no candidate ever reads one |
| `TwoPeer.NothingUnexpected` | src/main/connection_candidate.rs:77-81 | in every run no end is closed because of a message it read |
| `TwoPeer.DisagreementAfterGivingUp` | src/main/connection_candidate.rs:76-119 | a run in which the larger id gives a connection up and the smaller id ends with two in service: the condition in `Agreement` is needed |
| `TwoPeer.ChoiceThatBreaks` | src/common/socket.rs:325 | a run without a drop in which a choice goes out whole, its write fails, and the smaller id alone ends up in service |
| `Sides.StepMoves` | src/main/connection_candidate.rs:76-119 | every step of the two-peer model is, seen from either side, one move or none of a small system: begin, pass to waiting, enter service, leave |
| `Sides.SideRun` | src/main/connection_candidate.rs:76-119 | so in every run of the two peers each side is where its moves take it from nothing |
| `NodeSide.DispatchGoes` | src/common/core.rs:206-222 | every dispatch of a node, whatever it is about, is to each of its peers a number of moves of that same system |
| `NodeSide.RunGoes` | src/common/core.rs:206-222 | so in every run of a node, for every peer, its connections to the peer and what its map names are reached from nothing by such moves |
| `NodeSide.NodeIsSide` | src/main/types.rs:27-31 | a node that has made the moves of a side has exactly that side's connections, each at the same stage, and the peer is in service in its map if and only if that side has a connection in service |
| `NodeSide.ChoiceFindsFreePeer` | src/main/connection_candidate.rs:76-78 | where the smaller id is a node and the larger has given nothing up, the choice is heard by a candidate of the node with nothing in service: the unchecked read is allowed |
| `ConnMap.EnterMatches` | src/main/connect/exchange_msg.rs:59-73 | counting a new handshake keeps the entry equal to the handshakes there are |
| `ConnMap.LeaveMatches` | src/main/connect/exchange_msg.rs:135-151 | a handshake that ends was counted, so the count does not underflow, and the entry goes with the last use |
| `ConnMap.ActivateMatches` | src/main/active_connection.rs:99-115 | entering service keeps the entry right if and only if nothing was in service and the token was handshaking or nothing was |
| `ConnMap.DeactivateMatches` | src/main/active_connection.rs:219-232 | ending the connection in service keeps the entry equal to the handshakes left |
| `ConnMap.LeaveManyMatches` | src/main/connect/mod.rs:233-242 | ending a set of handshakes one by one uncounts exactly that set |
| `ConnMap.EnterMiscounts` | src/main/connection_listener/exchange_msg.rs:342-356 | counting a handshake in while an earlier one of the same connection is counted puts an entry wrong |
| `ConnectOps.EndActiveKeeps` | src/main/active_connection.rs:214-235 | the end of a connection keeps map, ownership, timers and event order |
| `ConnectOps.ReadActiveKeeps` | src/main/active_connection.rs:120-145 | so does a read loop, failed or not |
| `ConnectOps.ActivateAccounts` | src/main/active_connection.rs:99-115 | over the whole table, entering service keeps the map right if and only if the peer has nothing in service and the token is one of its handshakes or it has none |
| `ConnectOps.StartActiveKeeps` | src/main/active_connection.rs:86-118 | entering service, reporting it and reading on keeps the node's invariant |
| `ConnectOps.FailureRule` | src/main/connect/mod.rs:257-269 | when an attempt ends, failure is reported if and only if no handshake with the peer and no connection to it is left |
| `ConnectOps.EndAttemptKeeps` | src/main/connect/mod.rs:233-269 | ending an attempt with all its sub-states keeps the invariant |
| `ConnectOps.HandshakeGone` | src/main/connection_candidate.rs:142-158 | a handshake that leaves the table has a count of at least one to take off, and taking it off is right |
| `ConnectOps.FailHandshakeKeeps` | src/main/connection_candidate.rs:121-125 | a failed sub-state leaves table, map and parent, and the last one ends the attempt |
| `ConnectOps.LaunchExchangesKeeps` | src/main/connect/mod.rs:115-151 | starting any number of exchanges, some failing, keeps the invariant |
| `ConnectOps.StartAttemptKeeps` | src/main/connect/mod.rs:68-122 | an attempt with all its first sub-states starts with everything accounted for |
| `ConnectOps.PassExchangeKeeps` | src/main/connect/mod.rs:153-189 | an exchange becomes a candidate under its own token without being counted twice, or fails |
| `ConnectOps.WinnerSurvives` | src/main/connect/mod.rs:191-216 | the winner is never in the set being terminated, outlives its attempt, and the attempt reports no failure because the winner's own handshake still counts |
| `ConnectOps.WinCandidateKeeps` | src/main/connect/mod.rs:191-216 | the winner's attempt and siblings end and it enters service with everything accounted for |
| `IncomingOps.EndChecksKeeps` | src/main/connection_listener/exchange_msg.rs:459-465 | ending the checks of an exchange, with their timers, keeps the invariant |
| `IncomingOps.EndIncomingKeeps` | src/main/connection_listener/exchange_msg.rs:482-507 | an exchange given up at any stage is uncounted exactly if it was counted |
| `IncomingOps.WriteIncomingKeeps` | src/main/connection_listener/exchange_msg.rs:378-457 | a written reply leads to service, to a candidate or to the end with the map right |
| `IncomingOps.ReplyIncomingKeeps` | src/main/connection_listener/exchange_msg.rs:292-331 | settling on a reply counts the handshake exactly when it will lead to a connection |
| `IncomingOps.CheckReachabilityKeeps` | src/main/connection_listener/exchange_msg.rs:186-220 | starting the checks, or denying for want of any, keeps the invariant |
| `IncomingOps.CheckDoneKeeps` | src/main/connection_listener/exchange_msg.rs:270-290 | a check's end keeps the invariant, first success and last failure included |
| `BootstrapOps.EndBootstrapKeeps` | src/main/bootstrap/mod.rs:234-269 | a bootstrap's end takes all its tries and timers with it |
| `BootstrapOps.BeginBootstrapKeeps` | src/main/bootstrap/mod.rs:129-160 | launching the tries keeps the invariant, with an immediate failure if none could be launched |
| `BootstrapOps.StartBootstrapKeeps` | src/main/bootstrap/mod.rs:82-127 | a bootstrap starts with its discovery timer armed exactly while discovery is pending |
| `BootstrapOps.DiscoveredKeeps` | src/main/bootstrap/mod.rs:247-260 | so it is when discovery ends |
| `BootstrapOps.GrantKeeps` | src/main/bootstrap/mod.rs:172-187 | a grant from a peer the map knows nothing of brings it into service with everything accounted for |
| `BootstrapOps.TryDoneKeeps` | src/main/bootstrap/mod.rs:163-232 | every result of a try keeps the invariant |
| `BootstrapOps.NotStartedKeeps` | src/main/service.rs:297-316 | a bootstrap that fails to start, its timer left running or not, keeps the invariant |
| `BootstrapOps.StaleFiresKeeps` | src/common/core.rs:217-221 | so does such a timer when it fires |
| `NodeRuns.DispatchKeeps` | src/common/core.rs:206-222 | every dispatch keeps map, ownership, timers, tokens and both event orders |
| `NodeRuns.DispatchWaits` | src/common/core.rs:206-222 | after every dispatch nothing waits for what cannot come: a bootstrap has discovery or a try pending, an exchange that was asked has its reply or a check |
| `NodeRuns.EndAllStates` | src/main/config_refresher.rs:143-145 | ending a list of connections removes exactly those from the table |
| `NodeRuns.RunKeeps` | src/common/core.rs:206-222 | all of that holds in every state of every run |
| `EffectRuns.StepDoes` | src/common/core.rs:206-222 | in every run each step removes, makes and reports exactly what the step and the table before it call for, for all 23 kinds of step and every outcome of the system calls in them |
| `EffectRuns.SameShells` | src/main/types.rs:27-31 | two states that keep the invariant and have the same table, but for the sets of sub-states, have the same sets and the same connection map |
| `EffectRuns.NoOtherState` | src/common/core.rs:206-222 | so the effect of a step and the invariant leave one next state: table, map, counter and events |
| `Outcomes.EndedIsGone` | src/main/connect/mod.rs:252-268 | in every run, after an attempt's timeout, a sub-state's error, or the end of an exchange, a connection or a bootstrap, neither it nor a sub-state it had is in the table or in any set |
| `Outcomes.TimeoutReports` | src/main/connect/mod.rs:257-269 | in every run an attempt's timeout reports a failure to connect if and only if nothing with the peer is left, and nothing else |
| `Outcomes.CandidateFate` | src/main/connection_candidate.rs:84-111 | in every run a writable candidate enters service if and only if the peer is free and the larger id has sent its choice or the smaller heard it; it leaves table, count and its attempt's set unserved if and only if the peer is in service, the larger id's write failed or the smaller read something unexpected; otherwise nothing changes |
| `Bystanders.DispatchSpares` | src/common/core.rs:206-222 | every dispatch leaves every attempt and incoming exchange but the one it is about as it was, and makes no new one elsewhere |
| `Bystanders.BystanderStays` | src/common/core.rs:206-222 | an attempt or exchange that a step is not about, nor one of its sub-states, is unchanged by it |
| `Bystanders.NewIncoming` | src/main/connection_listener/exchange_msg.rs:65-107 | an incoming exchange appears only by being accepted, under a token never used before |
| `NodeTheorems.MapAccounting` | src/main/types.rs:27-31 | in every run, for every peer, the count is the number of live handshakes and so never negative, the active token is its one live connection, and there is an entry exactly when there is either |
| `NodeTheorems.PeerEvents` | src/main/active_connection.rs:97-145 | in every run each peer's events are sessions: one up, any messages, one loss; the last session is open exactly while a connection is in service |
| `NodeTheorems.SessionsMeansNotWrong` | src/main/active_connection.rs:97-145 | events that form sessions are exactly those the step-by-step account of a peer accepts: the other half of what `PeerEvents` rests on |
| `NodeTheorems.BootstrapOutcomes` | src/main/bootstrap/mod.rs:129-269 | in every run each bootstrap that started, or failed to, has exactly one outcome by the time it is gone and none before; no try outlives it; while it lives it has discovery or a try pending, and its discovery timer exactly during discovery |
| `NodeTheorems.DenialOutcome` | src/main/bootstrap/mod.rs:188-232 | a denial for a wrong name hash or for not being reachable, or the last one, ends the bootstrap with every try and reports failure once; any other leaves one try fewer, every other state in place and reports nothing |
| `NodeTheorems.GrantOutcome` | src/main/bootstrap/mod.rs:170-187 | a grant ends every other try, never the granted one, and puts its socket in service |
| `StaleTimers.StaleCount` | src/main/bootstrap/mod.rs:82-99 | in every run the timers left running are the starts that failed after setting one, less those that fired: nothing else sets or cancels one |
| `StaleTimers.EndedByStale` | src/main/bootstrap/mod.rs:247-251 | a bootstrap can be ended by a timer not its own if and only if more earlier starts left one running than have fired |
| `StaleTimers.StaleEnds` | src/main/bootstrap/mod.rs:247-251 | it then ends as by its own timer, with all its tries and one report of failure |
| `StaleTimers.AnothersTimer` | src/main/bootstrap/mod.rs:82-99 | a run in which a bootstrap that started well is ended and reported failed by the timer of one that did not start |
| `NodeTheorems.WinsOnlyByRight` | src/main/connection_candidate.rs:84-111 | a writable candidate enters service only if nothing is, the larger id by having sent its choice, the smaller by having heard one |
| `NodeTheorems.NoOrphans` | src/main/connect/mod.rs:233-242 | no sub-state of an attempt is left in the table when it ends |
| `Attempts.LaunchOutcome` | src/main/connect/mod.rs:115-151 | an attempt loses its timeout if and only if its first socket fails to register, and has no sub-state if and only if all fail |
| `Attempts.LaunchReports` | src/main/connect/mod.rs:150-151 | while it starts it reports one failure for each socket that fails before the first that does not, unless the map knows the peer |
| `Attempts.StartReports` | src/main/connect/mod.rs:68-122 | so an attempt that lives on reports failure as it starts if and only if its first socket fails and the map does not know the peer |
| `Attempts.WinnerReports` | src/main/connect/mod.rs:191-216 | the step at which a candidate wins adds success and what its first read brought, and no failure |
| `Attempts.FailReports` | src/main/connect/mod.rs:215-222 | a sub-state that fails adds a failure if and only if it was its attempt's last and nothing with the peer is left |
| `Attempts.AttemptEnds` | src/main/connect/mod.rs:257-269 | in every run, what is added when an attempt leaves the table: its winner's news if it has one, otherwise a failure if nothing with the peer is left, otherwise nothing |
| `Attempts.FailureReported` | src/main/connect/mod.rs:63-269 | in every run a step reports a failure to connect to a peer if and only if it was given no address, or starts an attempt whose first socket fails while the map does not know the peer, or an attempt leaves without having won and nothing with the peer is left |
| `Attempts.FailureThenSuccess` | src/main/connect/mod.rs:124-151 | a run in which one attempt reports failure and then success |
| `Attempts.LeakIsForever` | src/main/connect/mod.rs:115-122 | an attempt left with neither timeout nor sub-state is in the table, unchanged, in every later state of every run |
| `Attempts.AttemptLeaks` | src/main/connect/mod.rs:115-151 | starting an attempt leaves one with neither timeout nor sub-state if and only if it has sockets and none of them can be registered, and it is then so in every later state of the run |
| `Attempts.LeakedExactly` | src/main/connect/mod.rs:115-222 | at any moment of an attempt's life, in every run, it has neither timeout nor sub-state if and only if it had sockets and none of them could be registered: it does not come to that later |
| `Attempts.KeepsArmed` | src/main/connect/mod.rs:191-222 | no step gives an attempt its timeout back, and none takes its timeout or its last sub-state without ending it |
| `Attempts.TimeoutLost` | src/main/connect/mod.rs:150-151 | in every run, for as long as an attempt lives, its timeout can fire if and only if its first socket could be registered or it had none; no sub-state has a timer of its own |
| `Attempts.EndsThroughSocket` | src/main/connect/mod.rs:215-269 | an attempt without timeout leaves the table only at an event of one of its own sub-states |
| `Attempts.SilentIsForever` | src/main/connect/mod.rs:115-151 | so while its sub-states have no event it is unchanged in every later state, whatever else the node does |
| `Attempts.WaitsForEver` | src/main/connect/mod.rs:124-151 | a run to such a state: first socket not registered, second waiting for an answer, no timer running at all |
| `Assumptions.ChoiceNeedsFreePeer` | src/main/connection_candidate.rs:76-82 | accepting a choice keeps the map right if and only if nothing is in service; the events are the next row's |
| `Assumptions.ChoiceKeepsSessions` | src/main/connection_candidate.rs:76-82 | accepting a choice, however its first read goes, keeps the peer's events in sessions if and only if nothing is in service |
| `Assumptions.CandidateNeedsHeartbeat` | src/main/active_connection.rs:69-84 | a candidate's entry into service, with or without an attempt, keeps the map right, and likewise the peer's events in sessions, if and only if the heartbeat can be set |
| `Assumptions.AcceptNeedsHeartbeat` | src/main/active_connection.rs:69-84 | the same of a peer that was granted a bootstrap |
| `Assumptions.GrantNeedsHeartbeat` | src/main/active_connection.rs:69-84 | on a grant the map stays right either way, but the peer's events stay in sessions, and the ended bootstrap has its outcome, if and only if the heartbeat can be set |
| `Assumptions.GrantNeedsUnknownPeer` | src/main/active_connection.rs:103-107 | a grant keeps the map right if and only if the map knows nothing of the peer; the events are the next row's |
| `Assumptions.GrantKeepsSessions` | src/main/bootstrap/mod.rs:172-187 | a grant, however its first read goes, keeps the peer's events in sessions if and only if the peer is not in service: handshakes do no harm there, though they do to the map |
| `Assumptions.SecondRequest` | src/main/connection_listener/exchange_msg.rs:292-340 | a further request on a connection, whatever it leads to, keeps the map right if and only if none before it was to lead to a connection |
| `Assumptions.BothHalves` | src/main/connection_candidate.rs:129-140 | a candidate chosen by its read half keeps the map right if and only if its write half does not run in the same event |
| `Assumptions.ActiveHalves` | src/main/active_connection.rs:200-205 | a connection whose write half fails keeps the map right, and its peer's events in sessions if and only if its read half then finds neither a message nor an error |
| `Assumptions.ExchangeHalves` | src/main/connect/exchange_msg.rs:125-131 | an outgoing exchange that fails in both halves keeps the map right if and only if the first left nothing of the peer in it |
| `Core.Core.constructor` | src/common/core.rs:163-170 | a new loop is the node's idle state |
| `Core.Core.GetNewToken` | src/common/core.rs:184-188 | a token is handed out once and the counter moves past it |
| `Core.Core.EndActive` | src/main/active_connection.rs:214-235 | in place, the same as the model: timers, table, map entry and loss |
| `Core.Core.SendActive` | src/main/active_connection.rs:209-212 | a send that breaks the socket ends the connection and yet arms its send timer |
| `Core.Core.ReadActive` | src/main/active_connection.rs:120-145 | message by message, the same as reading them all and then failing or not |
| `Core.Core.StartActive` | src/main/active_connection.rs:69-118 | service begins under a token just taken out of the table, or is given up without touching the map |
| `Core.Core.EndHandshake` | src/main/connect/exchange_msg.rs:135-151 | an exchange or candidate leaves table and map and nothing else |
| `Core.Core.EndAttemptChildren` | src/main/connect/mod.rs:233-242 | draining the set child by child, in any order, ends exactly the set and uncounts each |
| `Core.Core.EndAttempt` | src/main/connect/mod.rs:257-269 | sub-states, timer, table and then the failure rule, as in the model |
| `Core.Core.LaunchOne` | src/main/connect/mod.rs:124-151 | one more exchange for an attempt not in the table yet does what the model does to one that is |
| `Core.Core.StartConnect` | src/main/connect/mod.rs:68-122 | inserting the attempt after its sub-states comes to the same as inserting it first |
| `Core.Core.MaybeEndAttempt` | src/main/connect/mod.rs:218-222 | an attempt ends as soon as it has no sub-state |
| `Core.Core.HandleEnded` | src/main/connect/mod.rs:191-216 | a callback to an attempt that is gone does nothing; otherwise the child leaves its set first |
| `Core.Core.FailHandshake` | src/main/connection_candidate.rs:121-125 | terminate, then tell the parent, comes to what the model says |
| `Core.Core.PassExchange` | src/main/connect/mod.rs:153-189 | taking the child out of set and table and putting its candidate back under the same token loses and doubles nothing |
| `Core.Core.WinCandidate` | src/main/connect/mod.rs:191-216 | ending the attempt while the winner is out of table and set comes to the same as ending it around the winner |
| `Core.Core.OpenIncoming` | src/main/connection_listener/exchange_msg.rs:65-107 | an accepted connection starts unasked with its timer armed |
| `Core.Core.EndChecks` | src/main/connection_listener/exchange_msg.rs:459-465 | draining the checks in any order removes exactly them and their timers |
| `Core.Core.EndIncoming` | src/main/connection_listener/exchange_msg.rs:482-507 | as in the model: checks, table, map and timer |
| `Core.Core.Leave` | src/main/connection_listener/exchange_msg.rs:489-495 | one handshake off, and the entry gone when it has no use left |
| `Core.Core.FinishIncoming` | src/main/connection_listener/exchange_msg.rs:400-457 | after the reply the token passes to what was settled on with nothing of the exchange left |
| `Core.Core.WriteIncoming` | src/main/connection_listener/exchange_msg.rs:378-398 | a grant to a peer already in service is given up whatever the stream would do |
| `Core.Core.ReplyIncoming` | src/main/connection_listener/exchange_msg.rs:292-331 | counted, settled, then written, as in the model |
| `Core.Core.CheckReachability` | src/main/connection_listener/exchange_msg.rs:186-220 | the loop over addresses launches exactly the checks that can start, and denies if none can |
| `Core.Core.OnRequest` | src/main/connection_listener/exchange_msg.rs:109-147 | each verdict on a request leads where the model says |
| `Core.Core.CheckDone` | src/main/connection_listener/exchange_msg.rs:270-290 | the check is out of table and set before the others are ended, as in the model |
| `Core.Core.EndBootstrap` | src/main/bootstrap/mod.rs:234-269 | draining the tries in any order removes exactly them, the bootstrap and its timers |
| `Core.Core.MaybeEndBootstrap` | src/main/bootstrap/mod.rs:226-232 | a bootstrap fails as soon as it has no try |
| `Core.Core.BeginBootstrap` | src/main/bootstrap/mod.rs:129-160 | the loop over contacts launches exactly the tries that can start, and fails if none can |
| `Core.Core.StartBootstrap` | src/main/bootstrap/mod.rs:82-127 | tries begin at once exactly when discovery is not pending |
| `Core.Core.DiscoveryTimeout` | src/main/bootstrap/mod.rs:253-259 | discovery ends and the tries begin |
| `Core.Core.TryDone` | src/main/bootstrap/mod.rs:163-224 | the try has left its set before the bootstrap is ended, as in the model, whose outcomes `DenialOutcome` and `GrantOutcome` give |
| `Core.Core.FailToStart` | src/main/service.rs:297-316 | a failed start is reported, and leaves its timer running where it had set one |
| `Core.Core.FireStale` | src/common/core.rs:217-221 | a timer left behind ends whatever bootstrap sits at its token by then, or nothing |
| `Core.Core.Hear` | src/main/connection_candidate.rs:76-82 | a candidate's read, as in the model |
| `Core.Core.WritableCandidate` | src/main/connection_candidate.rs:84-111 | a candidate's write with the map check and the tie-break on ids, as in the model, whose outcomes `CandidateFate` gives |
| `Core.Core.EndAll` | src/main/config_refresher.rs:143-145 | ending connections in a loop comes to ending the list |
| `Core.Core.Dispatch` | src/common/core.rs:206-222 | every dispatch as it runs in place has exactly the effect its step is to have and keeps everything that holds in every reachable state |
| `Config.ConfigWrapper.constructor` | src/main/types.rs:104-109 | a new configuration has an empty history and counts as unchanged |
| `Config.ConfigWrapper.CheckForUpdateAndMarkModified` | src/main/types.rs:111-116 | the configuration given is stored, and the flag says exactly whether some update since the last refresh, this one included, changed what was stored |
| `Config.ConfigWrapper.CheckForRefreshAndResetModified` | src/main/types.rs:119-129 | the answer is whether this refresh or some update since the last one changed what was stored |
| `Config.TryUpdateConfig` | src/main/connection_listener/exchange_msg.rs:371-376 | a handshake adds one update to the history if the file can be read, and leaves everything alone if not |
| `Config.FlagMeaning` | src/main/types.rs:111-129 | at any point of any history the flag is set exactly when some update changed the configuration since the last refresh |
| `Config.RefreshReportsChange` | src/main/types.rs:111-129 | in every history a refresh reports true if and only if it or some update since the refresh before changed what was stored, changing back included |
| `Config.MapNamesAll` | src/main/config_refresher.rs:106-141 | every connection in service is named by the map, so going through the map misses none |
| `Config.ConfigRefresher.PeersToTerminate` | src/main/config_refresher.rs:106-141 | the connections collected are exactly those in service whose address is unknown, or which are nodes not on the list of nodes, or clients not on the list of clients, where there is such a list; each once |
| `Config.ConfigRefresher.Timeout` | src/main/config_refresher.rs:81-146 | after a refresh that follows a change, as the history tells it, and finds a whitelist, exactly the connections of known address that are on the list for their role, where there is one, are in service and no other state is touched; any other refresh touches none |
| `Heartbeat.Heartbeat.constructor` | src/main/active_connection.rs:263-282 | service begins with both timers in order: the receive timer due the timeout after the peer was last heard, the send timer within a period, neither overdue |
| `Heartbeat.Heartbeat.Timeout` | src/main/active_connection.rs:284-298 | with its timers in order, a connection is given up only after a silence of exactly the timeout, and otherwise sends again exactly a period after it last did; the timers stay in order |
| `Heartbeat.Heartbeat.ResetReceive` | src/main/active_connection.rs:300-307 | hearing from the peer gives it the whole timeout again, with the timers in order and the send timer untouched |
| `Heartbeat.Heartbeat.ResetSend` | src/main/active_connection.rs:309-316 | sending puts the next heartbeat off by a period, with the timers in order and what is expected of the peer untouched |
| `Heartbeat.Pair.constructor` | src/main/active_connection.rs:69-97 | two sides with their timers start where every run starts |
| `Heartbeat.Pair.FireReceive` | src/main/active_connection.rs:237-248 | the receive timer's firing, decided by the connection's own timers, is the run's step and keeps time in order |
| `Heartbeat.Pair.FireSend` | src/main/active_connection.rs:237-248 | so is the send timer's |
| `Heartbeat.Pair.SendData` | src/main/active_connection.rs:209-212 | so is sending data |
| `Heartbeat.Pair.Receive` | src/main/active_connection.rs:120-145 | so is hearing from the peer |
| `Heartbeat.Pair.Drive` | src/main/active_connection.rs:237-248 | any schedule carried out on the two sides' own timers, with delays short enough, ends where neither can drop the other while it is there |
| `Heartbeat.StepTimeOk` | src/main/active_connection.rs:237-248 | every step keeps each receive timer exactly the timeout past the last thing heard, and nothing due is left behind |
| `Heartbeat.SilentIsDroppedOnTime` | src/main/active_connection.rs:237-248 | in every run a connection dropped for inactivity is dropped exactly the timeout after its peer was last heard, and none stays longer |
| `Heartbeat.StepKeepsUp` | src/main/active_connection.rs:255-322 | with short delays, something is always on its way, or will be sent, that reaches each side before its timer |
| `Heartbeat.NeverWrongful` | src/main/active_connection.rs:237-248 | with period plus twice the delay below the timeout, no run lets a side drop a peer that is there, whatever data is sent |
| `Heartbeat.DropsIffSlow` | src/main/active_connection.rs:255-322 | some run drops a live peer if and only if period plus twice the delay reaches the timeout |
| `Reachability.IncomingExchange.constructor` | src/main/connection_listener/exchange_msg.rs:86-100 | a new exchange has no check and no reply |
| `Reachability.IncomingExchange.Read` | src/main/connection_listener/exchange_msg.rs:109-147 | each kind of first message leads to the one reply, the checks or the end that the model says; which, is `ReplyRule` |
| `Reachability.IncomingExchange.SendBootstrapGrant` | src/main/connection_listener/exchange_msg.rs:292-304 | a grant is handed to the socket unless the peer has a connection in service; then the exchange ends with nothing written |
| `Reachability.IncomingExchange.HandleBootstrapReq` | src/main/connection_listener/exchange_msg.rs:149-232 | the loop over listeners, the order of refusals and the look at the map before a grant come to the model's answer, whose conditions `ReplyRule` gives in order of precedence |
| `Reachability.IncomingExchange.StartChecks` | src/main/connection_listener/exchange_msg.rs:186-212 | going through the addresses starts exactly one check per global address where one can be |
| `Reachability.IncomingExchange.HandleCheckReachability` | src/main/connection_listener/exchange_msg.rs:270-290 | a check's result, with the others drained on success and the map looked at before the grant, comes to the model's answer |
| `Reachability.StepKeeps` | src/main/connection_listener/exchange_msg.rs:149-304 | every request and result keeps started checks split into live, passed and failed, and replies in step with them |
| `Reachability.OneReplyEach` | src/main/connection_listener/exchange_msg.rs:149-304 | in every run a request gets at most one reply; once asked, an exchange has replied, has a check live, or is over with nothing written, and only one of these; among checked nodes, one succeeded if and only if it was granted or refused for being in service, and all failed if and only if it was denied |
| `Reachability.GrantRule` | src/main/connection_listener/exchange_msg.rs:378-388 | a grant is written at a step if and only if one is due, by the request or by a check, and the peer has no connection in service; if it has, the exchange ends unanswered, and for no other reason is one refused |
| `Reachability.ReplyRule` | src/main/connection_listener/exchange_msg.rs:109-232 | in every run each of the eight replies is written at a step if and only if its own condition holds: a wrong network before anything else, then the list for what the peer is, then whether a node that must be reachable is not; and the exchange ends unanswered under exactly the conditions that are left |
| `Reachability.CheckedOnlyIfRequired` | src/main/connection_listener/exchange_msg.rs:157-212 | checks start at a step if and only if it is the request of a node that must be reachable and that is otherwise in order, and are those of its global addresses where one can be started |
| `Reachability.OneAtMostMeansComing` | src/main/connection_listener/exchange_msg.rs:149-304 | that an exchange gets no more than one reply, however it goes on, is the same as that its replies and one that is still coming are not two |
| `Reachability.SecondReply` | src/main/connection_listener/exchange_msg.rs:109-147 | after a further request there is at most one reply, however the exchange goes on, if and only if the request is turned away unanswered, or asks for checks while earlier ones are live |
| `NodeReach.LaunchedChecks` | src/main/connection_listener/exchange_msg.rs:186-212 | the node's live checks after launching are exactly those of the listeners that took one |
| `NodeReach.GrantFollows` | src/main/connection_listener/exchange_msg.rs:378-398 | the node writes a grant exactly where the model does; where it does not, the outcome is the same whatever the socket would have done |
| `NodeReach.RequestFollows` | src/main/connection_listener/exchange_msg.rs:109-147 | any request takes the node's exchange where the reachability model says, or it is gone and the model has replied or is over |
| `NodeReach.CheckFollows` | src/main/connection_listener/check_reachability.rs:78-116 | so does the end of a check, and it is the end of a check live in the model |
| `NodeReach.StepFollows` | src/common/core.rs:206-222 | every dispatch of the node is one step of the model for an exchange, or none |
| `NodeReach.Followed` | src/common/core.rs:206-222 | in every run of a node, for every token, there is a run of the model that its exchange is at while it lives and that has replied or is over when it has gone |
| `NodeReach.FanOut` | src/main/connection_listener/exchange_msg.rs:149-304 | so in every run of a node each exchange gets at most one reply, is replying exactly when no check is live, is granted behind checks only after one succeeded and denied for reachability exactly when all failed |
| `Mapping.MappedTcpSocket.constructor` | src/nat/mapped_tcp_socket/mod.rs:72-149 | counting gateways and starting queries comes to the model's start, finishing at once if nobody is asked |
| `Mapping.MappedTcpSocket.Terminate` | src/nat/mapped_tcp_socket/mod.rs:198-206 | the addresses so far are handed over, and socket and callback are there to take |
| `Mapping.MappedTcpSocket.HandleStunResp` | src/nat/mapped_tcp_socket/mod.rs:152-166 | an answer is added if it has an address, and the last one finishes |
| `Mapping.MappedTcpSocket.HandleIgdResp` | src/nat/mapped_tcp_socket/mod.rs:168-174 | a gateway's answer is counted off and added while the mapping lives, and ignored afterwards |
| `Mapping.FinishesOnce` | src/nat/mapped_tcp_socket/mod.rs:72-206 | over every order of answers and timeout, finish has run exactly once when the mapping is gone, with the interfaces' addresses and then the answers in order of arrival; the gateway count never underflows |
| `Mapping.WaitsForAll` | src/nat/mapped_tcp_socket/mod.rs:142-206 | over every order of answers the mapping is there until every gateway and every peer asked has answered or the time is up, and no longer |
| `Mapping.InterfacesAsked` | src/nat/mapped_tcp_socket/mod.rs:72-108 | each interface's own address is listed once and in order, and as many gateways are asked as interfaces have one |

## Left out

- State objects are values in the table: sharing through reference-counted cells, weak references and run-time borrow
  checks are not modelled beyond the winner or running child never being in the set that is terminated.
- The poll, the timer wheel and system calls: their results are inputs of the steps.
- The layout the real serialiser produces, and a serialiser that fails: encoding is total, and `Messages` is one
  possible layout.
- Sockets: `Interrupted` and `WouldBlock` are one outcome, as in the source's treatment of them.
- `TwoPeer` has no bootstrap between the two peers, keeps only the active part of each map (counts are in `Node`), and
  sends payload one message at a time; priorities inside a connection in service are in `Writing`.
- `NodeSide` ties a node to a side of `TwoPeer` by their moves: that two nodes and the channels between them make the
  moves of some `TwoPeer` run is the premise of `NodeIsSide` and `ChoiceFindsFreePeer`, not a theorem.
- The second half of a readiness event, for a try and for an incoming exchange that its first half ended.
- Name hashes are opaque values compared for equality, and whitelists are what a look at them found.
- Failure to set a timer other than the heartbeat's and a bootstrap's is not a step of a run.
- The hole-punch listener of an attempt (switched off, src/main/service.rs:42), IGD and STUN protocols themselves.
- Service discovery, the bootstrap cache and the reading of configuration files: plain I/O with easy facts.
- The listener's accept loop and `Service`, which only posts calls to the loop: their calls are steps.
- Contents of messages in `Node`'s events; `Endpoint` has them for one connection.
