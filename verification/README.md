# Verification of the SOCKS5 proxy

A Dafny model of the proxy server: the selector, the per-connection state machine, the handshake parsers, the relay, the
blocking-job list, the string automaton and the user table, with proofs about every run of the server. Where the C code
works in place, the model does too (classes, arrays, loops); each such method is proved against a function of the old
state, and the theorems are about those functions.

`dafny verify dfyconfig.toml` checks everything.

## How it fits together

| files | what they hold |
|---|---|
| `Bytes`, `Results`, `Buffer`, `Incremental` | bytes and C's bit operations; failures that end the process; the FIFO buffer; machines fed byte by byte |
| `NegotiationParser`, `AuthenticationParser`, `RequestParser`, `Chunking` | the three messages of RFC 1928 and RFC 1929: grammar, round trips, replies, independence from how `recv` cuts the stream |
| `SelectorTable`, `Selector`, `ResolutionJobs` | the descriptor table as a map, and the growable array, fd sets, dispatch pass and job list that refine it |
| `StateMachine`, `ClientStates` | the engine of `stm.c` for any table, and `client_actions` as an instance of it |
| `Connection`, `ClientData` | one connection's handlers as functions, and the same handlers in place on buffers, parsers and selector |
| `OriginWalk`, `Replies` | where the walk over the origin's addresses ends, and what a client reads in the replies, or does not |
| `ConnectionInvariant`, `RelayInvariant` | what holds of a connection between callbacks, kept by every handler |
| `HandshakeEvents`, `HandshakeMessages`, `RelayEvents` | what each event does, from the bytes gone by, the end-of-stream flags and the kernel's answers alone; messages that come in pieces |
| `Server`, `ServerInvariant`, `ServerSafety`, `ServerTheorems`, `ServerHistory` | all connections, the table, the resolver threads, the job list and the user table as one state machine; safety over all runs |
| `ServerPass`, `PassRefinement` | a pass of `handle_iteration`, and a drain of the job list, as runs of that machine; the pass over the selector's table, with the server's callbacks, is that pass |
| `ServerStall`, `ServerProgress` | exactly which connections wait for ever, and which steps get them there |
| `ServerWitness`, `StallWitness` | runs from the start that end the process, stall a client, leave it without an answer, or answer it twice |
| `StringAutomaton`, `Users` | `parser_utils_strcmpi` with `parser_feed`; the user table |

A step of `Server` is one callback of the selector, or one move of a resolver thread. Everything the kernel answers
(`recv`, `send`, `socket`, `connect`, `getsockname`, SO_ERROR, `malloc` for a request, `getaddrinfo`, which descriptors are
ready, and in what order threads run) is an arbitrary parameter of the step. A fatal outcome (`abort()`, or a memory access that C leaves undefined)
is a value, `Crashed`, so that the model can say exactly when it happens.

## Where the code falls short of what it promises

Each is proved as an exact condition, and shown to be reachable or by a concrete input.

- `abort()` in `stm_handler_read` is not unreachable: it happens exactly when an origin becomes readable in REQ_CONNECT or
  REQ_WRITE, which have no read handler although both run with the origin at OP_READ
  (`ServerTheorems.CrashesAreExactlyThese`, `ServerWitness.AbortIsReachable`).
- After an error reply the connection enters COPY with `origin_fd == -1`; the next client data makes `copy_read` index the
  selector's array with -1 (`ServerTheorems.CrashesAreExactlyThese`, `ServerWitness.WildAccessIsReachable`).
- When the last byte of the reply leaves, `request_write` looks its user up for the access log; for a name that is not in the
  table, `create_access` writes to row -1. A refused login does not stop a client from getting there
  (`ServerTheorems.CrashesAreExactlyThese`, `ServerWitness.UnknownUserIsReachable`).
- A connect that fails after EINPROGRESS is never answered: it is reported on the origin's key, and the answer goes through
  the descriptor that was just closed (`ServerProgress.FailureIsAnswered`, `StallWitness.FailureIsNotTold`). With another
  address left, the walk starts over at the one that failed (`Replies.RetryFromTheOrigin`). If that leaves the connection in
  REQ_CONNECT, it is stalled: neither descriptor is watched for writing. A failure leaves a connection like that if and only
  if it is reported on the origin's key, whether the retry is in progress or connected at once
  (`ServerProgress.FailureStalls`, `StallWitness.StallIsReachable`). The next event of a stalled connection, if it gets one,
  is the origin's data, which ends the process (`ServerStall.StalledEventIsFatal`, `StallWitness.StallCanEndTheProcess`).
- A job that has no thread, or for which the thread finds no memory, is lost, and its connection is stalled in REQ_RESOLVE
  (`StallWitness.LostJobIsReachable`).
- A connection that waits for a connect or for its resolver waits for ever, whatever happens, if and only if it is stalled in
  one of these two ways (`ServerProgress.WaitsForEverIffStalled`).
- A client that has said its end of stream gets no more answers: the relay ends at once, or when its last bytes have left for
  the origin (`RelayEvents.HalfCloseEndsTheRelay`, `RelayEvents.RelayWrites`). Bytes that came with the request wait until
  the client sends more (`ServerTheorems.RelayIsWatched`), and are lost if it sends its end of stream instead
  (`RelayEvents.StrandedBytesAreLost`).
- A connect that succeeds at once is answered twice: a request has one reply if and only if no connect of it did
  (`ServerTheorems.RepliesToTheRequest`, `ServerWitness.TwoRepliesAreReachable`).
- `selector_register` looks past its array for a descriptor equal to the array's size (`Selectors.Selector.Register`,
  `Selectors.RegisterPastTheEnd`), and the other operations for any beyond it. The server's own array has 1025 slots, one for
  every valid descriptor and one more, so none of its calls meets this.
- The table of `parser_no_classes` has 255 entries: feeding byte 255 reads past it
  (`StringAutomaton.NoClassesSuffices`).
- `new_user` looks up the whole name but stores 255 characters of it, so longer names can collide
  (`Users.NewUserKeepsNamesDistinct`, `Users.LongNamesCollide`); a user whose name or password is cut off cannot log in
  with it (`Users.NewUserLogsIn`).
- `handle_set_max_users` computes the size in bytes in a `size_t`. A granted limit for which it wraps leaves an array that is
  too short: for the rows there are, or for one that is added later (`Users.OverrunsBreak`, `Users.OverrunsNeedAWrap`,
  `Users.SizesWrap`, `ServerTheorems.CrashesAreExactlyThese`, `ServerWitness.OverrunIsReachable`).
- `change_status` can take the last admin's status away; nothing else can (`Users.LastAdminGoes`, `Users.OnlyAdminGoes`).
- A declared name or password length of 0 makes the request and authentication parsers read 256 bytes, since the 8-bit
  cursor wraps; the stores stay inside the arrays (`RequestParser.Grammar`, `AuthenticationParser.Grammar`).

## Model

"In place == specification" means: the method leaves the buffers, the parser, the selector and the connection's fields in
the state that the function of the same name in `Connection` (or `Users`) gives for the state before, with the same result,
and is fatal exactly when that function is. The invariants and the theorems about runs are about those functions.

| member | source | states |
|---|---|---|
| `Buffers.Buffer.constructor` | src/server/buffer.c:16-21 | a new buffer is empty, with all of its capacity free |
| `Buffers.Buffer.Reset` | src/server/buffer.c:10-14 | everything unread is forgotten and all space is free again |
| `Buffers.Buffer.CanWrite` | src/server/buffer.c:24-27 | true iff contiguous space is left |
| `Buffers.Buffer.CanRead` | src/server/buffer.c:36-39 | true iff something is unread |
| `Buffers.Buffer.Receive` | src/server/buffer.c:29-34 | bytes stored through the write pointer are invisible until published, and end up where publishing finds them |
| `Buffers.Buffer.WriteAdv` | src/server/buffer.c:48-54 | publishing n bytes appends exactly the n stored bytes; a negative count (a failed `recv`) changes nothing |
| `Buffers.Buffer.ReadAdv` | src/server/buffer.c:56-67 | the first n unread bytes go, order kept; a drained buffer gets all its space back; a negative count changes nothing |
| `Buffers.Buffer.ReadByte` | src/server/buffer.c:69-79 | takes the oldest byte, or returns 0 and changes nothing when there is none |
| `Buffers.Buffer.WriteByte` | src/server/buffer.c:81-87 | appends one byte, or changes nothing when there is no contiguous space |
| `Buffers.Buffer.Compact` | src/server/buffer.c:89-102 | moving the unread bytes to the front changes neither them nor their order |
| `Buffers.FifoOverRuns` | src/server/buffer.c:29-102 | over any sequence of puts, takes and compactions: initial contents ++ put == taken ++ contents |
| `Incremental.Feed` | src/server/request_parser.c:165-193 | a parse call stops only because the message is over or the buffer is empty |
| `Incremental.UsedPartConsumes` | src/server/request_parser.c:165-193 | the leftover is a suffix, and the used part alone takes the machine to the same state |
| `Incremental.DoneStops` | src/server/negotiation_parser.c:21-37 | a finished message is consumed exactly, whatever follows it |
| `Incremental.ChunkIndependence` | src/server/authentication_parser.c:78-93 | parse calls on any chunks of a stream give the state and leftover of one call on the whole stream |
| `Incremental.RankBounds` | src/server/request_parser.c:165-193 | a rank that falls with each byte bounds the bytes used, and that many bytes end the message |
| `Chunking.CutsAgree` | src/server/request_parser.c:165-193 | for each parser in any state: two ways of cutting one stream give the same state, fields and leftover |
| `Chunking.MethodsInPieces` | src/server/negotiation_parser.c:21-62 | a method list in any pieces ends in NEG_DONE, 0x02 selected iff offered, the rest left over |
| `Chunking.CredentialsInPieces` | src/server/authentication_parser.c:19-93 | credentials in any pieces end in AUTH_DONE with both strings NUL-terminated, the rest left over |
| `Chunking.RequestInPieces` | src/server/request_parser.c:18-107 | a CONNECT in any pieces ends in REQ_DONE with its address and port, the rest left over |
| `NegotiationParser.Terminates` | src/server/negotiation_parser.c:21-62 | at most 257 bytes are used, and 257 always suffice to reach a terminal state |
| `NegotiationParser.RoundTrip` | src/server/negotiation_parser.c:39-62 | every encoded list of up to 255 methods ends in NEG_DONE with exact consumption; 0x02 is selected iff it occurs |
| `NegotiationParser.Grammar` | src/server/negotiation_parser.c:21-62 | NEG_DONE iff the input starts with version 5 and a complete method list; error iff the version differs |
| `NegotiationParser.ReplySaysWhetherOffered` | src/server/negotiation_parser.c:64-74 | the reply to a parsed list is 05 02 iff the client offered 0x02, else 05 FF |
| `NegotiationParser.Parser.Initialize` | src/server/negotiation_parser.c:14-19 | back to the version state with nothing selected; the counter is not cleared |
| `NegotiationParser.Parser.ParseVersion` | src/server/negotiation_parser.c:39-45 | one step of the machine on a version byte |
| `NegotiationParser.Parser.ParseMethodCount` | src/server/negotiation_parser.c:47-54 | one step on a count; 0 ends the message |
| `NegotiationParser.Parser.ParseMethod` | src/server/negotiation_parser.c:56-62 | one step on a method; the 8-bit counter's last decrement ends the message |
| `NegotiationParser.Parser.Run` | src/server/negotiation_parser.c:21-37 | parses the buffer's contents, leaves exactly the leftover, and is over or has emptied and reset the buffer |
| `NegotiationParser.Parser.GenerateResponse` | src/server/negotiation_parser.c:64-74 | status 0 iff both reply bytes fit and the parse did not fail; otherwise only what fits is appended |
| `AuthenticationParser.Terminates` | src/server/authentication_parser.c:19-53 | at most 514 bytes are used, and 514 always suffice, zero lengths included |
| `AuthenticationParser.Reads` | src/server/authentication_parser.c:19-53 | any message, with a declared length of 0 or more, is consumed exactly and its fields end up in the arrays |
| `AuthenticationParser.RoundTrip` | src/server/authentication_parser.c:28-53 | every pair of 1..255-byte strings arrives NUL-terminated, with exact consumption |
| `AuthenticationParser.Grammar` | src/server/authentication_parser.c:19-53 | AUTH_DONE iff the input starts with a message of section 2 of RFC 1929 as the code reads it; error iff the version differs |
| `AuthenticationParser.Parser.Initialize` | src/server/authentication_parser.c:9-16 | start state with zero length and cursor; the two arrays keep their contents |
| `AuthenticationParser.Parser.ParseVersion` | src/server/authentication_parser.c:19-25 | one step of the machine on a version byte |
| `AuthenticationParser.Parser.ParseLength` | src/server/authentication_parser.c:28-39 | one step on a length; an empty user name goes straight to the password length |
| `AuthenticationParser.Parser.ParseCharacters` | src/server/authentication_parser.c:42-53 | one step on a character: every store, terminator included, is inside its 256-byte array |
| `AuthenticationParser.Parser.Run` | src/server/authentication_parser.c:78-93 | parses the buffer's contents, leaves exactly the leftover, and is over or has emptied and reset the buffer |
| `AuthenticationParser.GenerateResponse` | src/server/authentication_parser.c:66-76 | status 0 iff both reply bytes fit; otherwise only what fits is appended |
| `RequestParser.Terminates` | src/server/request_parser.c:18-107 | at most 263 bytes are used, and 263 always suffice, zero lengths included |
| `RequestParser.Reads` | src/server/request_parser.c:18-107 | every CONNECT, of any type and declared length, is consumed exactly; address, port and unchanged status follow from it |
| `RequestParser.RoundTrip` | src/server/request_parser.c:18-107 | any IPv4, IPv6 or 1..255-byte name (NUL-terminated) and port = 256 * hi + lo survive, trailing bytes unread |
| `RequestParser.Grammar` | src/server/request_parser.c:18-107 | REQ_DONE iff the input starts with a CONNECT encoding; REQ_ERROR iff its header is bad, with that fault's non-zero status |
| `RequestParser.WireFormat` | src/server/request_parser.c:18-163 | the bytes of a CONNECT of each address type and of a success reply, and the status of each wrong header: 1, 7, 1, 8 |
| `RequestParser.ReplyRoundTrip` | src/server/request_parser.c:117-163 | a reply decodes to its status and, on success, the bound address and port; to zeros on any failure |
| `RequestParser.Parser.Initialize` | src/server/request_parser.c:8-16 | start state, failure status, zero port and cursor; the address type is not cleared |
| `RequestParser.Parser.ParseVersion` | src/server/request_parser.c:18-24 | one step of the machine on a version byte |
| `RequestParser.Parser.ParseCmd` | src/server/request_parser.c:26-33 | one step on a command; anything but CONNECT is refused with status 7 |
| `RequestParser.Parser.ParseRsv` | src/server/request_parser.c:35-42 | one step on the reserved byte |
| `RequestParser.Parser.ParseAtyp` | src/server/request_parser.c:44-61 | one step on an address type; an unknown one is refused with status 8 |
| `RequestParser.Parser.ParseDstAddrLength` | src/server/request_parser.c:63-71 | one step on a name's length |
| `RequestParser.Parser.ParseDstAddr` | src/server/request_parser.c:73-95 | one step on an address byte: every store, terminator and copy is inside its array |
| `RequestParser.Parser.ParseDstPort` | src/server/request_parser.c:97-107 | one step on a port byte; shifting and or-ing gives 256 * hi + lo |
| `RequestParser.Parser.Run` | src/server/request_parser.c:165-193 | parses the buffer's contents, leaves exactly the leftover, and is over or has emptied and reset the buffer |
| `RequestParser.Parser.GenerateResponse` | src/server/request_parser.c:117-163 | 0 iff the contiguous space holds the 10- or 22-byte reply; the buffer gains the longest prefix that fits |
| `StateMachine.Stm.Check` | src/server/stm.c:11-24 | `stm_init` passes iff the rows are numbered in order and the initial state is below the last |
| `StateMachine.Stm.HandleFirst` | src/server/stm.c:26-34 | the first event enters the initial state, with its arrival hook |
| `StateMachine.Stm.DoJump` | src/server/stm.c:36-51 | aborts iff the state is out of range; calls departure then arrival iff the state changes |
| `StateMachine.Stm.HandleEvent` | src/server/stm.c:53-87 | an event with handlers that re-enter the machine to any depth; aborts iff a handler is missing or a state is out of range |
| `StateMachine.Stm.HandleClose` | src/server/stm.c:89-94 | only the current state's departure hook, and `current` stays |
| `StateMachine.HandleExtends` | src/server/stm.c:26-87 | any event, however nested, extends the path of states; its last state is the handler's result |
| `StateMachine.RunsFormOneChain` | src/server/stm.c:26-87 | over any run the hooks called are those of one path without self-loops: one departure and one arrival per change |
| `StateMachine.ReturningTheNestedResult` | src/server/copy.c:46-50 | a handler that raises one event and returns its result has the effect of that event alone |
| `ClientStates.ClientActions` | src/server/socks5.c:29-78 | the eleven rows pass `stm_init`, and row s is state s with its handlers and arrival hook |
| `ClientStates.JumpAgrees` | src/server/stm.c:36-51 | entering a state initialises a parser iff the engine calls that state's arrival hook; never on a self-loop |
| `ClientStates.OnWriteIsTheEngines` | src/server/stm.c:65-75 | a write event on a connection is one un-nested engine event, and aborts for a missing handler iff the engine does |
| `ClientStates.OnBlockIsTheEngines` | src/server/stm.c:77-87 | the same for a block event |
| `ClientStates.OnReadIsTheEngines` | src/server/copy.c:46-83 | the same for a read event, with at most one write event nested in it, and that only in COPY |
| `ClientStates.EventExtendsThePath` | src/server/socks5.c:101-126 | every event that comes back extends the connection's path of states |
| `Selectors.BitLength` | src/shared/selector.c:172-188 | the shift loop finds the least power of two above n |
| `Selectors.NextCapacity` | src/shared/selector.c:172-188 | one more than the least power of two above n, capped; above n for every n <= ITEMS_MAX_SIZE |
| `Selectors.Selector.New` | src/shared/selector.c:289-306 | an empty table with more slots than asked for; NULL iff there is no memory or the size is beyond the platform's limit |
| `Selectors.Selector.ItemsInit` | src/shared/selector.c:199-205 | new slots become unused, old ones stay |
| `Selectors.Selector.ItemsMaxFd` | src/shared/selector.c:210-222 | the largest registered descriptor, 0 if there is none |
| `Selectors.Selector.UpdateFdSets` | src/shared/selector.c:224-238 | a descriptor is in a set iff its slot is used and wants that event |
| `Selectors.Selector.EnsureCapacity` | src/shared/selector.c:245-287 | growth, the first allocation included, keeps every slot; it fails iff n exceeds both the array and the platform's limit, or there is no memory to grow |
| `Selectors.Selector.Register` | src/shared/selector.c:335-376 | the table gains exactly that descriptor, or an error says why not; array, fd sets and `max_fd` agree again; out of bounds iff the descriptor equals the array's size |
| `Selectors.Selector.Unregister` | src/shared/selector.c:378-412 | the table loses exactly that descriptor; array, fd sets and `max_fd` agree again; out of bounds iff the descriptor is valid and beyond the array |
| `Selectors.Selector.SetInterest` | src/shared/selector.c:414-431 | only that descriptor's interest changes; array, fd sets and `max_fd` agree again; out of bounds iff the descriptor is valid and beyond the array |
| `Selectors.Selector.HandleIteration` | src/shared/selector.c:450-482 | the loop over the array makes exactly the calls of the pass over the table, whatever the callbacks do to it |
| `Selectors.RegisterPastTheEnd` | src/shared/selector.c:335-376 | a concrete case: a selector made for no elements, and the descriptor after its last slot |
| `Selectors.PassIsSafe` | src/shared/selector.c:450-482 | for any callbacks: one read and one write at most per descriptor, in order, each only while the slot has that interest and the kernel reported it |
| `Selectors.QuietPassIsComplete` | src/shared/selector.c:450-482 | with callbacks that leave the selector alone, exactly the due handlers are called |
| `ResolutionJobs.JobList.NotifyBlock` | src/shared/selector.c:520-545 | a job is pushed in front, or nothing changes and the caller learns there was no memory |
| `ResolutionJobs.JobList.HandleBlockNotifications` | src/shared/selector.c:495-517 | the loop answers the list as the function does, and leaves it empty; it goes out of bounds iff a job names a descriptor beyond the array |
| `ResolutionJobs.EveryJobIsAnswered` | src/shared/selector.c:495-517 | for any callbacks: every job is answered once, in list order, dispatched iff its slot is in use at that instant |
| `ClientObject.ClientData.New` | src/server/socks5.c:163-182 | a new connection: empty buffers, no origin, no state; NULL iff there is no memory |
| `ClientObject.ClientData.Jump` | src/server/stm.c:36-51 | the in-place jump is the function's; the union gets a fresh parser iff the state changes |
| `ClientObject.ClientData.NegotiationReady` | src/server/negotiation.c:9-38 | in place == specification: nothing happens on a full buffer, an error on no data; else the bytes join the unread ones, one parse call runs, and a finished list queues its reply and moves the interest to writing |
| `ClientObject.ClientData.NegotiationSend` | src/server/negotiation.c:40-67 | in place == specification: what `send` took leaves the buffer; only a drained reply with a method selected moves on to AUTH_READ, watching for reads |
| `ClientObject.ClientData.AuthenticationReady` | src/server/authentication.c:10-43 | in place == specification: a finished message is looked up in the user table, its name copied, the verdict queued, and AUTH_WRITE entered |
| `ClientObject.ClientData.AuthenticationSend` | src/server/authentication.c:45-70 | in place == specification: a drained verdict moves on to REQ_READ whatever the verdict was |
| `ClientObject.ClientData.ErrorReply` | src/server/request.c:22-34 | in place == specification: the parser holds the reason, the key waits to write, and the reply carries zeros; an unregistered key is an error |
| `ClientObject.ClientData.HandleRequest` | src/server/request.c:36-109 | in place == specification: without memory an error reply; a numeric address becomes a one-element list that is dialled; a name starts one thread and leaves no interest |
| `ClientObject.ClientData.RequestReady` | src/server/request.c:111-151 | in place == specification: EAGAIN waits, end of stream is an error; a finished request is refused with its status or handled |
| `ClientObject.ClientData.RequestSend` | src/server/request.c:153-184 | in place == specification: a drained reply moves on to COPY, with or without an origin; fatal iff the user to log for is unknown |
| `ClientObject.ClientData.RequestResolve` | src/server/request.c:292-300 | in place == specification: no list gives HOST_UNREACHABLE, a list is walked |
| `ClientObject.ClientData.DropOrigin` | src/server/request.c:306-310 | in place == specification: the old origin is unregistered and closed, and it is fatal iff that would free the object in use |
| `ClientObject.ClientData.TryAddress` | src/server/request.c:318-374 | in place == specification, for one address: a failure of socket, non-blocking mode, registration or connect goes on to the next, all else settles the walk |
| `ClientObject.ClientData.InitiateOriginConnection` | src/server/request.c:302-375 | in place == specification, for the recursive walk over the remaining list, for all answers of the kernel; it ends because the list gets shorter |
| `ClientObject.ClientData.ConnectedAtOnce` | src/server/request.c:342-362 | in place == specification: without a bound address an error, else the success reply is queued already here, and the origin is watched for reads in REQ_CONNECT |
| `ClientObject.ClientData.Release` | src/server/request.c:392-403 | in place == specification: the list goes, recorded with the deallocator that the address type selects |
| `ClientObject.ClientData.RequestConnect` | src/server/request.c:377-429 | in place == specification: on success release, reply, client to write, origin to read; on failure the origin is dropped and the walk resumes |
| `ClientObject.ClientData.CopyReadyFrom` | src/server/copy.c:10-83 | in place == specification: short reads, EAGAIN, end of stream on either side with what it implies for the other, and the nested write event |
| `ClientObject.ClientData.CopyReady` | src/server/copy.c:55-83 | in place == specification: the client's descriptor fills the origin's buffer and the reverse; any other is an error |
| `ClientObject.ClientData.CopySendTo` | src/server/copy.c:86-185 | in place == specification: short sends, EAGAIN, waking the source once there is space, and when the relay is over |
| `ClientObject.ClientData.CopySend` | src/server/copy.c:139-185 | in place == specification: each descriptor drains the buffer meant for it; any other is an error |
| `ClientObject.ClientData.PassOn` | src/server/copy.c:44-53 | in place == specification: the target's write event runs at once on a key read from its slot; a target that is not this object's is fatal |
| `ClientObject.ClientData.OnRead` | src/server/stm.c:53-63 | in place == specification for the whole read event: first arrival, handler, jump; a missing handler is fatal |
| `ClientObject.ClientData.OnWrite` | src/server/stm.c:65-75 | in place == specification for the whole write event |
| `ClientObject.ClientData.OnBlock` | src/server/stm.c:77-87 | in place == specification for the whole block event |
| `ClientObject.ClientData.UnregisterFd` | src/server/socks5.c:128-146 | closing a descriptor in place is the server's step; the object is destroyed iff both are gone |
| `ClientObject.ClientData.Done` | src/server/socks5.c:148-161 | ending a connection in place is the server's step; it aborts iff that does |
| `ClientObject.ClientData.SocksRead` | src/server/socks5.c:101-108 | the read callback in place, end of the connection included, is the server's step on this object |
| `ClientObject.ClientData.SocksWrite` | src/server/socks5.c:110-117 | the write callback in place is the server's step on this object |
| `ClientObject.ClientData.SocksBlock` | src/server/socks5.c:119-126 | the block callback in place is the server's step on this object |
| `ClientObject.ReadCameBack` | src/server/socks5.c:101-108 | what the read callback in place needs holds at every enabled read step of a reachable server that is not fatal |
| `ClientObject.WriteCameBack` | src/server/socks5.c:110-117 | the same for write steps |
| `ClientObject.BlockCameBack` | src/server/socks5.c:119-126 | the same for the job at the head of the list |
| `OriginWalk.Skips` | src/server/request.c:302-375 | the recursive walk passes over attempts that fail: nothing changes but the list |
| `OriginWalk.ExhaustedWalk` | src/server/request.c:312-316 | a walk over attempts that all fail is one error reply, by a connection without origin |
| `OriginWalk.SettledWalk` | src/server/request.c:331-375 | a walk that meets a usable address is settled by that attempt, and never in REQ_WRITE |
| `HandshakeEvents.ReplyLeaves` | src/server/request.c:153-178 | a write event in NEGOTIATION_WRITE, AUTH_WRITE or REQ_WRITE: the first bytes of the reply leave, as many as `send` takes; an error iff it takes nothing (but EAGAIN waits in REQ_WRITE) or 05 FF is gone; the next state iff all else is gone, with the client watched for reading; COPY starts with both sides watched for reading |
| `HandshakeEvents.ReadWithoutData` | src/server/request.c:111-133 | no room, EAGAIN, a failure or an end of stream while a message is read: only a full buffer, and EAGAIN in REQ_READ, wait |
| `HandshakeEvents.EventsAreOne` | src/server/request.c:111-151 | any number of read events that bring a message's pieces, each with its own kernel answers, give exactly the result of one event with the whole |
| `HandshakeEvents.PiecesWait` | src/server/request.c:138-150 | before the last piece the connection stays in its state with the table unchanged |
| `HandshakeMessages.FirstArrives` | src/server/stm.c:26-34 | the first event finds the connection at the start of its negotiation |
| `HandshakeMessages.NegotiationReads` | src/server/negotiation.c:9-38 | with all bytes so far: answered iff they start with a complete method list and the reply fits, 05 02 iff 02 is in it, else 05 FF; waits iff incomplete; else ends |
| `HandshakeMessages.AuthenticationReads` | src/server/authentication.c:10-43 | with all bytes so far: answered iff they start with a complete login message, or another version, and the reply fits; 01 00 iff the user table has that name and password, else 01 01; waits iff incomplete |
| `HandshakeMessages.RequestReads` | src/server/request.c:36-151 | with all bytes so far: waits iff incomplete; a wrong header is refused with its fault's status; a CONNECT is refused without memory, a name goes to a resolver, and the one address of any other is dialled |
| `HandshakeMessages.MethodsInPieces` | src/server/negotiation.c:9-38 | a method list cut anywhere, one read event a piece: the connection waits, read as before, and the last event does what the whole list would |
| `HandshakeMessages.CredentialsInPieces` | src/server/authentication.c:10-43 | the same for a login message |
| `HandshakeMessages.RequestInPieces` | src/server/request.c:111-151 | the same for a CONNECT request |
| `Replies.NegotiationAnswers` | src/server/negotiation.c:30-36 | NEGOTIATION_WRITE is reached with 05 and the selected method queued, after a finished list |
| `Replies.VerdictIsTheLogin` | src/server/authentication.c:33-41 | AUTH_WRITE is reached with 01 and a verdict queued, 0 iff the user table has the name and password that were read; the name is copied |
| `Replies.CredentialsAreJudged` | src/server/authentication.c:30-41 | credentials sent whole are judged by the user table alone, and move on to AUTH_WRITE |
| `Replies.LoggedInHasRow` | src/server/users.c:206-231 | a login that succeeds is of a user in the table: unknown later means refused or deleted |
| `Replies.RefusalsSayWhy` | src/server/request.c:138-149 | a request that goes straight to REQ_WRITE has a well-formed reply queued, with a non-zero reason and no address |
| `Replies.WalkRefuses` | src/server/request.c:302-375 | the walk over the addresses ends in REQ_WRITE iff every attempt fails, the key is still registered and ten bytes fit; HOST_UNREACHABLE is queued |
| `Replies.WalkOutcome` | src/server/request.c:302-375 | the walk ends at the first attempt that does not fail: its address is dialled last, the client and the new origin are watched for that outcome, REQ_CONNECT iff the key is registered and a reply that is due fits |
| `Replies.ResolvedIsDialed` | src/server/request.c:271-300 | the resolver's answer is walked from its first address |
| `Replies.RetryIsAWalk` | src/server/request.c:421-428 | a failed connect with another address left is a walk over the list from the address that failed |
| `Replies.ResolveRefuses` | src/server/request.c:292-300 | a resolved name goes straight to REQ_WRITE iff there is no list or every attempt fails, and ten bytes fit; HOST_UNREACHABLE is queued |
| `Replies.ConnectAnswers` | src/server/request.c:388-419 | a connect without an error is announced iff its reply fits, that reply decodes to success and the bound address, and the address list has been released |
| `Replies.FailureIsAnswered` | src/server/request.c:421-428 | a failed connect is answered iff it is reported on the client's key, no address left can be used and ten bytes fit |
| `Replies.FailureIsNotTold` | src/server/request.c:421-427 | with one address, a failure reported on the origin's key ends the connection with nothing queued |
| `Replies.RetryFromTheOrigin` | src/server/request.c:421-428 | a retry from the origin's key goes on iff the first usable attempt reopens the closed descriptor and, connected at once, has a reply that fits; the client is left as it was, the origin with no interest or OP_READ |
| `Replies.WhoReports` | src/server/request.c:350-371 | in REQ_CONNECT a write event is the origin's iff a connect is in progress, with only the origin watched, and the client's iff it succeeded at once, with the origin to be read |
| `Replies.RetryIsWatched` | src/server/request.c:421-428 | a failure that leaves REQ_CONNECT as the state leaves nobody watched for writing iff it came on the origin's key |
| `ConnectionInvariant.NegotiationReadyKeeps` | src/server/negotiation.c:9-38 | keeps: every byte accounted for, the union's parser is the phase's, the list used so far is exactly what it parsed, interest matches the next state, other connections' slots untouched |
| `ConnectionInvariant.NegotiationSendKeeps` | src/server/negotiation.c:40-67 | keeps the same, and reaches AUTH_READ only with a complete list and 0x02 selected |
| `ConnectionInvariant.AuthenticationReadyKeeps` | src/server/authentication.c:10-43 | keeps the same; AUTH_WRITE only once the login message is over, complete or with a wrong version byte, and consumed exactly |
| `ConnectionInvariant.AuthenticationSendKeeps` | src/server/authentication.c:45-70 | keeps the same; REQ_READ starts with a fresh request parser and no address |
| `ConnectionInvariant.RequestReadyKeeps` | src/server/request.c:111-151 | keeps the same; a list is made or a thread started only for a complete CONNECT, and a thread only with no interest left on the client |
| `ConnectionInvariant.RequestResolveKeeps` | src/server/request.c:292-300 | keeps the same; only addresses the resolver returned are dialled |
| `ConnectionInvariant.InitiateKeeps` | src/server/request.c:302-375 | keeps the same for every sequence of answers to `socket` and `connect`; the walk never frees the object in use |
| `ConnectionInvariant.RequestConnectKeeps` | src/server/request.c:377-429 | keeps the same for every reported write event, retry included, with the client watched for writing only while the origin is to be read; on success the list is released once |
| `ConnectionInvariant.RequestSendKeeps` | src/server/request.c:153-184 | keeps the same, unless the user to log for is unknown; nothing of the reply goes anywhere but to the client |
| `ConnectionInvariant.AnswerSettles` | src/server/request.c:22-34 | a reply that fits settles the request: one more than the connects that succeeded at once, a success iff there is an origin |
| `RelayInvariant.CopySendKeeps` | src/server/copy.c:139-185 | keeps framing in both directions, both registrations and who is watched for what, for every short send, EAGAIN and error |
| `RelayInvariant.CopyReadyKeeps` | src/server/copy.c:55-83 | keeps the same for every read, nested write event included, unless client data meets an absent origin |
| `RelayInvariant.OnReadKeeps` | src/server/stm.c:53-63 | every read event a selector can report keeps the connection's invariant, except those that end the process |
| `RelayInvariant.OnReadCrashes` | src/server/stm.c:53-63 | and those do end it |
| `RelayInvariant.OnWriteKeeps` | src/server/stm.c:65-75 | every write event a selector can report finds its handler and keeps the invariant, unless it logs for an unknown user |
| `RelayInvariant.OnWriteCrashes` | src/server/request.c:180-184 | and that one ends the process |
| `RelayInvariant.OnBlockKeeps` | src/server/stm.c:77-87 | a block event in REQ_RESOLVE finds its handler and keeps the invariant |
| `RelayInvariant.OriginSeesTheTail` | src/server/copy.c:157-184 | once the request is over, origin's bytes ++ unread buffer == what follows the request's last port byte in the stream |
| `RelayEvents.RelayWrites` | src/server/copy.c:86-185 | a write event in COPY: the first bytes that wait for that side leave, as many as `send` takes; SOCKS_ERROR iff it fails or takes none of some; SOCKS_DONE iff none is left, the client's end of stream is known and, for an origin that had nothing to write, the origin's too with nothing left for the client; what that side is watched for next |
| `RelayEvents.DataIsPassedOn` | src/server/copy.c:44-53 | data for an open side joins what waits for it and its write event runs at once: exactly the first bytes that `send` takes arrive, the rest waits in order with that side watched for writing; when it ends |
| `RelayEvents.RelayReads` | src/server/copy.c:10-83 | every other read event in COPY: no room or EAGAIN change nothing, a failure ends it, an end of stream sets its flag and the other one if nothing waits there and ends the relay iff both buffers are empty; data for a side that is over is kept |
| `RelayEvents.RelayGoesOn` | src/server/copy.c:10-185 | with neither flag set and no call failing, no event leaves COPY |
| `RelayEvents.HalfCloseEndsTheRelay` | src/server/copy.c:20-42 | a client's end of stream ends the relay at once iff nothing waits for the origin; nothing waits for the client then |
| `RelayEvents.StrandedBytesAreLost` | src/server/copy.c:20-53 | bytes that came with the request are sent by no event once the client has said its end of stream |
| `RelayEvents.SendingWakesTheSource` | src/server/copy.c:86-165 | what an attempt to send does to any table: an open source is read again once there is room, and the drained side is watched by what is left |
| `RelayEvents.NeitherSide` | src/server/copy.c:60-71 | an event on a descriptor of neither side is an error |
| `ServerInvariant.DoneKeeps` | src/server/socks5.c:148-161 | `socksv5_done` never aborts, destroys its object once, and leaves the others as they were |
| `ServerInvariant.SettleKeeps` | src/server/socks5.c:101-126 | after any callback, whether or not the connection ends there, the server's invariant holds |
| `ServerSafety.StepIsSafe` | src/server/socks5.c:101-161 | a step ends the process iff it is one of the fatal reads, the fatal write or a command that leaves the user table's array; every other step keeps the invariant |
| `ServerSafety.RunIsSafe` | src/server/socks5.c:101-227 | the invariant holds after every run |
| `ServerTheorems.StreamsAreFramed` | src/server/copy.c:10-185 | every connection ever: received == negotiation ++ authentication ++ request ++ sent to origin ++ unread; replies ++ origin's bytes == sent to client ++ unread; the replies are the three kinds in order, all whole but the last |
| `ServerTheorems.RelayCarriesTheTail` | src/server/request.c:135-150 | in COPY, origin's bytes ++ unread == exactly what follows the handshake in the client's stream |
| `ServerTheorems.MethodWasOffered` | src/server/negotiation.c:59-66 | past the negotiation, the bytes used by it are one complete method list that offers 0x02 |
| `ServerTheorems.DialsWhatWasRequested` | src/server/request.c:36-109 | an origin is dialled only for a complete CONNECT; a numeric one only at the address and port in its bytes |
| `ServerTheorems.OnlyTheRequestedAddressIsDialed` | src/server/request.c:302-375 | only addresses of the list are dialled: the parsed one, or those the resolver returned |
| `ServerTheorems.DescriptorsAndObjects` | src/server/socks5.c:128-161 | every live object owns its registered descriptors and no others; each object is live or freed, never both; the metric counts the live ones |
| `ServerTheorems.CallbacksGetLiveObjects` | src/server/socks5.c:101-126 | no read, write or block callback ever gets a freed object |
| `ServerTheorems.InterestsMatchHandlers` | src/server/socks5.c:29-78 | from accept through REQ_RESOLVE the client is watched for exactly the events its state has handlers for |
| `ServerTheorems.RelayIsWatched` | src/server/copy.c:44-185 | in COPY, in every reachable state: each side is watched for exactly one event, never both for writing, and an open side that bytes wait for is watched for writing, except an origin that nothing has gone to yet |
| `ServerTheorems.NewClientIsServed` | src/server/socks5.c:197-227 | an accepted descriptor, ready and valid, becomes a live connection watched for reading, its first read event possible, however many there are; otherwise nothing changes |
| `ServerTheorems.JobsAreConserved` | src/shared/selector.c:495-545 | queued == dispatched + outstanding, none dropped or lost by the reset; each outstanding job finds its connection in REQ_RESOLVE at its descriptor |
| `ServerTheorems.AddressesAreReleasedOnce` | src/server/request.c:392-403 | at most one address list, released once, by the deallocator of its source, and before the object is gone; from `getaddrinfo` iff the type is DN |
| `ServerTheorems.CrashesAreExactlyThese` | src/server/stm.c:53-75 | from any reachable state, a step ends the process iff an origin is readable in REQ_CONNECT or REQ_WRITE, client data meets a relay without origin, the reply to an unknown user drains, or a manager's command leaves the user table's array |
| `ServerTheorems.RepliesInOrder` | src/server/request.c:111-178 | past the login: replies == 05 02 ++ 01 verdict ++ whole replies to the request, and the client was sent a prefix of that ++ origin's bytes |
| `ServerTheorems.RepliesToTheRequest` | src/server/request.c:342-419 | in REQ_WRITE and COPY a request has one reply more than connects that succeeded at once, all successes but the last, which is one iff there is an origin |
| `ServerTheorems.OnlyManagersChangeUsers` | src/server/manager.c:159-191 | no callback of a connection changes the user table |
| `ServerTheorems.UsersAreGood` | src/server/users.c:20-170 | the user table is in order in every reachable state of the server, whatever limits were granted |
| `ServerTheorems.LogsForTheNamedUser` | src/server/authentication.c:33-36 | from the end of the request on, the user name kept for the access log is the one in the bytes of the login message |
| `ServerPass.VisitIsARun` | src/shared/selector.c:450-482 | one turn of the dispatch loop, for a connection's slot, a passive socket's or a manager's, is a run of the server, or leads to a fatal step |
| `ServerPass.PassIsARun` | src/shared/selector.c:450-482 | one pass over the ready descriptors, whatever its callbacks do, is a run of the server, or leads to a fatal step |
| `PassRefinement.TheLoopIsThePass` | src/shared/selector.c:450-482 | the pass of `Selectors.Selector.HandleIteration` over the table, with the server's callbacks, makes the calls of the server's pass and leaves its table |
| `ServerPass.DrainIsARun` | src/shared/selector.c:495-517 | one drain of the job list is a run of the server that is never fatal and leaves the list empty |
| `ServerStall.StepIsLocal` | src/server/socks5.c:101-126 | a step that is no callback of a connection, nor its resolver's answer, changes neither it nor its slots |
| `ServerStall.StalledEventIsFatal` | src/server/request.c:350-371 | an event of a connection that nobody waits for is its origin's data, and ends the process |
| `ServerStall.StallStays` | src/server/request.c:350-371 | no step that the server survives changes a connection in REQ_CONNECT with nobody watched for writing, or in REQ_RESOLVE with its job lost, or its slots |
| `ServerStall.StallIsForEver` | src/server/request.c:350-371 | nor does any run |
| `ServerProgress.FailureIsAnswered` | src/server/request.c:421-428 | at any write event in REQ_CONNECT with an error: on the origin's key iff the connect was in progress, and then never answered; on the client's iff it had succeeded at once, and then answered iff no address left can be used and ten bytes fit |
| `ServerProgress.FailureStalls` | src/server/request.c:421-428 | a write event after which the connection is still in REQ_CONNECT has stalled it iff it came on the origin's key |
| `ServerProgress.OthersGetOn` | src/shared/selector.c:495-596 | a connection that waits for a connect or its resolver and is not stalled has a run before it that takes it out of its state |
| `ServerProgress.WaitsForEverIffStalled` | src/server/request.c:292-428 | such a connection stays in its state over every run iff it is stalled |
| `ServerHistory.StepIsLater` | src/server/copy.c:20-42 | no step takes back an end-of-stream flag or bytes gone by, or touches a freed object |
| `ServerHistory.RunIsLater` | src/server/copy.c:20-42 | nor does any run |
| `ServerWitness.AbortIsReachable` | src/server/request.c:342-361 | a run from the start to the abort in REQ_CONNECT: a user who has logged in, and an origin that sends first |
| `ServerWitness.WildAccessIsReachable` | src/server/request.c:139-147 | a run from the start to the access at -1: a user who has logged in, and a refused request |
| `ServerWitness.UnknownUserIsReachable` | src/server/request.c:180-184 | a run from the start to the write at row -1: a refused login, and a refused request |
| `ServerWitness.OverrunIsReachable` | src/server/manager.c:479-488 | two runs from the start to a use of memory past the user table's array: a limit that wraps, at once, or one that wraps a little and then one more user |
| `ServerWitness.TwoRepliesAreReachable` | src/server/request.c:342-361 | a run from the start to COPY with two replies to one request |
| `StallWitness.FailureIsNotTold` | src/server/request.c:421-427 | a run from the start to a failed connect that ends the connection with no reply |
| `StallWitness.StallIsReachable` | src/server/request.c:421-428 | runs from the start to a stalled connection: a name with two addresses, a first connect that fails, and a retry that is in progress or connects at once |
| `StallWitness.StallCanEndTheProcess` | src/server/request.c:350-361 | and after the latter the origin's first byte ends the process |
| `StallWitness.LostJobIsReachable` | src/shared/selector.c:520-531 | runs from the start to a name that is never resolved: no thread, or no memory for the job |
| `StringAutomaton.LabelsOfALetter` | src/server/parser_utils.c:103-108 | the two labels of a row match exactly one letter, ignoring case |
| `StringAutomaton.LastEventIsTheVerdict` | src/server/parser_utils.c:74-137 | for every ASCII string and input: the last event is EQ iff they are equal ignoring case, MAYEQ iff the input is a proper prefix, else NEQ; every index is in range |
| `StringAutomaton.NoClassesSuffices` | src/server/parser.c:85-90 | with the 255-entry table, feeding stays in range iff no byte is 255 |
| `StringAutomaton.Tables.PutLetter` | src/server/parser_utils.c:100-114 | one turn of the loop puts one more row in place and keeps the others |
| `StringAutomaton.Tables.Strcmpi` | src/server/parser_utils.c:74-137 | the arrays that the loop fills are the automaton of the string |
| `StringAutomaton.Parser.constructor` | src/server/parser.c:31-42 | at the start state with cleared events |
| `StringAutomaton.Parser.Reset` | src/server/parser.c:44-47 | only the state goes back |
| `StringAutomaton.Parser.Feed` | src/server/parser.c:49-82 | the loop takes the first transition that matches, performs its actions and moves; it fails iff a table or an action is missing |
| `Users.LoginMeans` | src/server/users.c:206-231 | login succeeds iff the first row of that name has that password |
| `Users.RunKeepsGood` | src/server/users.c:20-170 | after any operations that stay inside the array: names non-empty, admins == number of ADMIN rows, rows <= limit, rows <= array length, one live string builder per row |
| `Users.OverrunsBreak` | src/server/manager.c:456-489 | an operation keeps the table in order iff it does not leave the array: no row is written past its end, and no resize cuts off a row |
| `Users.OverrunsNeedAWrap` | src/server/manager.c:479-488 | and it leaves the array only by a limit whose size in bytes wraps below that limit, now or granted before |
| `Users.ResizesShorten` | src/server/manager.c:479-488 | the array becomes shorter than the limit iff such a limit is granted; its size in bytes is then not below 2 to the 64th |
| `Users.SizesWrap` | src/server/manager.c:479-480 | two limits that wrap: one cuts off the only row, one leaves no room for a second |
| `Users.RunKeepsNamesDistinct` | src/server/users.c:20-170 | and names distinct, if those added have at most 255 characters |
| `Users.NewUserKeepsNamesDistinct` | src/server/users.c:35-53 | names stay distinct iff the addition is refused or the kept part of the name is new |
| `Users.LongNamesCollide` | src/server/users.c:35-53 | two long names that end in two rows of one name |
| `Users.LastAdminGoes` | src/server/users.c:70-170 | the last admin disappears iff `change_status` takes its status away; deletion never does it |
| `Users.OnlyAdminGoes` | src/server/users.c:70-101 | a concrete case: the table a server starts with loses its only admin |
| `Users.AddingSucceeds` | src/server/users.c:20-68 | a user is added iff both strings are there, nobody has the name and the limit allows; else nothing changes |
| `Users.RemovingSucceeds` | src/server/users.c:130-170 | a user is removed iff the first row of that name is not the last admin's; exactly that row goes, else nothing changes |
| `Users.ChangingPasswordSucceeds` | src/server/users.c:103-128 | a password is changed iff the old one would log in; only in the first row of that name, else nothing changes |
| `Users.StatusIsSet` | src/server/users.c:70-101 | the first row of that name gets the status and no other row changes |
| `Users.LimitIsSet` | src/server/manager.c:466-489 | a limit is taken iff it is positive, not below the number of users in its low 32 bits, and there is memory; the rows stay |
| `Users.NewUserLogsIn` | src/server/users.c:52-55 | a new user can log in iff nothing of name or password was cut off |
| `Users.NewPasswordLogsIn` | src/server/users.c:103-128 | after a change, the kept part of the new password logs in, and nothing else |
| `Users.DeletedUserIsGone` | src/server/users.c:130-170 | a deleted name no longer logs in |
| `Users.OthersUntouched` | src/server/users.c:20-170 | no operation changes another name's row, or what it can log in with |
| `Users.InitialIsGood` | src/server/users.c:172-189 | the initial table meets the invariant |
| `Users.UserTable.Initialize` | src/server/users.c:172-189 | `init_users` leaves a table in order, with one admin, or fails without memory |
| `Users.UserTable.UserExists` | src/server/users.c:233-243 | the index of the first row of that name, or -1 |
| `Users.UserTable.NewUser` | src/server/users.c:20-68 | in place == specification: a full table, an empty name or password, or a known name is refused and nothing changes; else one row at the end with what is kept of both strings, out of bounds iff the array is full before the limit is reached |
| `Users.UserTable.ChangeStatus` | src/server/users.c:70-101 | in place == specification: only that row's status, and the counter by one iff it starts or stops being ADMIN |
| `Users.UserTable.ChangePassword` | src/server/users.c:103-128 | in place == specification: only with the right old password, and only that row |
| `Users.UserTable.ShiftDown` | src/server/users.c:163-166 | the loop removes one row and keeps the others in order |
| `Users.UserTable.DeleteUser` | src/server/users.c:130-170 | in place == specification: that row goes and its string builder is freed, unless it is the last admin's |
| `Users.UserTable.UserLogin` | src/server/users.c:206-231 | in place == specification: success iff the first row of the name has the password |
| `Users.UserTable.SetMaxUsers` | src/server/manager.c:466-489 | in place == specification: the resize keeps every row, and is refused below the number of users; rows are cut off iff the size in bytes wraps that far |

## Left out

- System calls, signals and threads below the level of one call: their answers are parameters. `accept` and `socket` return
  a descriptor that is not open. Which descriptors `pselect` reports is arbitrary: any registered one with that interest.
- ClientObject.ClientData.RequestConnect: the branch for a failing `getsockopt` is absent, since the call cannot fail for a
  socket that is open and arguments that are constant.
- ConnectionInvariant.RequestConnectKeeps: without that branch, for the same reason.
- ClientObject.ClientData.HandleRequest: that `pthread_create` fails is the step `Server.ThreadFails`, since the source compares
  with -1, which it never returns, and goes on.
- Storage that an initialiser does not clear is zero when a parser moves into the union (the C union may hold bytes of the
  parser before it); `ClientObject.ClientData` keeps the three parsers as separate objects and a tag for the one in use, and
  reading another one counts as a wild access.
- Selectors.Selector.HandleIteration: callbacks do not make the array grow during the pass, which would leave the loop with a
  pointer into the old array.
- ResolutionJobs.JobList.NotifyBlock: the mutex appears as one step per locked section; its interleavings with the selector's
  thread are in `Server`.
- ServerProgress.OthersGetOn: that a run exists, not that it comes about: nothing is assumed to be fair.
- Users.OverrunsBreak: a resize that cuts off rows counts as fatal at once. In C it is the next use of such a row; every
  command that could remove one reads it, and so does `close_users`. A size that wraps to 0, possible only without any user,
  counts as an array of length 0.
- Users.UserTable.SetMaxUsers: parsing the number and the replies to the manager are absent.
- Users.UserTable.Initialize: command-line users are later additions. A NULL name counts as the empty string.
- StringAutomaton.Tables.Strcmpi: strings of ASCII characters, since `tolower` and `toupper` of a negative `char` are
  undefined; the branch for failed allocations and `parser_utils_strcmpi_destroy` are absent.
- ClientObject.ClientData.RequestSend: of the access log only the lookup of the user, not the text.
- That a login is needed: REQ_READ is reached for a refused one too.
- `shutdown`, the byte metric and log messages have no effect on the state modelled.
- Delivery: bytes may be left in a buffer when a connection ends, and a pipelining client waits for another `recv`; only
  prefixes are claimed.
- Shutting the selector down with resolver threads alive, and `close_users`.
- The manager protocol beyond its effect on the user table, the command line, `src/client/main.c`, the logger, `netutils.c`
  and `selector_select`'s error cases: they would add only easy members.
