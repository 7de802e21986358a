# A verified model of the custom concurrent TCP protocol

The repository is a file server and its client. The server's main thread polls non-blocking
connections, rebuilds packets from the byte stream in a fixed buffer per connection, pushes completed
packets onto a stack, empties the stack into a thread pool's queue, and lets any worker run the handler
of any packet. The client sends one packet, reads one reply, and goes on. Nothing in the server keeps a
connection's packets in order, and a handler learns its command from the connection's receive buffer as
it is at that moment, not from the packet. This project models that system in Dafny and proves when and
why it works.

## What is proved

1. **Concurrent uploads.** Any number of clients log in and upload non-empty files to distinct paths.
   Under every interleaving of sends, TCP segmentations, polls, last-in first-out dispatches, worker
   steps, partial sends and partial reads, the system cannot run for ever, cannot get stuck before every
   client is finished, and ends with each file sent before a rejected name holding its client's bytes over
   the old content and every other file unchanged (`Uploaders.ConcurrentUploads`). It rests on a general
   theorem: clients none of which writes what another touches get, in every interleaving, exactly what
   they would have got alone (`Interleavings.AsIfAlone`). For different users the paths need not be assumed
   distinct: where the server puts uploads keeps them apart, each in its own user's directory
   (`Uploaders.UploadsAtHome`).
2. **Why the unordered pipeline is safe and live.** For lockstep clients, whatever requests in range they
   make, whatever files they share and whoever they log in as: each connection has at most one request, in
   exactly one place; the bytes in its channel and buffer are none or that request; when a handler starts
   the never-cleared receive buffer still begins with its whole packet; no schedule runs for ever; and, if
   the requests have handlers that answer, none is stuck before all is done (`Pipelines`, `Termination`).
   Of most handlers only the reply is known, their effect on the files is arbitrary. The same holds with
   workers that sleep, are notified late and wake spuriously, because that system refines the first, packet
   by packet (`PooledSystems`). A client that does not log in as an administrator is never one, whoever else
   is connected, and its administrators' requests are refused and touch nothing
   (`Pipelines.OnlyAdministrators`).
3. **Framing and conservation.** The in-place buffer loop refines a recursive parse of the whole stream,
   for any segmentation; it inverts serialisation, and never wraps its 16-bit cursor. Whatever order
   the actions of server thread, accept thread and workers come in, each byte received is in its
   connection's buffer or in exactly one packet, each packet is stacked, queued or taken once, and the
   connections listed or about to be are exactly those of which every `recv` has brought data or said to try
   again. One turn of the server thread, as its object runs it, is a run of the step system (`Turns`).
4. **Transfers.** Upload and download commands leave exactly the promised bytes, with the exact condition
   under which the upload promise fails; and a file uploaded and downloaded again comes back, byte for byte
   exactly when neither old file was longer (`Transfers.UploadThenDownload`).
5. **Handlers and replies.** One packet answers each request except in three cases, given as an
   if-and-only-if over whole conversations. In every run a session is a user's if and only if it was let in
   as that user and has neither logged out nor been turned away since (`Sessions.LoggedInIff`); after that
   it changes nothing (`Sessions.LogoutEndsSession`); it stays in its user's tree, in directories that are
   there. cd succeeds exactly when every directory it enters on the way exists (`Paths.CdSucceedsIff`).
6. **Thread pool and lock.** Condition-variable protocols with spurious wakeups: no lost wakeup, exactly
   once, draining, mutual exclusion, and `notify_one` suffices.

Code that loops over buffers, lists or fields is modelled by classes and methods with loops
(`Connection`, `Server`, `Controller`, `ClientLoop`, `Transport`, the loops of `Paths` and `Clients`, and
the objects of `ThreadPools` and `RwLocks`), each proved equal to a specification function; the
properties are then proved of those functions. Concurrency is a step relation over a datatype state
(`Systems`, `ThreadPools`, `RwLocks`).

`Sequences`, `Protocol` and `Files` hold the vocabulary; `SoloRuns` is one client alone with a server;
`Systems` is the concurrent step system, `Lockstep` its invariant relative to an oracle that says what each
client has been answered so far. `Pipelines` carries an oracle along every run, `Termination` gives the
measure, and `Interleavings` uses the oracle of each client's run alone. `Turns` sets the server's object
beside the step system, and `Histories` carries the theorems about runs of sessions over to it.

## Premises

* Clients work in lockstep: one request, then its whole reply (src/client/main.cpp:59-72). Nothing is
  claimed of a client that pipelines.
* In the step system the client's first `recv` returns all four header bytes (src/common/utils.hpp:15),
  and no `recv` or `send` on a live stream fails or returns 0. `Transport.RecvFromServer` says exactly what
  depends on the first.
* Requests are of the types `get_packet_type` lets through; chunk requests come from the download loop
  alone; and the client of an administrator does not ask for the settings, whose reply is longer than it
  says. Where no stuck run is claimed there is a handler for each request that answers it: types above 23
  have none (calling it ends the server), and REQ_CRC_VERIFY, which no client command sends, is never
  answered.
* No client disconnects with a request in flight: a queued packet holds a raw pointer to its connection
  (src/server/main.cpp:142).
* A handler is one atomic step, `write` takes all its bytes, the file-system calls do not throw, the set
  of directories is fixed, and nothing else changes the files.
* Where each client is compared with its run alone (`Interleavings`, `Uploaders`), its requests are of the
  eleven types whose effect is modelled, at most one client logs in as an administrator, and none writes a
  file another touches: the flag and the files are what sessions share. Nothing of the kind is needed in
  `Pipelines`, `Termination` and `PooledSystems`.
* A `recv` asked for no bytes returns 0 when there is data, and may return 0 or EAGAIN when there is none.
* `total_size` is little-endian. Structure padding and bytes a handler leaves unwritten in its reply
  buffer are zero.

## What the code does not do

Each of these is a theorem with a concrete input or an exact condition.

* Uploading an empty file sends one packet, the START relabelled END (src/common/utils.hpp:115): no file
  is created, and the 272 body bytes are written to the file last uploaded, whose descriptor stays open
  (`Transfers.UploadPromiseIff`, `Transfers.EmptyUploadHitsOpenFile`).
* Files are opened without truncation, so a transfer leaves exactly its data if and only if the old file
  was no longer (`Files.OverlayIsData`, `Transfers.UploadExact`, `Transfers.DownloadExact`); every transfer
  theorem says "the new bytes over the old content".
* REQ_CRC_VERIFY is never answered, an administrator's REQ_GET_SETTINGS reply is longer than its header
  says, a chunk request whose seek fails is answered twice, and one whose read fails declares a size of 3
  because the result is unsigned (`Responses.OnePacketIff`).
* A single administrator is not an invariant: LOGOUT clears the global flag but not the session's
  (`Sessions.OneAdminStepIff`, `Sessions.TwoAdmins`, `Sessions.AdminIff`).
* A path over 511 characters is cut on upload and not on download, so a file cannot be fetched under the name
  it was sent with (`Handlers.SamePathIff`).
* `is_valid_filename` accepts "." and "..", and its first test is redundant
  (`Paths.ValidNameAddsOneComponent`, `Paths.ValidFilenameIff`).
* A zero-size header at the front of a buffer is never removed, nothing is framed on that connection any
  more, and the buffer fills up (`Framing.ZeroHeaderStays`, `Framing.RoomAfterDrain`).
* A task is stranded exactly when it is dispatched after every worker has left (`ThreadPools.StopDrains`,
  `ThreadPools.LateTaskIsStranded`).
* In the read-write lock readers exclude one another as well (`RwLocks.MutualExclusion`).

## Model

| member | source | states |
|---|---|---|
| Uploaders.ConcurrentUploads | src/client/main.cpp:59-72 | every run of uploading clients with distinct paths, at most one of them an administrator, is bounded, and when no step is left all are finished, each openable file sent before a rejected name holds its client's bytes over the old content, and every other file is untouched |
| Uploaders.UploadsAtHome | src/server/client_controller.cpp:282-284 | uploads of different users in any interleaving: nothing is assumed of where they go; each file sent before a rejected name ends as ./tmp/id/name of its own user with its bytes over the old content, and every other file is untouched |
| Uploaders.HomesAreApart | src/server/client_controller.cpp:350 | different users with different names to upload meet the premise that no two uploads share a path |
| Uploaders.OtherUsersFile | src/server/client_controller.cpp:283 | files ./tmp/id/name of two users are the same file only if user and name are the same |
| Uploaders.FileIsAtHome | src/server/io.hpp:9-21 | such a path with an accepted name has the four components ., tmp, the id and the name |
| Uploaders.UploaderAlone | src/client/menu.hpp:334-358 | login followed by upload, alone, runs to its end and leaves what the upload promise says |
| Uploaders.StartIsInitial | src/server/main.cpp:173-185 | just-connected uploaders with distinct paths meet the premises of the general theorems |
| Pipelines.AtMostOneRequest | src/server/main.cpp:141-154 | in every interleaving of lockstep clients with requests in range a connection's request is in at most one place on the server, and then none of it is in the channel or under the cursor and no reply is under way |
| Pipelines.BytesAreTheRequest | src/server/main.cpp:93-123 | in every interleaving the bytes in the channel and under the cursor are none or exactly the outstanding request, which is then nowhere on the server |
| Pipelines.HandlerReadsOwnPacket | src/server/connection.cpp:55-62 | in every interleaving the command read from the live buffer is that of the packet's own snapshot, which still stands whole at the front of the buffer, also for the handler that reads its fields there again |
| Pipelines.StepExtends | src/server/main.cpp:187-197 | every step keeps the lockstep invariant for an oracle that knows the answers given so far |
| Pipelines.ModelledAnswers | src/server/client_controller.cpp:477-490 | whatever a modelled handler finds in the files, its one packet of reply leaves its client fit to go on |
| Pipelines.OtherAnswers | src/server/client_controller.cpp:309-340 | so does the reply of any other handler, whatever it does to the files |
| Pipelines.SettleExtends | src/server/client_controller.cpp:477-490 | a handler that answers keeps the lockstep invariant for the oracle told of its outcome |
| Pipelines.Progress | src/server/thread_pool.hpp:43-64 | no deadlock: a state the invariant allows, with requests that have handlers, is finished or has an enabled step |
| Pipelines.StuckIffFinished | src/client/main.cpp:59-72 | after any run of clients whose requests have handlers that answer no step is left if and only if every client is done and nothing is left anywhere |
| Pipelines.OnlyAdministrators | src/server/client_controller.cpp:452-459 | in every interleaving a client that never logs in as an administrator is never one, and each of its five kinds of administrators' requests is refused and leaves files, flag and sessions alone |
| Pipelines.AdminOnlyRefused | src/server/client_controller.cpp:28-36 | such a request of any session that is no administrator's is answered with the refusal alone and changes nothing |
| Pipelines.OrdinaryStays | src/server/client_controller.cpp:353-367 | no step of any thread makes an administrator of a client that does not log in as one |
| Histories.HandledInOrder | src/server/client_controller.cpp:477-490 | in every interleaving of clients with modelled requests the sessions and the shared state are what the requests handled so far make of them one at a time, in the order they were handled, so every theorem about runs of sessions holds of the concurrent server |
| Histories.LoggedInConcurrently | src/server/client_controller.cpp:342-377 | in every interleaving of just-connected clients a session is user x's if and only if its own client was let in as x and has not been out or in since, and it is in that user's tree |
| Interleavings.AsIfAlone | src/server/main.cpp:25-38 | in every interleaving of clients none of which writes what another touches, at most one of them an administrator's, each client, its session and the files it touches are as in its run alone after the same number of requests |
| Interleavings.MaximalRunsComplete | src/client/main.cpp:59-72 | a run that cannot be extended leaves each such client, its session and its files as its run alone ends |
| Interleavings.FileAsAlone | src/server/client_controller.cpp:271-307 | at the end a file that only one client may have written is what that client's run alone makes of it |
| Interleavings.OtherFileStays | src/server/client_controller.cpp:282-294 | a file no client's run alone writes keeps its content in every interleaving |
| Interleavings.StepKeeps | src/server/main.cpp:187-197 | every step keeps the agreement of clients, sessions and files with the runs alone |
| Interleavings.HandlersAgree | src/server/client_controller.cpp:477-490 | a handler run among others gives its session, its reply and its files what the client's run alone gives |
| Interleavings.FilesAfter | src/server/client_controller.cpp:289-307 | one handler's writes keep every client's files in agreement with its run alone |
| Interleavings.ExecuteFlag | src/server/client_controller.cpp:353-367 | the global flag goes on agreeing with the run alone of the one client that may set or clear it |
| PooledSystems.Refines | src/server/thread_pool.hpp:28-66 | every run with sleeping workers, late notifications and spurious wakeups is, underneath, a run of the step system |
| PooledSystems.GuardNeverBlocks | src/server/thread_pool.hpp:48-60 | whenever the pool lets a worker test its predicate the system underneath lets it too, so the product blocks no run of the real pool |
| PooledSystems.PacketsAreTasks | src/server/main.cpp:31-34 | in every run the queue holds the packets of the pool's tasks in dispatch order, and a worker running a task has that task's packet |
| PooledSystems.IdleMeetsTask | src/server/thread_pool.hpp:49-60 | with a packet queued and a worker idle, some worker can pick it up or a notification is still to come |
| PooledSystems.PooledProgress | src/server/thread_pool.hpp:28-66 | with a real pool too, until every client is done a step other than a spurious wakeup can be taken |
| PooledSystems.PooledRunsEnd | src/server/thread_pool.hpp:49-52 | with a real pool a run is no longer than a bound and three steps for each spurious wakeup |
| Lockstep.PollKeeps | src/server/main.cpp:93-163 | a poll of any number of bytes keeps the invariant: it completes exactly the outstanding request or nothing |
| Lockstep.DispatchKeeps | src/server/main.cpp:27-37 | moving the last completed packet to the queue keeps the invariant |
| Lockstep.TakeKeeps | src/server/thread_pool.hpp:59-60 | any idle worker may take the first task without breaking the invariant |
| Lockstep.ReadTypeKeeps | src/server/client_controller.cpp:479 | reading the type from the live buffer gives the worker its own packet's command |
| Lockstep.SettleKeeps | src/server/client_controller.cpp:477-490 | any handler's outcome, its effect on the files aside, keeps the invariant when it agrees with the oracle |
| Lockstep.IgnoreKeeps | src/server/client_controller.cpp:58-60 | a request that is never answered stays with its client and disturbs nothing |
| Lockstep.TransmitKeeps | src/server/connection.cpp:34-52 | a partial send of any length keeps sent, unread and unsent bytes together equal to the reply |
| Lockstep.RecvKeeps | src/common/utils.hpp:31-43 | a partial read keeps the client within its own reply |
| Lockstep.ReplyIsWhole | src/common/utils.hpp:13-46 | when the client has a complete packet it is the whole reply, the channel is empty and no worker has more to send |
| Lockstep.DoneKeeps | src/client/main.cpp:66-71 | acting on the reply brings the client to where its run alone is, ready for the next request |
| Lockstep.LiveBufferIsSnapshot | src/server/main.cpp:141-151 | while a worker holds a packet the connection's buffer begins with that packet's bytes |
| Lockstep.OneRequest | src/server/main.cpp:141-154 | the invariant allows a connection only one place with a request |
| Termination.StepDecreases | src/client/main.cpp:59-72 | every step of every thread lowers one natural-number measure, whatever the clients share |
| Termination.RunsAreBounded | src/client/main.cpp:59-72 | the measure of the start bounds the length of every run of any lockstep clients |
| Termination.RunsCanFinish | src/server/main.cpp:187-197 | from every reachable state of clients whose requests have handlers that answer some continuation finishes all of them |
| SoloRuns.SoloOkStep | src/client/main.cpp:59-72 | each modelled request a client makes is answered by exactly one packet, and the premises for the next one hold again |
| SoloRuns.SoloFinishes | src/client/main.cpp:59-72 | a client's commands come to an end whatever it is answered |
| Framing.ParseConserves | src/server/main.cpp:134-163 | packets and residue together are the stream, and the residue frames nothing more |
| Framing.ParseAppend | src/server/main.cpp:123-163 | parsing may stop anywhere and resume from what was left |
| Framing.ParseOfPackets | src/common/protocol.hpp:61-72 | parsing undoes concatenation of packets whose size field is their length |
| Framing.DrainRefinesParse | src/server/main.cpp:134-163 | the in-place loop with memmove emits and keeps what the parse of the buffered bytes says |
| Framing.ReceiveRefinesParse | src/server/main.cpp:93-163 | one recv and the loop after it refine the parse of old residue and new bytes |
| Framing.ReceiveExact | src/server/main.cpp:145-151 | completing one packet exactly resets the cursor and leaves the packet's bytes in the buffer |
| Framing.ReceivePartial | src/server/main.cpp:123-134 | an incomplete packet stays whole at the front of the buffer and nothing is emitted |
| Framing.RoomAfterDrain | src/server/main.cpp:134-163 | after the loop the buffer is full if and only if it was full with a zero-size header in front |
| Framing.ZeroHeaderStays | src/server/main.cpp:136-140 | behind a zero-size header every byte that arrives is kept, nothing is ever framed, and the header stays |
| Framing.AnySegmentation | src/server/main.cpp:93-163 | any accepted sequence of recv results emits and keeps what the parse of their concatenation says |
| Framing.SegmentationIndependence | src/server/main.cpp:93-163 | two ways of cutting one stream give the same packets and the same residue |
| Framing.FramingInvertsSerialisation | src/server/main.cpp:123-163 | packets delivered in arbitrary pieces come out as they were sent, with the cursor at 0 |
| Clients.AdvanceSpends | src/client/main.cpp:59-72 | every reply, even one that opens a download, leaves fewer requests the client can still make |
| Clients.DropsIff | src/client/menu.hpp:563-585 | a reply drops the rest of the command if it is one of the four refusals, and otherwise takes off just the packet it answers |
| Connection.ConnectionWrapper.constructor | src/server/connection.hpp:8-18 | a new connection has an empty buffer and an unauthenticated session |
| Connection.ConnectionWrapper.Receive | src/server/main.cpp:93-163 | the class's buffer, cursor and emitted packets stay equal to the parse of every byte ever received, the cursor never passes 65535, and the buffer is full only behind a zero-size header |
| Connection.ConnectionWrapper.CutPackets | src/server/main.cpp:125-163 | the loop with early exits, in-place shift and 16-bit cursor computes the specified drain, and ends |
| Connection.ConnectionWrapper.ShiftDown | src/server/main.cpp:153 | the overlapping move brings the remaining bytes to the front and leaves the rest of the buffer as it was |
| Connection.ConnectionWrapper.GetPacketType | src/server/connection.cpp:55-62 | the command comes from the live buffer, out-of-range values read as REQ_SET_SETTING |
| Connection.SendResponseSync | src/server/connection.cpp:30-53 | under any schedule of partial sends, retries and errors the bytes delivered are a prefix of the reply, each once and in order, and all of it when and only when it reports so |
| Server.PollConservesBytes | src/server/main.cpp:123-163 | each byte received is in the buffer or in exactly one completed packet, in order |
| Server.FromEmitted | src/server/main.cpp:134-163 | a poll hands over for each connection exactly the packets its own stream completed |
| Server.SurvivorsIff | src/server/main.cpp:96-121 | a poll keeps exactly the connections that recv finds neither closed nor lost, none twice, in the order they had |
| Server.EmittedInOrder | src/server/main.cpp:85-91 | packets of a connection earlier in the list are stacked before those of a later one |
| Server.PollKeepsAll | src/server/main.cpp:96-121 | after a poll the connections listed or pending are again exactly those accepted that no recv has found closed or lost |
| Server.OncePerPoll | src/server/main.cpp:93-94 | a poll calls recv once on each listed connection and on no other |
| Server.ServerState.ReceiveAllConnections | src/server/main.cpp:85-171 | one poll visits each connection once, keeps exactly those whose recv was neither closed nor lost, in order despite erasure, and stacks exactly the packets completed, in visiting order, whatever the network offers |
| Server.ServerState.Visit | src/server/main.cpp:89-169 | one turn of the loop handles data, try-again and closing, a full buffer among them, and puts the iterator behind the survivors so far |
| Server.ServerState.HandlePackets | src/server/main.cpp:25-38 | the stack is emptied into the queue in reverse order, no packet lost or doubled |
| Server.ServerState.HandlePendingConnections | src/server/main.cpp:173-185 | accepted connections join the active list in reverse order, none twice |
| Server.ServerState.ServerTurn | src/server/main.cpp:187-197 | one turn moves every packet completed to the queue and every accepted connection to the list, calls recv once for each listed one, and keeps the server's invariant |
| Server.ServerState.Accept | src/server/main.cpp:76-81 | a new connection is known, pending, and has handed nothing over |
| Server.ServerState.Take | src/server/thread_pool.hpp:59-60 | a taken task leaves the front of the queue and is accounted for |
| Server.ServerState.ValidConserves | src/server/main.cpp:123-163 | under the invariant each byte a connection ever received is in its buffer or in exactly one packet handed over, in order |
| Server.ServerState.ServerThread | src/server/main.cpp:187-197 | turn after turn, each stream's bytes and packets are conserved, nothing stays pending or stacked, a connection is listed at the end if and only if every recv on it has brought data or said to try again, and one that stays has had one recv in each turn |
| Server.ServerState.AnyOrder | src/server/main.cpp:25-38 | whatever order the actions of server thread, accept thread and workers come in, bytes and packets are conserved connection by connection, tasks are taken in queue order, and the connections listed or pending are those still alive |
| Server.ServerState.DispatchOne | src/server/main.cpp:27-37 | the last packet completed goes to the end of the queue |
| Server.ServerState.AdmitOne | src/server/main.cpp:177-184 | the last connection pending goes to the end of the active list, and stays listed once |
| Turns.Turn | src/server/main.cpp:187-197 | a turn of the server's object is a run of the step system, whatever the network does: buffers, stack and queue correspond afterwards |
| Turns.TurnIsRun | src/server/main.cpp:85-171 | polls in list order and then dispatches until the stack is empty make the step system's stack, queue and buffers what the object's turn makes of its own |
| Turns.DispatchPhase | src/server/main.cpp:25-38 | dispatching until the stack is empty puts it into the queue in reverse and touches no buffer |
| Controller.Login | src/server/client_controller.cpp:342-377 | login changes session, home directory and administrator flags as specified, on success, rejection and with an administrator already there |
| Controller.Logout | src/server/client_controller.cpp:62-72 | logout clears the id and the global flag only; what follows for the session is Sessions.LogoutEndsSession |
| Controller.ChangeDirectory | src/server/client_controller.cpp:120-133 | a successful cd replaces the directory, a failed one changes nothing; when it fails is Handlers.CdOutcome |
| Controller.TransferStart | src/server/client_controller.cpp:271-287 | a rejected name changes nothing, an accepted one opens or creates the file without truncating it, where Handlers.UploadLands says |
| Controller.TransferData | src/server/client_controller.cpp:289-307 | a data packet is written at the descriptor's offset, which moves on |
| Controller.FileOpen | src/server/client_controller.cpp:135-170 | opening for download answers with the chunk count or an I/O error and touches no file |
| Controller.DownloadChunk | src/server/client_controller.cpp:172-186 | a chunk request reads the indexed chunk, or is answered twice when there is no file |
| Controller.ProcessPacket | src/server/client_controller.cpp:477-490 | the login gate and the dispatch, with the command from the live buffer and the fields from the snapshot |
| Handlers.ReplyIsOnePacket | src/server/client_controller.cpp:172-186 | a modelled request is answered by exactly one packet if and only if it is not a logged-in chunk request with no file open |
| Handlers.HandleFrame | src/server/client_controller.cpp:271-307 | a request leaves every file but the one it writes alone |
| Handlers.HandleLocal | src/server/client_controller.cpp:135-186 | a request cannot tell apart two disks that agree on its footprint, nor two flags unless it is an administrator's |
| Handlers.HandleKeepsRoot | src/server/client_controller.cpp:120-133 | every handler keeps a logged-in session inside its user's tree |
| Handlers.CdOutcome | src/server/client_controller.cpp:120-133 | a cd past the gate moves the session and is answered OK if every directory entered on the way is there, and otherwise leaves the session as it was and is answered with an I/O error |
| Handlers.UploadLands | src/server/client_controller.cpp:282-284 | an upload under an accepted name goes to the session's directory plus that one component, inside the user's tree if and only if it is no dot name |
| Handlers.SamePathIff | src/server/client_controller.cpp:282-283 | upload and download of one name use the same path if and only if it fits the 512-byte buffer |
| Sessions.RunKeepsRoot | src/server/client_controller.cpp:342-377 | every run of login, logout, cd and the rest keeps all sessions in their own trees |
| Sessions.HandlersStayHome | src/server/client_controller.cpp:480-489 | any handler past the login gate runs in its user's tree, and a non-empty accepted file name stays there, for download and for upload, exactly when it is not a dot name |
| Sessions.RunKeepsHouse | src/server/io.hpp:64-68 | in every run each logged-in session is in a directory that exists, if the users' own do |
| Sessions.LoggedInIff | src/server/client_controller.cpp:342-377 | in every run a session is user x's if and only if some login of its own let it in as x and no logout, known login or turning away of its own came after, whatever other connections do |
| Sessions.WhoAfter | src/server/client_controller.cpp:353-367 | whose a session is after one event: a second administrator is logged out and told so, a login with unknown credentials changes nothing |
| Sessions.LogoutEndsSession | src/server/client_controller.cpp:480-485 | in every run, from a logout or a turning away to the connection's next login with known credentials, no request of it changes a file or its session, and all but login, ping and logout are answered NOT_LOGGED_IN |
| Sessions.UserIsWhoGotIn | src/server/packets_utils.hpp:9-15 | the client asking who it is is told the user it was let in as, or that it is not logged in exactly when it was let in as nobody |
| Sessions.AdminIff | src/server/client_controller.cpp:62-72 | in every run a connection counts as an administrator's if and only if it has at some time been let in as one; no logout takes that back |
| Sessions.OneAdminStepIff | src/server/client_controller.cpp:62-72 | a request keeps the administrator unique and flagged if and only if it is not an administrator's logout |
| Sessions.TwoAdmins | src/server/client_controller.cpp:353-367 | login, logout, login leaves two sessions with administrator rights |
| Responses.OnePacketIff | src/server/client_controller.cpp:25-475 | over all request types and call results, what is sent is one packet of its declared size if and only if the request is not one of three misanswered kinds |
| Responses.RefusedIff | src/server/client_controller.cpp:25-60 | NOT_LOGGED_IN is answered exactly to sessions not logged in, login, ping and logout aside, and REQUIRES_ADMIN exactly to logged-in sessions that are no administrator's and make one of the five administrators' requests |
| Responses.DropsOnFailure | src/client/menu.hpp:563-585 | of all replies the client drops a command on exactly those that refuse it or report a failed call; a second administrator turned away is not among them |
| Responses.HandlersReplySo | src/server/packets_utils.hpp:9-142 | the fully modelled handlers' replies are instances of the reply table |
| Responses.ConversationStaysInStep | src/common/utils.hpp:13-46 | over any conversation the client's reads are the server's replies with nothing left over if and only if no request in it is misanswered |
| Transport.RecvFromServer | src/common/utils.hpp:13-46 | with any split of the body the packet comes out whole and nothing after it is consumed, exactly when the first recv brings all four header bytes |
| Clients.UploadShape | src/common/utils.hpp:90-118 | one START, then ceil(n / 65531) data packets carrying the file's chunks in order, only the last END, all sizes within 16 bits; the START keeps its label if and only if there is data |
| Clients.BreakVectorInto | src/common/utils.hpp:67-86 | the two-part loop with division and remainder yields the recursive chunking |
| Clients.CreateFileTransferPackets | src/common/utils.hpp:90-118 | labelling every packet CHUNK and overwriting the last label yields the upload's packets |
| Files.ChunksCover | src/common/utils.hpp:67-86 | the chunks concatenate to the data |
| Files.ChunkShape | src/common/utils.hpp:67-86 | all chunks but the last are full, none is empty, and their number is the ceiling |
| Files.ChunksAreSlices | src/server/packets_utils.hpp:101-110 | the k-th chunk the client cuts is the k-th chunk the server reads |
| Files.ChunksReadBack | src/server/client_controller.cpp:160-162 | indices 0 to count - 1 read back the whole file, for every length |
| Files.OverlayExtends | src/server/client_controller.cpp:294 | writing on from the last offset extends the new bytes over the old content |
| Files.OverlayIsData | src/server/client_controller.cpp:284 | new bytes over an old file are the new bytes alone if and only if the old file was no longer |
| Files.WriteAtIs | src/server/client_controller.cpp:294 | byte by byte a positioned write is the data, elsewhere what was there, and zeros in a gap |
| Transfers.UploadOne | src/server/client_controller.cpp:271-307 | the packets of one accepted file make it the data over the old content, or change nothing if it cannot be opened |
| Transfers.UploadExact | src/server/client_controller.cpp:284 | the uploaded file is exactly the data if and only if the old one was no longer |
| Transfers.DownloadExact | src/client/menu.hpp:142 | the downloaded copy is exactly the server's file if and only if the old copy was no longer |
| Transfers.UploadCommand | src/client/main.cpp:59-72 | an upload of several files does exactly what it promises up to the first rejected name and then sends nothing further |
| Transfers.UploadedFiles | src/server/client_controller.cpp:271-307 | with distinct paths each openable file before the first rejected name has its own bytes, and all others are unchanged |
| Transfers.UploadPromiseIff | src/common/utils.hpp:115 | for any session the upload promise, the data over the file and nothing else changed, holds if and only if there is data, or the file is there and no descriptor is open or its file happens to stay as it was |
| Transfers.EmptyUploadHitsOpenFile | src/common/utils.hpp:115 | an empty upload writes the mislabelled packet's body into the open file at its offset and touches no other; the file grows if and only if fewer than 272 bytes lie behind the offset |
| Transfers.DownloadOpen | src/server/client_controller.cpp:135-170 | the download starts if and only if the name is valid and the file can be opened, else the command is dropped and nothing changes |
| Transfers.FetchRun | src/client/menu.hpp:145-161 | the chunk loop from any index on reaches the end with the whole prefix written |
| Transfers.DownloadCommand | src/client/menu.hpp:139-165 | a download leaves exactly the server's file over the client's old content, for every length including 0 and exact multiples, and changes nothing on the server |
| Transfers.UploadThenDownload | src/server/client_controller.cpp:135-186 | a file uploaded and then downloaded under its name comes back, first the data sent; exactly that data if and only if neither the server's nor the client's old file was longer; and nothing else changes |
| Transfers.UploadBeforeLogin | src/client/main.cpp:68-71 | an upload before login sends one packet, drops the rest and touches no file |
| Transfers.DroppedBeforeLogin | src/server/client_controller.cpp:480-485 | so does every command but login, ping and logout |
| Transfers.CdThenCwd | src/client/packet_controller.hpp:150-165 | cd into a name and cwd after it: the client is told the directory below if it exists, and otherwise an I/O error and the directory it was in |
| Transfers.DirectoryIsTold | src/server/packets_utils.hpp:89-95 | a logged-in client asking for the directory reads the session's own |
| Transfers.UserIsTold | src/server/packets_utils.hpp:9-15 | one asking for the user reads the session's own id |
| Transfers.LoginIsTold | src/server/packets_utils.hpp:80-86 | a login is told to have succeeded exactly when the credentials are known and no second administrator is turned away, and then whether the session is an administrator's |
| ClientLoop.Answer | src/server/main.cpp:123-151 | a whole request sent through an empty receive buffer reaches the handler of its own command |
| ClientLoop.Menu.HandleFileOpened | src/client/menu.hpp:139-165 | the nested download loop follows the client's run alone chunk by chunk |
| ClientLoop.Menu.SendPacket | src/client/main.cpp:61-71 | one packet sent, answered and acted on is one exchange of the run alone, or several when a download follows |
| ClientLoop.Menu.HandleResponse | src/client/menu.hpp:470-601 | a reply drops the rest of the command exactly on the four abort replies, and an opened file is fetched to its end before the next packet |
| ClientLoop.Menu.RunCommand | src/client/main.cpp:59-72 | the packet loop with its break uses up or drops the command |
| ClientLoop.Menu.RunSession | src/client/main.cpp:41-73 | a whole session leaves client files, session and shared state where the client's run alone ends |
| ClientLoop.OverOnce | src/client/main.cpp:41-73 | there is only one such end |
| ClientLoop.UploadBranch | src/client/menu.hpp:345-358 | the upload branch appends the packets of all files in order |
| Paths.JoinOfSplit | src/server/io.hpp:9-38 | joining a split text gives it back less at most one trailing delimiter |
| Paths.SplitOfJoin | src/server/io.hpp:9-38 | splitting joined tokens gives them back if and only if none holds the delimiter and the last is not empty |
| Paths.SplitConcat | src/server/io.hpp:9-21 | how splitting distributes over a joined pair of texts |
| Paths.CdComposes | src/server/io.hpp:41-73 | cd along a/b is cd along a, then b, and fails when the first part does |
| Paths.CdKeepsRoot | src/server/io.hpp:52-56 | no destination leads out of the user's tree |
| Paths.CdSucceedsIff | src/server/io.hpp:47-72 | cd succeeds if and only if every directory entered on the way exists, dots and empty components never making it fail, and then leads where the destination says |
| Paths.CdEnters | src/server/io.hpp:58-68 | cd into a name leads to the directory below if there is one and fails if there is none |
| Paths.CdLeadsToDirectory | src/server/io.hpp:64-68 | from an existing directory cd leads only to existing ones |
| Paths.CdThenUp | src/server/io.hpp:50-62 | going into a directory and up again is no move |
| Paths.ValidNameAddsOneComponent | src/server/io.hpp:116-126 | an accepted non-empty name adds exactly one component, and stays in the tree if and only if it is not a dot name |
| Paths.ValidFilenameIff | src/server/io.hpp:116-126 | only the two delimiters decide |
| Paths.SplitLoop | src/server/io.hpp:9-21 | the getline loop yields the recursive split |
| Paths.JoinLoop | src/server/io.hpp:24-38 | the stream loop yields the recursive join |
| Paths.CdCommand | src/server/io.hpp:41-73 | the component loop yields the walk, with its early return |
| Protocol.TextOfPad | src/common/packets.hpp:46-51 | a name that fits its field survives it |
| Protocol.LittleEndianRoundTrip | src/common/packets.hpp:121-132 | integer fields survive encoding |
| Protocol.LittleEndianDigit | src/common/packets.hpp:121-132 | the least significant byte comes first |
| Protocol.SizeIsLittleEndian | src/common/protocol.hpp:61-66 | total_size is the little-endian integer in the header's last two bytes |
| ThreadPools.StepKeeps | src/server/thread_pool.hpp:28-66 | every critical section, notification and spurious wakeup keeps the pool's invariant |
| ThreadPools.NoLostWakeup | src/server/thread_pool.hpp:28-57 | in every reachable state with a sleeper, queued tasks number at most pending notifications plus woken workers |
| ThreadPools.ExactlyOnce | src/server/thread_pool.hpp:59-63 | tasks leave in dispatch order, each to one worker, and never again |
| ThreadPools.NoSleepAfterNotifyAll | src/server/thread_pool.hpp:49-57 | after the final notification no worker sleeps or can go back to sleep |
| ThreadPools.StopDrains | src/server/thread_pool.hpp:54-81 | once all workers have left, every task has run if and only if none was dispatched when all had already left |
| ThreadPools.NoLateTaskLost | src/server/thread_pool.hpp:69-81 | with nothing dispatched after stop there is no such task |
| ThreadPools.LateTaskIsStranded | src/server/thread_pool.hpp:54-57 | a run in which a late task is never run |
| ThreadPools.ThreadPool.Dispatch | src/server/thread_pool.hpp:28-33 | queueing a task is the model's step |
| ThreadPools.ThreadPool.Recheck | src/server/thread_pool.hpp:48-61 | one test of the wait predicate sleeps, leaves or takes the first task as the model's step does |
| ThreadPools.ThreadPool.NotifyOne | src/server/thread_pool.hpp:34 | a notification wakes a sleeper if there is one |
| RwLocks.MutualExclusion | src/server/rw_lock.hpp:15-49 | in every reachable state at most one thread is inside, of either kind, one flag is up exactly when one is and the other exactly when it is a writer |
| RwLocks.SleeperHasHope | src/server/rw_lock.hpp:25-30 | while a thread sleeps the lock is held or a woken thread can take it at its next step |
| RwLocks.StepKeeps | src/server/rw_lock.hpp:15-49 | every step of guard-style use keeps the lock's invariant |
| RwLocks.ReadWriteLock.TryLock | src/server/rw_lock.hpp:17-22 | one test of the predicate takes the lock or sleeps as the model's step does |
| RwLocks.ReadWriteLock.ReadUnlock | src/server/rw_lock.hpp:25-30 | read_unlock is a release that clears the lock flag and wakes exactly one sleeper if there is any |
| RwLocks.ReadWriteLock.WriteUnlock | src/server/rw_lock.hpp:43-49 | write_unlock is a release that clears both flags and leaves no sleeper |

## Left out

- Sockets, `accept`, signals, `fcntl` and sleeping: channels are byte sequences, `recv` and `send` results are arbitrary.
- SQLite and password hashing: accounts are a map from credentials to an id and an administrator bit.
- Compression: library calls and a table.
- Move, copy, remove, mkdir, clean, file list and close: `Responses` counts their replies, their effect on the disk is not modelled, and they are outside the step system.
- `is_path_within_user_dir`: decided by `weakly_canonical` and symbolic links.
- Server status, connection counts and settings values: only the sizes of their replies.
- The client's text parsing, printing and help.
- Pipelining clients: the code guarantees them neither order nor command.
- Disconnection with a request in flight, and the destructor's administrator flag reset.
- Descriptor numbers: a descriptor is a file with an offset or none; leaks, and what `close(0)` does to later opens, are not modelled.
- Layout beyond declared sizes: `strcpy` past a field, `sprintf` past 512 bytes in REQ_FILE_OPEN, structures read past a short packet's end, and stale bytes of earlier replies.
- `off_t` overflow of a chunk index, and files of 2^64 chunks or more.
- Controller.Login: the `mkdir` of the home directory is not stated, because directories are a fixed set.
- Controller.ProcessPacket: covers the eleven requests whose effect on session and files is modelled, because the other thirteen act on what is left out above; their replies are in `Responses`.
- Controller.TransferData: a packet declaring fewer than four bytes is taken to write nothing, because the C++ length wraps to a `size_t` that `write` refuses.
- Interleavings.AsIfAlone: at most one client has to do with an administrator's account, none writes what another touches, and requests are of the eleven modelled types, because sessions that share state do see one another.
- SoloRuns.SoloFinishes: commands of the eleven modelled types, because a run alone goes on by what handlers do; `Clients.AdvanceSpends` bounds the requests of any client whatever it is answered.
- ClientLoop.Menu.RunSession: commands of the eleven modelled types, because it runs against `Controller.ProcessPacket`.
- Transfers.DownloadCommand: the file does not change while it is read, because the handlers re-read it chunk by chunk.
- Histories.HandledInOrder: clients whose requests are of the eleven modelled types, because what the others do to the files is arbitrary in the step system.
- Transfers.UploadThenDownload: names whose path fits 511 characters, because a longer path is cut on upload only (`Handlers.SamePathIff`).
- Sessions.RunKeepsHouse: the users' own directories are taken to exist, because the `mkdir` at login is not modelled.
