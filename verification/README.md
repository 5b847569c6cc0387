# Verification of the RDMA rendezvous

This project models a pair of programs that meet over RDMA - a client and a server with three
threads each, their network adapters, and the connection manager between them - and proves what
holds in every state of every run, for every interleaving, any sketch size, any memory contents
and any program of client operations. Around that core it proves the class transfer, the stream
pattern check and size formatting of `common.c`, and two bit-level helpers of the verbs header.

## How it is organised

- `Bytes`, `Verbs`: byte orders and words; registered memory, work requests, completions, the queue
  pair, the completion queue with its one-shot event, and the loop of a CQ thread.
- `ClassTransfer`, `ServerBuffers`: the object, its serialised form, the client's reconstruction, and
  the server's two in-place buffer routines on arrays.
- `Rendezvous`: the system as a transition system. Threads are deterministic, so a step is named by
  the agent that takes it (`Agent`), `Next` is partial (an agent that spins, blocks or has nothing to
  do has no step), and a run (`Run`) is any sequence of agents that can each step in turn.
- `Invariants`, `Preservation`: the inductive invariant and the proof that each step keeps it.
- `Termination`: a measure that every step decreases, and that only the final state has no step.
- `Guarantees`: the theorems about every reachable state and every run.
- `Frames`, `ReadCount`: what stays as it is - which bytes of either host a step can change, and how
  long what an operation has read stays in its buffers - and how many reads a program posts.
- `Order`: requests, completions and messages stay in order from post to poll.
- `Witnesses`, `Schedules`, `Elements`, `Blocking`, `EarlySketch`, `Shipped`: runs that show what the
  programs do *not* promise, with the exact condition under which they meet it anyway - when every run
  finishes, when an early `read_class` is right, when an `ow_read` without its address is - and all of
  this for the programs as their `main` functions set them up. `StartBuffer` says what the server's
  start buffer holds before each operation, which an `ow_read` with a stray address may read.
- `Hosts`, `Program`: the two programs as objects with the source's fields. Each thread's code is a
  method proved equal to that thread's step function; `Program.Session` runs the client's main thread
  as sequential code with its own loops against an arbitrary scheduler, and proves that it returns.
- `ErrorPaths`: what the handlers and the calls do where no run of a valid configuration takes them.
- `SketchRead`: the element-by-element loop of `ow_read` against the single read it replaced.
- `StreamPattern`, `SizeFormat`, `VerbsBits`: the helpers.

Where each thread's code is, as a step function of `Rendezvous`: the client's main thread in
`StartStep` (`simplest_client.cpp:68`, `375-480`) and `Call`, `Request`, `OpStep` (`224-288`, `483-605`);
its CM thread in `ClientCmEvent` (`71-110`); its CQ thread in `ClientHandle`, `ClientCqStep`
(`112-220`); the server's main thread in `ServerStep` (`simplest_server.cpp:317`, `320-493`); its CM
thread in `ServerCmEvent` (`237-273`); its CQ thread in `ServerHandle`, `ServerCqStep` (`97-159`,
`218-235`). The loop both CQ threads share is `Verbs.CqLoop`. The adapters are `ClientSendStep`,
`ServerSendStep` and `AckStep`, the connection manager `CmReportStep`.

## What the environment is taken to do

- A reliable queue pair that executes requests in posting order. A send takes a posted receive of the
  peer; without one the sender's adapter retries forever (`rnr_retry_count = 7`,
  `simplest_client.cpp:451`), which here means it has no step. Its completion is generated later, in a
  step of its own. A read or write is executed in one step; outside registered memory it has no step
  (the real adapter reports an error completion, which the programs do not look at).
- A completion queue generates one event per arming, when the next entry is added; entries that were
  already there generate none (`include/verbs.h:2884-2940`).
- The connection manager reports each request it was given, once and successfully.
- Where something is said to return under every schedule, the scheduler chooses freely among the agents
  that can step, but at each turn of a spin loop it does let one of the others step. `Session.Spin` is
  that assumption; `Program.SomebodyElseCanStep` proves that there always is one.
- Flags shared between threads are read and written in one global order. The source uses plain
  `bool` fields for them; only `pendingReads` is atomic.

## Facts of the code that the model keeps

- The class address is posted (`simplest_server.cpp:481`) before the class is copied (`487-488`). The
  copies are one step a word, so `GET_CLASS_ADDR` does not mean the class is there
  (`Witnesses.ClassFlagIsEarly`); what `read_class` then returns is settled by
  `Guarantees.ReadClassWords` and `Schedules.EarlyReadClassIff`, and `Guarantees.ReadClassCorrect`
  covers callers that wait for `GET_SKETCH_ADDR`. The two ways of calling are `ReadClass(false)` and
  `ReadClass(true)`.
- `main` calls `ow_read` without waiting for its address (`simplest_client.cpp:636-638`). That call is
  `OwRead(false)`; `OwRead(true)` is a caller that waits. What the fields hold before the address is
  stored is a parameter (`Config.unset`), since nothing initialises them
  (`include/rdma-utils.h:42-51`). `ow_read` reads the address and the key in two steps
  (`simplest_client.cpp:569-570`) and `recv_handler` stores them in two (`147-149`), so a request may
  combine an old one with a new one. `EarlySketch.EarlyOwReadIff` says exactly when the values returned
  are the server's all the same, `EarlySketch.UnsetIsRightIff` that fields which happened to be right
  are not enough, `Blocking.EarlyRequestsIff` when the requests are the right ones, and
  `Blocking.FinishesIff` when they can be executed at all.
- `rdma_read` and `rdma_write` take their length from the server and their buffer from the client
  (`simplest_client.cpp:238-240`). Nothing compares the two; `Blocking.FinishesIff` says what happens.
- The server waits for its state to equal the *client's* `CONNECTED` (`simplest_server.cpp:405`). The
  model compares the enumerators' numbers, which are both 3.
- The server's CM thread stores `state` before `child_cm_id` (`simplest_server.cpp:254-255`). That arm
  is one step here, so main never sees the first without the second.
- `wr_id` of the first advertisement is never set and is taken to be zero
  (`simplest_server.cpp:131-136`).
- A receive completion stores the address, then the length and key, then sets its flag; a read completion
  sets `RDMA_READ_COMPLETE` in one step and decrements `pendingReads` in another
  (`simplest_client.cpp:203-205`); posting a read and counting it are two steps (`248-253`).
- `sizeof(RdmaTest)` is 32: three words, four bytes of padding, two pointers.
- The length in the third advertisement is the number of elements, not of bytes
  (`simplest_server.cpp:442`); nobody uses it.

## Model

| member | source | states |
|---|---|---|
| Guarantees.EveryRunFinishes | simplest_server.cpp:399-432 | no run is longer than a bound given by the sketch, the class and the operations; and if every operation can be executed, a run that cannot be continued is exactly one whose handshake and operations are all complete |
| Guarantees.CanFinish | simplest_client.cpp:435-477 | if every operation can be executed, every run can be continued to the final state |
| Blocking.FinishesIff | simplest_client.cpp:224-288 | with a request outside registered memory never completing (error completions are not modelled), the system always comes to rest with everything done if and only if every operation can be executed: no rdma_read or rdma_write with a start buffer longer than the client's rdma buffer, and no ow_read that can post, before or while its triple is stored, a mixture of old and new address and key that names memory which is not registered |
| Blocking.BlockedGetsStuck | simplest_client.cpp:248-255 | with error completions not modelled, a state whose first request lies outside registered memory leads to one where nobody can step and not all is done |
| Guarantees.DeadlockFree | simplest_server.cpp:405-432 | if every operation can be executed, in a reachable state no agent can step if and only if all three advertisements are sent, received and acknowledged and every operation has returned |
| Termination.RunsAreShort | simplest_client.cpp:567-591 | length of a run plus the remaining measure never exceeds the bound: each step that is not a spin makes progress |
| Preservation.RunKeeps | simplest_server.cpp:320-434 | the whole inductive invariant holds after every run |
| Preservation.StepKeeps | simplest_client.cpp:71-222 | each step of each of the eleven agents keeps the invariant |
| Preservation.ReadLands | simplest_client.cpp:498-506 | a read request built from advertised addresses lies in registered memory on both hosts - for rdma_read if and only if the start buffer fits - and brings the bytes the operation is for |
| Guarantees.NoLostWakeup | simplest_client.cpp:171-220 | on both hosts a CQ thread that is blocked with completions queued has an event waiting for it; armed, pending event and about-to-arm together are always exactly one |
| Guarantees.Conservation | simplest_client.cpp:202-206 | over every run, reads posted = reads polled + reads in between, and pendingReads = reads counted - completions decremented |
| Guarantees.StepCounts | simplest_client.cpp:248-255 | only posting and polling change the number of reads in between, and only counting and decrementing change pendingReads |
| Order.InOrder | simplest_client.cpp:171-220 | over every run and on both hosts, what has been polled, is queued or is still to come is exactly one answer to each request posted, in the order of posting; and what has been polled, is queued or is not yet sent of the peer's messages is exactly what the peer posted, in that order: nothing lost, doubled or overtaken |
| Order.FinishedInOrder | simplest_server.cpp:97-159 | a finished run has polled exactly one completion for each request, in the order of posting, and received every message in the order of its sending, on both hosts |
| Order.AdvertsArriveInOrder | simplest_server.cpp:413-481 | what the client has polled of the server's messages and what is on its way are the first of 1122, 1123, 1124 as bytes on the wire, in this order, as many as the server has posted |
| Guarantees.PendingReadsRange | simplest_client.cpp:535 | pendingReads stays in -1..2, and between operations is 0 with nothing outstanding, so ow_read's reset changes nothing and no wait ends with a read outstanding |
| Schedules.PendingReadsGoesNegative | simplest_client.cpp:248-255 | in any operation that reads and can be reached, the decrement overtakes the increment in some run: -1 is reached in that operation |
| Schedules.PendingReadsReachesTwo | simplest_client.cpp:581-590 | any ow_read of two elements that can be reached has a run in which pendingReads is 2 while it spins on element 1: the range is exact |
| Guarantees.FlagIsFresh | simplest_client.cpp:248-255 | while an operation that has posted a read is counting it, spinning or waiting, RDMA_READ_COMPLETE is true if and only if every read posted so far has been polled - in iteration i of ow_read, read i included |
| Guarantees.WriteFlagIsFresh | simplest_client.cpp:262-287 | while rdma_write waits, RDMA_WRITE_COMPLETE is true if and only if its write is neither outstanding nor unpolled |
| Guarantees.OwReadCorrect | simplest_client.cpp:567-597 | when an ow_read that waited for its address, or follows an operation that did, returns, every slot of the local sketch equals the server's element, its own index, for any size and interleaving |
| Guarantees.RdmaReadCorrect | simplest_client.cpp:224-258 | when rdma_read returns, the client's buffer starts with the server's start buffer |
| Guarantees.RdmaWriteCorrect | simplest_client.cpp:260-288 | when rdma_write returns, the server's start buffer equals the client's buffer and starts with the message |
| Guarantees.ReadClassCorrect | simplest_client.cpp:483-528 | a read_class that waited for the sketch's address, or follows an operation that did, returns the server's three words and, of its elements, the first 100 at their places in the data buffer, which is unchanged from byte 400 on; and so the whole object if and only if the buffer already had the elements beyond |
| Guarantees.ReadClassWords | simplest_server.cpp:487-488 | each word a read_class called on GET_CLASS_ADDR alone returns is the object's or the stale one, never a mixture; and, the adapter taking its 432 bytes in one step, the new ones come first |
| Guarantees.Causality | simplest_server.cpp:428-432 | GET_SKETCH_ADDR implies GET_CLASS_ADDR implies GET_RDMA_ADDR; the first implies that sketch and serialised class are complete in server memory; the last that the server holds the client's triple |
| Guarantees.TriplesAreExact | simplest_client.cpp:122-156 | each flag stands for exactly the address, length and key the server registered, through both byte-order conversions, and so does the server's flag for the client's triple |
| Guarantees.MessagesAreExact | simplest_server.cpp:413-481 | every message in the server's send queue is one of three: wr_id 0 and immediate bytes 0, 0, 4, 98; 1123 and 0, 0, 4, 99; 1124 and 0, 0, 4, 100 - each with the triple of its own buffer in send_buf; the client's one has no immediate and its own triple |
| Guarantees.SentMeansDelivered | simplest_server.cpp:130-144 | the server's k-th send flag is only ever set with k messages delivered to the client |
| Guarantees.BuffersAreSafe | simplest_server.cpp:413-481 | no step rewrites a send buffer with a send from it in flight, nor a receive buffer holding an undecoded message |
| Frames.StepFrame | simplest_client.cpp:224-288 | in any state whatever, a step changes no byte of a client buffer but one that the executed read's scatter list names, or one of the message's bytes when rdma_write is called |
| Frames.ServerFrame | simplest_server.cpp:452-488 | in any state whatever, a step changes no byte of the server's memory but those an executed write targets, the word the class copy is at, or the element the fill loop is at |
| Frames.ChangeIsTouch | simplest_client.cpp:498-506 | in reachable states each change of a client byte belongs to the operation being called or executed: rdma_read's and rdma_write's to rdma_buf, read_class's to 32 and 400 bytes of its two buffers, ow_read's to the sketch |
| Frames.RunFrame | simplest_client.cpp:620-638 | through any part of any run a client byte keeps its value unless an operation that touches it is called or still under way in it |
| Frames.BufferStays | simplest_client.cpp:608-644 | what an operation has read stays in its buffer, from its return on, until an operation that writes into that buffer is called |
| Frames.ObjectStays | simplest_client.cpp:624-631 | the object a read_class built is the same until the next read_class, whatever other operations follow |
| Frames.OwnFields | simplest_client.cpp:112-222 | in any state whatever, each field of the two hosts is changed by one thread or adapter and at its own statements: RDMA_READ_COMPLETE set only by a polled read and cleared only for a read, RDMA_WRITE_COMPLETE likewise for writes, pendingReads moved by one, the triples and flags only by the receive handler, the work request only by ow_read, the server's send flags only by a polled send |
| Guarantees.Credits | simplest_client.cpp:161-161 | one receive credit per host in every state: posted, delivered, being handled or (on the client) about to be reposted; the server's is spent on exactly one message |
| Guarantees.NoErrors | simplest_client.cpp:403-416 | at most 2 and 1 requests outstanding and 3 and 2 completions unpolled, no exit path is taken, and no request of an executable operation waits outside registered memory |
| ErrorPaths.WrongLengthEnds | simplest_client.cpp:112-120 | a message of any length but 16 bytes ends the process that polls it, with nothing stored |
| ErrorPaths.NoImmediateIsIgnored | simplest_client.cpp:122-161 | on the client a message without an immediate is ignored and its receive not posted again |
| ErrorPaths.UnknownImmediateIsDropped | simplest_client.cpp:122-161 | an unknown immediate stores nothing and sets no flag, but its receive is posted again |
| ErrorPaths.KnownImmediateIsStored | simplest_client.cpp:122-161 | 1122, 1123 and 1124 each store the decoded triple in their own field, set their own flag, repost, and change nothing else |
| ErrorPaths.FailingCallsEnd | simplest_client.cpp:224-251 | rdma_read without an address, an rdma_write whose message does not fit, and a post on a full queue of 16 end the process for good |
| ErrorPaths.FullQueueWaits | simplest_client.cpp:403-403 | a host gets messages and completions exactly while fewer than 32 are unpolled |
| Guarantees.RdmaReadFitsIff | simplest_client.cpp:238-240 | rdma_read's local range fits if and only if the server's start buffer is no longer than the client's rdma buffer |
| Guarantees.StatesAdvance | simplest_client.cpp:80-102 | each step leaves a connection state alone or moves it to the next one, without skipping |
| Guarantees.StatesOnlyAdvance | simplest_server.cpp:247-266 | along any run both connection states only move forward |
| Guarantees.OrderOfActions | simplest_client.cpp:453-470 | the client connects only with its route resolved and sends only when connected; the server accepts only after a request and sends only when connected and holding the client's triple |
| Witnesses.ClassFlagIsEarly | simplest_server.cpp:481-488 | in every configuration some run shows GET_CLASS_ADDR set with nothing copied |
| Schedules.RunTo | simplest_client.cpp:620-638 | the client gets to an operation if those before it can be executed - even with the server's main thread never scheduled again, if none of them waits for the sketch's address |
| Schedules.CallIsEarlyIff | simplest_client.cpp:636-638 | some run reaches the call of an operation with GET_SKETCH_ADDR false if and only if no earlier operation of the program waits for that flag; the shipped main's never do |
| EarlySketch.EarlyOwReadIff | simplest_client.cpp:567-605 | an ow_read called without waiting returns the server's element in every slot, in every run, if and only if an earlier operation waited for the address, or each element that can be requested before the triple is stored has its value at every mixture of old and new address and key - wherever that lies, in the server's memory before it is filled and after |
| EarlySketch.UnsetIsRightIff | simplest_server.cpp:452-458 | with the sketch's own address and key in the fields all along, that holds if and only if the sketch already had its values before the fill loop |
| EarlySketch.ValueIsRight | simplest_client.cpp:569-581 | under the condition, whatever an early ow_read has requested brings the element's value from whatever state the server's memory is in |
| EarlySketch.MemoryIsMixed | simplest_server.cpp:452-488 | every byte of class and sketch memory is the one from before the copies and fills or the one from after; once the third advertisement is posted it is the latter |
| Elements.RevealTo | simplest_client.cpp:146-155 | with the client's main thread held in an operation, the others can be scheduled to where nothing, the address alone, or all of the sketch's triple is stored |
| StartBuffer.BuffersAreAsExpected | simplest_client.cpp:224-288 | in every reachable state the client's rdma buffer and the server's start buffer hold what the operations so far have put there: the program decides, not the schedule |
| StartBuffer.WithoutWrites | simplest_client.cpp:620-638 | a program without rdma_write never changes the server's start buffer, and after its first rdma_read the client's buffer holds it, the rest as it was |
| ReadCount.ReadsAreTheProgram | simplest_client.cpp:248-255 | over every run the reads posted are those of the operations that have returned and of the current one so far: one a call of rdma_read and read_class, none of rdma_write, one an element of ow_read |
| ReadCount.FinishedReads | simplest_client.cpp:202-206 | a finished run has posted and polled exactly the reads of its program, and decremented as often as it counted |
| Blocking.EarlyRequestsIff | simplest_client.cpp:567-581 | every request of an ow_read called without waiting names its element of the server's sketch, in every run, if and only if an earlier operation waited for the address or the client's uninitialised fields happened to hold it; the values are EarlyOwReadIff's |
| Schedules.EarlyReadClassIff | simplest_client.cpp:622-624 | read_class called on GET_CLASS_ADDR alone is right in every run, for objects of any size the server can serialise, if and only if an earlier operation waited for GET_SKETCH_ADDR or class_send_buf already held the object before the copies, and the client's data buffer already held the elements beyond the first 100 |
| Shipped.ShippedPrograms | simplest_client.cpp:608-644 | for the programs as shipped (Shipped.MainIs names the thirteen calls): every run ends within 301263 steps; with error completions not modelled, the system always finishes if and only if ow_read's uninitialised address and key and their mixtures with the sketch's name registered memory for all 1000 elements; its first ow_read returns the sketch in every run if and only if those places happen to hold its elements, before and after the server fills its memory; read_class is right in every run if and only if the fresh buffer happened to hold the object |
| Shipped.MainIs | simplest_client.cpp:616-638 | the calls one by one: rdma_read, read_class on GET_CLASS_ADDR, rdma_read, and ten times ow_read |
| Shipped.ShippedReads | simplest_client.cpp:631-638 | the shipped main never changes the server's start buffer, has it in rdma_buf from the first rdma_read's return on, and in a finished run has posted 10003 reads |
| Shipped.ShippedMemory | simplest_server.cpp:452-488 | with the third advertisement posted the class region holds 10, 1, 1 and the words 0 to 9 from byte 32 on, and the sketch the words 0 to 999 |
| Shipped.WithTheWait | simplest_client.cpp:636-638 | with a wait for GET_SKETCH_ADDR in front of ow_read the shipped programs always finish and every ow_read returns the server's sketch |
| Rendezvous.WireRoundTrip | include/rdma-utils.h:19-23 | encoding and decoding a rdma_info undo each other, on every triple and on every 16 bytes |
| Rendezvous.WireLayout | include/rdma-utils.h:19-23 | byte by byte: the address in bytes 0..8, the key in 8..12, the size in 12..16, each most significant byte first |
| Bytes.BeRoundTrip | simplest_client.cpp:464-466 | a number that fits survives the host-to-network conversion |
| Bytes.BeInverse | simplest_client.cpp:125-127 | every byte string survives the network-to-host conversion |
| Bytes.LeRoundTrip | simplest_server.cpp:454-454 | a word stored in memory reads back |
| Bytes.BeByte | simplest_client.cpp:464-466 | byte i of a number in network order is its digit of weight 256 to the width - 1 - i |
| Bytes.LeByte | simplest_server.cpp:454-454 | byte i of a number as the hosts store it is its digit of weight 256 to the i |
| Bytes.WordBytes | simplest_server.cpp:488-488 | element k of an array of words is the four bytes at 4k |
| ClassTransfer.RoundTripIff | simplest_client.cpp:498-526 | the scatter read of the serialised object gives it back into any receive buffers if and only if it has at most 100 elements |
| ClassTransfer.RoundTrip | simplest_client.cpp:498-526 | for every object the server can serialise the three words come back, and the whole object does if and only if the data buffer had the elements beyond the first 100 |
| ClassTransfer.SerializedWords | simplest_server.cpp:487-488 | the serialised object holds size, a, b, in bytes 12..32 the rest of the object, and every element at its place; what lies behind is unchanged |
| ClassTransfer.CopyAdvances | simplest_server.cpp:487-488 | copied a word at a time, the buffer goes from what it held to the serialised object |
| ClassTransfer.PartlyWord | simplest_server.cpp:487-488 | at any point of the copies each word is the new one or the old one |
| ClassTransfer.AgreesIffHolds | simplest_client.cpp:518-519 | a client that has read the start of a buffer sees the object exactly when the buffer holds its words and the data buffer what no read brings |
| ClassTransfer.CopiesHold | simplest_server.cpp:487-488 | the copies end with the object held, and no word of them damages one already there |
| ClassTransfer.RdmaTest.constructor | DataStruct.cpp:12-22 | the fields are the arguments and a fresh array holds 0, 1, 2, ... |
| ServerBuffers.FillSketch | simplest_server.cpp:452-455 | the fill loop leaves the complete sketch, the words 0, 1, 2, ..., in the array |
| ServerBuffers.SketchIsIota | simplest_server.cpp:453-455 | the filled sketch is the array 0, 1, 2, ... of words |
| ServerBuffers.CopyClass | simplest_server.cpp:487-488 | both copies in place leave the serialised object and do not touch the object |
| ServerBuffers.Transfer | DataStruct.cpp:12-22 | constructed, copied, scattered and reconstructed, an object arrives with its three words, and as a whole if and only if the data buffer had the elements beyond the first 100 |
| SketchRead.LoopRefinesBulk | simplest_client.cpp:543-591 | on stable server memory the loop of four-byte reads and the single read leave the same buffer, and both are refused when and only when a range is not registered |
| SketchRead.LoopOutcome | simplest_client.cpp:567-591 | after n iterations exactly the first 4n bytes have been replaced by the server's |
| Program.Session.RunProgram | simplest_client.cpp:608-644 | under every schedule the client's main returns from start() and from every operation, and the system comes to its final state, if every operation can be executed |
| Program.Session.Start | simplest_client.cpp:375-480 | start() returns under every schedule, connected and with the first triple known, the receive buffers untouched |
| Program.Session.RdmaRead | simplest_client.cpp:224-258 | rdma_read as sequential code returns, with the server's start buffer in place and no buffer but rdma_buf changed |
| Program.Session.RdmaWrite | simplest_client.cpp:260-288 | rdma_write returns, with the message in the server's start buffer and no client buffer but rdma_buf changed |
| Program.Session.ReadClass | simplest_client.cpp:483-528 | read_class returns, with the server's words if the sketch's address had been waited for, and otherwise with new words up to some word and stale ones from there, the remote read being one step; no buffer but its two has changed |
| Program.Session.OwRead | simplest_client.cpp:530-605 | ow_read returns under every schedule, with every slot right if its address had been waited for and no buffer but the sketch changed |
| Program.Session.Step | simplest_server.cpp:336-434 | the code of every other thread, run on the fields, is that agent's step |
| Program.SomebodyElseCanStep | simplest_client.cpp:68-68 | while the client's main thread has no step, some other agent has one |
| Hosts.SimpleClient.CmThread | simplest_client.cpp:71-110 | one event: new state, remaining events, and whether the route is requested |
| Hosts.SimpleClient.CqThread | simplest_client.cpp:167-222 | each statement of the event loop and of the handlers is the thread's step |
| Hosts.SimpleServer.CmThread | simplest_server.cpp:237-273 | one event: new state and remaining events |
| Hosts.SimpleServer.CqThread | simplest_server.cpp:97-159 | each statement of the event loop and of the handlers is the thread's step |
| Hosts.SimpleServer.MainThread | simplest_server.cpp:317-434 | each statement of start(), init_class_recv and init_sketch_rdma is the thread's step, in the code's order |
| StreamPattern.Stream.FormatBuf | common.c:125-132 | byte i becomes the static counter plus i mod 256 for i below size, the rest stays, the counter advances by size mod 256 |
| StreamPattern.Stream.VerifyBuf | common.c:134-147 | 0 if and only if the bytes count up from the counter; otherwise there is a first place j that does not, total_bytes has grown by j, and the counter has gone j + 1 further mod 256 |
| StreamPattern.VerifiedStops | common.c:134-147 | a call that meets the first wrong byte at j leaves both counters as after j right bytes and one uncounted one |
| StreamPattern.FormatCounter | common.c:127-131 | however a stream is cut into format_buf calls, the static counter that one call hands to the next is the length so far mod 256 |
| StreamPattern.FormatIsPattern | common.c:125-132 | however a stream is cut into format_buf calls, each starting where the one before stopped, byte k is k mod 256 |
| StreamPattern.VerifyIffPattern | common.c:134-147 | however a stream is cut into verify_buf calls, all succeed if and only if byte k is k mod 256, and then total_bytes is its length |
| StreamPattern.RoundTrip | common.c:125-147 | any cut of a formatted stream passes any other cut of verify_buf calls, and total_bytes equals the length |
| StreamPattern.FailureAccounting | common.c:134-147 | after any calls on any buffers the expected byte is total_bytes plus the failed calls, mod 256 |
| SizeFormat.SoundApproximation | common.c:76-101 | below ten units the tenths are floor(10 size / base), above that the whole is floor(size / base): never overstated, and off by less than the last printed place |
| SizeFormat.Monotone | common.c:80-96 | a larger size never prints a smaller value, across all unit boundaries and for negative sizes |
| SizeFormat.WellFormedText | common.c:94-101 | the fraction is one digit, the unit is the largest reached, sizes below 1024 print exactly |
| SizeFormat.PrintedNumbers | common.c:76-101 | g from 1073741824 on, m from 1048576, k from 1024, each with the quotient by that number and, below ten units, the next decimal digit |
| VerbsBits.IncIterated | include/verbs.h:2678-2684 | k increments keep the upper 24 bits and add k to the low byte mod 256 |
| VerbsBits.IncInNumbers | include/verbs.h:2678-2684 | one increment adds one, except that a low byte of 255 goes back to 0 with nothing carried |
| VerbsBits.PeriodIs256 | include/verbs.h:2678-2684 | a key comes back after k increments if and only if 256 divides k |
| VerbsBits.PortIsDynamic | include/verbs.h:3552-3558 | the port is in the dynamic range 0xC000..0xFFFF of section 6 of RFC 6335, and only the low 20 bits of the label matter |
| VerbsBits.FoldFlips | include/verbs.h:3552-3558 | label 0 gives 0xC000; flipping label bits below 14 flips the same port bits, flipping label bits 14 to 19 flips port bits 0 to 5, and no other bit matters: which determines the fold |
| VerbsBits.LabelOfPort | include/verbs.h:3552-3558 | for each upper six bits, every dynamic port has a label that folds to it |
| VerbsBits.PortOfLabel | include/verbs.h:3552-3558 | that label is the only one: the fold is a bijection for fixed upper bits |
| VerbsBits.SixtyFourLabels | include/verbs.h:3548-3558 | every dynamic port has exactly 64 flow labels |

## Left out

- Error completions (a request outside registered memory never completes here; the adapter would complete it with an error status and wake `cq_thread`, which looks at `wc.opcode` only, `simplest_client.cpp:189-206`), and disconnect, reject and timeout events: the code checks neither `wc.status` nor those events.
- The C++ memory model: flags are read and written in one global order.
- A second connection request: the server handles one client (`simplest_server.cpp:513`).
- `simple_server::rdma_read` and `simple_server::rdma_write`: never called, and without a completion wait.
- `getaddrinfo`, socket addresses, `malloc`, printing, sleeps, event channels and protection domains: I/O and foreign calls.
- `get_ibinfo.cpp`: a script of device queries; its logic is not part of this model.
- `cnt_str`, `size_to_count`, `do_poll` and `get_rdma_addr`: single branches or library plumbing.
- The order in which `memcpy` writes, and an adapter that reads a range piecemeal: the class copies go through the words in ascending order, one step each, and a one-sided request is one step, so that a class read sees new words before stale ones. A `send_buf` assignment is one step.
- The length of a triple stored apart from its key: both are one step, the address is another. No operation reads a length before its flag. The server's handler, whose triple nobody reads before its flag, stores it in one step.
- Two buffers over the same memory: the client's buffers are sequence-valued fields in `Hosts`; update in place on arrays is covered for the server in `ServerBuffers`.
- Two regions with one key: the keys of the three advertised regions are taken to be different.
- The object that `read_class` allocates and drops, and the pointer it stores into the received header: the reconstruction keeps the words and the data buffer.
- The rendering of digits: `size_str` is a whole number, one digit and a unit letter here.
- Overflow of `total_bytes` and of `int` loop counters: counters are unbounded.
- Schedules.EarlyReadClassIff: is stated for a read_class whose earlier operations can all be executed; behind one that blocks, whether it is ever called depends on when the sketch's address arrives.
- EarlySketch.EarlyOwReadIff: like EarlyReadClassIff, is stated for an ow_read whose earlier operations can all be executed; a run that blocks in it never returns and so counts as right.
- Program.Session.ReadClass: on GET_CLASS_ADDR alone it promises only a new beginning and a stale rest, because the code promises no more (Schedules.EarlyReadClassIff).
- A `message` longer than the client's rdma buffer: `strcpy` would run past it; the shipped one is 28 bytes.
- RDMA writes by the client to the class and sketch regions: no operation of this client makes one.
