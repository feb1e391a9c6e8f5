# udptun in Dafny

udptun carries UDP datagrams over TCP. On the ingress side each datagram, with the id of the client
that it came from, is queued in memory and, when memory is short, on disc; channels turn the queued
records into messages with a six-byte header, and one sender multiplexes the channels onto a TCP
connection that may send any part of what it is offered, refuse, fail or be closed at any time. On the
egress side each connection reassembles the messages from whatever chunks arrive, and passes every
payload on to the destinations of its label. Everything runs from one event scheduler.

This project models that behaviour and proves what it keeps. The files follow the program:

- `Wire.dfy`, `Egress.dfy`, `EgressObject.dfy`: the message format (marshaling.cc), what any stream comes to,
  and the receiving object that sends every message on (tcp_egress.cc).
- `Records.dfy`, `SpillQueue.dfy`, `QueueSteps.dfy`, `QueueRuns.dfy`, `QueueFiles.dfy`, `PayloadQueue.dfy`: records
  on disc (payloads.cc) and the queue that spills to files (queues.cc), first as functions on the queue's
  state, with what each does to the fields and what every run of them keeps, then as an object whose methods
  are proved against them.
- `Channels.dfy`, `ChannelFacts.dfy`, `ChannelObject.dfy`: the resumable sender of one channel (channels.cc).
- `Tunnel.dfy`, `TunnelSteps.dfy`, `TunnelLinks.dfy`, `TunnelRuns.dfy`, `TunnelTheorems.dfy`, `TunnelLosses.dfy`,
  `TunnelFairness.dfy`, `TunnelHistory.dfy`, `TunnelSendable.dfy`, `TunnelProgress.dfy`, `TunnelResends.dfy`,
  `TunnelDeliveries.dfy`, `TornRun.dfy`, `IngressObject.dfy`: the sending end as a state machine over its
  events (tcp_ingress.cc), what every run keeps, exactly when no assertion fails, that what is queued can
  always be sent in the end, the end-to-end theorems up to the destinations, and the object whose methods
  are proved to take the steps of the state machine.
- `Quotas.dfy`, `SharedQuota.dfy`: the quota manager (quotas.cc), and any number of queues that share one.
- `Events.dfy`, `EventTables.dfy`, `Scheduler.dfy`: events and the scheduler (scheduling.cc, events.cc,
  timed.cc, idle.cc, signaling.cc, descriptor.cc).
- `ClientTable.dfy`, `Destinations.dfy`, `FanOut.dfy`: client ids (clientid.cc), the bank of destinations
  (destbank.cc) and the emitters of a client (emitters.cc, tcp_egress.cc).
- `Basics.dfy`: octets, optional values, subsequences, the least element of a set.

How the world outside comes in: send and connect calls take their answers from a script, and every
theorem is about all scripts; a script that has run out refuses. Receive calls give any chunks, the
resolver any list of addresses, the kernel any report on a descriptor, the clock any time. A vector for
scattered output is a sequence of byte slices. A handler in the scheduler is any sequence of calls on any
events. A user of the quota manager replies to a request with any amount.

What the code demands of its surroundings, and where it shows:

- The entry of a datagram is at most 65535 bytes (`Good`), which a datagram from a UDP socket always meets,
  and labels are below 65536. Client ids are eight bytes wide in a queue entry, as `uint_fast16_t` is on
  64-bit glibc, and the table of client ids does not stop at 65535; only the low sixteen bits go into a
  message (`FrameOf`), so that two clients may share an id on the wire. `DecodeEncode` says exactly when a
  message survives.
- The clock is above every key in the queue when a file is opened (`Ahead`), and below 2^63. A queue that is
  destroyed in a run, with something in memory, has a first key above zero (`Restartable`); what happens to
  one whose first key is zero is `RestartThroughDirectory`.

Seven promises do not hold of the code, and the model keeps the code as it is:

- Framing: when the peer closes a connection in the middle of a message, the channel is not told and goes
  on from there on the next connection. `TornRunDelivers` is such a run; `CleanExactly` says that framing
  holds exactly in the runs without such a closure.
- The assertions of the descriptor's handler: a peer that accepts a connection and closes it at once may
  have the socket reported closed without an error on it (tcp_ingress.cc:90), and the kernel may report an
  error and nothing else (tcp_ingress.cc:122). `EarlyRunFails` has a run of each kind; `AssertionsHold`,
  `RunKeeps` and `EndToEnd` say that no assertion fails exactly in the runs without them.
- The assertions of a channel: an empty datagram is read, queued and kept like any other
  (udp_absorbers.cc:141-149), but cannot be presented for sending (channels.cc:120). `PresentableExactly`
  gives the condition on the entry and `EmptyDatagram` the case; in a run, `Presents` is the condition, which
  is part of that of `RunKeeps`, and `FullRuns` says that it always holds if no datagram is empty.
- The assertions of the lookup function: a source that becomes ready between the expiry of the reset timer
  and its handler starts a second lookup. `WindowRunFails` is such a run; `WindowExact` gives the condition.
- Queue order and completeness: a spill file is loaded, or discarded, while the stream is still open on it.
  `StaleStreamLoses` and `HeldBackLoses` are such runs; `Conservation` and `NothingLostExactly` give the
  condition.
- The wait for the next event: a timer that is set and cancelled leaves an empty bucket behind, and the
  first entry of an empty table is read when nothing else is to be done. `CancelledTimer` is such a case;
  `Timeout` gives the condition.
- The purge of client ids erases the address of the wrong entry (`PurgeConfuses`); `Purge` gives the
  condition.

The documentation says that a quota makes older messages go. The code asks users by the age that they
have on record, and a payload queue always reports none, so that it is never asked (`NobodyAsked`,
`PayloadQueue.Start`); no bound on disc use is claimed for queues.

## Model

| member | source | states |
|---|---|---|
| Wire.FieldToBytes | src/obj/marshaling.cc:64-101 | For every `done` and field position, the writer offers exactly the unsent end of the big-endian field, and nothing, with the buffer untouched, once the field has been sent. |
| Wire.DecodeMessage | src/obj/marshaling.cc:103-130 | Reports a message exactly when the header and the whole payload have arrived, and then its client id, label and payload; an incomplete message is never reported. |
| Wire.Layout | src/obj/marshaling.cc:64-101 | A message, octet by octet: three big-endian fields of two octets with the low sixteen bits of client id, label and payload length, and then the payload. |
| Wire.DecodeEncode | src/obj/marshaling.cc:64-130 | Decoding an encoded message followed by any bytes gives the same message back if and only if its client id, label and payload length fit in sixteen bits. |
| Wire.EncodeDecode | src/obj/marshaling.cc:103-130 | Whatever is decoded fits, and re-encodes to exactly the bytes that it was decoded from. |
| Wire.DecodeNeedsAll | src/obj/marshaling.cc:107-116 | No proper prefix of a message decodes to anything. |
| Wire.DecodeMore | src/obj/marshaling.cc:103-130 | Bytes that arrive after a message do not change what it decodes to. |
| Wire.ParseSplit | src/obj/tcp_egress.cc:393-437 | Parsing a stream in two parts gives the frames and the leftover of parsing it at once, and the leftover never holds a whole message. |
| Wire.ParseInverse | src/obj/tcp_egress.cc:393-437 | The frames of any byte stream and its leftover spell the stream: nothing is dropped, altered or invented. |
| Wire.ParseEncodeAll | src/obj/tcp_egress.cc:393-437 | Whole messages, and the start of another, come back as exactly those messages and that start. |
| Egress.ChunkIndependence | src/obj/tcp_egress.cc:439-478 | However a byte stream is cut into receive calls, the frames delivered and the bytes left over are those of one parse of the whole. |
| Egress.RoomLeft | src/obj/tcp_egress.hh:107-109 | The leftover of any stream is shorter than the buffer, so that a receive call is never made with no room. |
| EgressObjects.Connection.Process | src/obj/tcp_egress.cc:393-437 | Sends the message at the front, if it is complete, on to every destination of its label, once, through its client's emitters, and moves the rest of the buffer up; otherwise nothing changes. It throws only when a new client cannot be made, and then the message stays. |
| EgressObjects.Connection.Client | src/obj/tcp_egress.cc:419-429 | A client that is known keeps its state; a new one gets emitters that no other client has, and cannot be made only if some destination that is needed is offered nothing. |
| EgressObjects.Connection.HandleFd | src/obj/tcp_egress.cc:439-479 | One receive of any size that fits delivers exactly the frames that become complete and keeps exactly their leftover, with at least a byte of room; an end of stream closes the connection and delivers nothing; an exception leaves the messages before it delivered. |
| EgressObjects.Connection.ProcessAll | src/obj/tcp_egress.cc:476-477 | The loop delivers all the messages that a buffer holds and leaves none, or stops at the first that throws. |
| EgressObjects.Connection.HandleAll | src/obj/tcp_egress.cc:439-479 | For every cutting of a stream: the sendings are, message by message and in order, one to each destination of that message's label through its client's emitters, and the messages are those of one parse of the whole stream, unless one throws, and then the first of them. |
| Records.SaveLayout | src/obj/payloads.cc:55-65 | A record on disc, octet by octet: two octets of length, the most significant first, and then its contents. |
| Records.LoadSave | src/obj/payloads.cc:55-96 | A saved record loads back as it was if and only if it is shorter than 65536 bytes. |
| Records.LoadSaveAll | src/obj/payloads.cc:55-96 | Loading a file of saved records gives the same records in order, and their stored size is that of the file. |
| Records.LoadPrefix | src/obj/payloads.cc:78-96 | Loading any byte prefix of a saved file gives exactly the records that lie wholly inside the prefix. |
| Records.WholeWithin | src/obj/payloads.cc:78-96 | The number of records that lie wholly within a length: they fit, and one more would not. |
| Records.LoadedShape | src/obj/payloads.cc:78-96 | From any bytes at all, what is loaded is storable, its stored size is at most that of the bytes, and equal if and only if the bytes are whole records. |
| Records.LoadAppend | src/obj/payloads.cc:55-96 | After whole records, loading goes on with whatever was appended. |
| Records.CutShort | src/obj/payloads.cc:78-96 | A file of whole records that is cut short loses records from its end only, and none exactly when nothing was cut. |
| SpillQueue.FlushKeeps | src/obj/queues.cc:252-264 | Passing buffered bytes on to the file changes neither what the queue holds nor what it occupies. |
| SpillQueue.CloseKeeps | src/obj/queues.cc:244-245 | Closing the stream keeps the contents and their size on disc. |
| SpillQueue.OpenNewKeeps | src/obj/queues.cc:237-250 | A new file under a key above all others keeps the contents and every other file. |
| SpillQueue.AppendEffect | src/obj/queues.cc:252-260 | A record written through the stream joins the end of the contents if and only if the file behind the stream is still in the directory. |
| QueueRuns.PushEffect | src/obj/queues.cc:213-264 | A push keeps the invariants; it appends its record, and charges the quota by as much as the files grow, if and only if it goes to memory, opens a new file, or the open file is still in the directory; otherwise it charges too much. Which way a record goes is `QueueSteps.PushExactly`. |
| QueueSteps.PushExactly | src/obj/queues.cc:213-264 | A record joins the memory, with the disc left alone, if and only if there are no files and the memory stays below its bound; the user is called back exactly when the queue was empty and disappointed and the record stays in memory; otherwise the memory is left alone and the charge grows by the record and two. |
| QueueSteps.SpillExactly | src/obj/queues.cc:237-263 | On the way to disc a file is added, under the time of the push, if and only if the stream is closed or the record with its two octets would bring it to the bound; the stream is closed afterwards if and only if it has reached the bound. |
| QueueSteps.FlushExactly | src/obj/queues.cc:252-262 | What the stream passes on goes, in order, to the end of the one file that it is open on. |
| QueueSteps.LoadExactly | src/obj/queues.cc:113-146 | Loading takes the oldest files in turn up to the first that gives a record, and all if none does; memory, charge and files are what that leaves. |
| QueueSteps.TakeExactly | src/obj/queues.cc:148-199 | Peeking loads only with nothing in memory and is disappointed only with nothing at all; consuming takes the oldest record and its size; discarding takes the oldest file and its size on disc. |
| QueueRuns.LoadHeadEffect | src/obj/queues.cc:113-146 | Loading goes on until a record is found or the files run out, keeps the invariants, and loses records if and only if it reaches the file still being written while the stream holds bytes back. |
| QueueRuns.LoadHeadCharge | src/obj/queues.cc:137-139 | With whole files and a charge that covers them, loading takes off the charge what it takes off the disc if and only if it loses nothing, and otherwise less. |
| QueueRuns.PeekEffect | src/obj/queues.cc:168-183 | Peeking exposes the oldest record, or finds the queue empty and notes the disappointment; it changes the contents if and only if bytes held back by the stream are lost. |
| QueueRuns.StepEffect | src/obj/queues.cc:148-264 | For each operation, what is taken followed by what is left is what was there followed by what was given, less what is lost, and nothing is lost exactly under the named condition. |
| QueueRuns.Conservation | src/obj/queues.cc:52-292 | Over every sequence of pushes, peeks, consumes, discards and restarts: records taken, then held, are a subsequence of records held, then given, and equal to them if and only if no operation of the run loses anything. |
| QueueRuns.StepCharge | src/obj/queues.cc:137-157 | The quota charge never falls behind the size of the files; a restart makes it exact, and any other operation leaves it as far above as it was if and only if it is not a push into a removed file, nor a load or discard of bytes not yet on disc. |
| QueueRuns.RunCharge | src/obj/queues.cc:82-263 | Over every run the charge never falls behind the files, and is exact in the end if and only if it was so at the last restart, or at the start, and no operation since is one of those. |
| QueueRuns.RunShortFiles | src/obj/queues.cc:237-262 | From any valid state, in every run, each file that pushing has written is below the memory bound: a file that is not was there before the run, or was saved by a restart. |
| QueueRuns.RestartKeeps | src/obj/queues.cc:52-99 | A queue built on the files that a destroyed one leaves has the same records in the same order, and its charge is the size of the files. |
| QueueRuns.ShutdownFirst | src/obj/queues.cc:266-284 | Unless the first key is zero, the file that saves the memory comes before all others. |
| QueueRuns.StaleStreamLoses | src/obj/queues.cc:113-146 | A concrete run of five operations after which a push is lost, because the stream is still open on a file that was loaded and removed. |
| QueueRuns.HeldBackLoses | src/obj/queues.cc:237-264 | A concrete run of three operations after which a peek loses a record that the stream still holds back. |
| QueueRuns.RestartFiles | src/obj/queues.cc:266-292 | A restart leaves each file as it was, whole if it was whole, and adds at most the one that saves the memory. |
| QueueFiles.ReadInverse | src/obj/queues.cc:64-66 | The hexadecimal key printed in a file name reads back as the same number. |
| QueueFiles.NameInverse | src/obj/queues.cc:64-99 | A queue file has the suffix by which it is found, and its name reads back as its key if and only if the key is below 2^63. |
| QueueFiles.NameShape | src/obj/queues.cc:92-99 | A name is the key in lower-case hexadecimal, without leading zeros, followed by .queue. |
| QueueFiles.NegativeInverse | src/obj/queues.cc:66-67 | A negative number in a name goes round to a large key, unless it is below -2^63. |
| QueueFiles.ReadExample | src/obj/queues.cc:66-66 | White space, a sign, a prefix and upper-case digits are read, and reading stops at the first character that is no digit. |
| QueueFiles.ListingUnique | src/obj/queues.cc:56-76 | A directory in which no two queue files have the same key has one listing in key order, whatever order the directory is read in. |
| QueueFiles.HeldListed | src/obj/queues.cc:52-76 | Files left in a directory under the names that a queue gives them are found again, each once, whatever other files are there. |
| QueueFiles.InsertEffect | src/obj/queues.cc:64-72 | Entering a file in the table keeps the keys in order, adds just that file, and takes the place of any other under the same key. |
| QueueFiles.InsertSize | src/obj/queues.cc:64-72 | Entering a file adds its size to what the table takes up, or less if another had the same key. |
| QueueFiles.RestartThroughDirectory | src/obj/queues.cc:52-99 | Destroying a queue leaves a directory that can be read again if and only if nothing was in memory or the first key was not zero; and then constructing another on it, among files of other kinds, gives the same sequence of records. |
| PayloadQueues.PayloadQueue.Start | src/obj/queues.cc:52-84 | Throws exactly when the name of some queue file in the directory has no key to read; otherwise finds one file for every key, in order, charges the sizes of all, which is what it found if no two have the same key, and reports an age that is always zero. |
| PayloadQueues.PayloadQueue.LoadHeadFile | src/obj/queues.cc:113-146 | The loading loop reaches the state of the specification, and reports whether there is a record in memory. |
| PayloadQueues.PayloadQueue.LoadFirstFile | src/obj/queues.cc:121-139 | One file is read, removed and taken off the charge. |
| PayloadQueues.PayloadQueue.ReadRecords | src/obj/queues.cc:101-129 | The reading loop appends exactly the records that the file's bytes load as, and sums their stored and in-memory sizes. |
| PayloadQueues.PayloadQueue.PeekHead | src/obj/queues.cc:168-183 | The head of the queue in the new state, which is that of the specification of peeking. |
| PayloadQueues.PayloadQueue.Poke | src/obj/queues.cc:163-166 | Calls back exactly when there is something to take. |
| PayloadQueues.PayloadQueue.ConsumeHead | src/obj/queues.cc:185-199 | Takes the head and its size off; on an empty queue nothing happens. |
| PayloadQueues.PayloadQueue.DiscardFile | src/obj/queues.cc:148-161 | Removes the oldest file and takes its size on disc off the charge. |
| PayloadQueues.PayloadQueue.PushPieces | src/obj/queues.cc:213-264 | An entry of several pieces is appended as their concatenation if and only if it is kept; the callback is due exactly when a disappointed queue was empty and the entry went to memory. |
| PayloadQueues.PayloadQueue.SpillPieces | src/obj/queues.cc:237-263 | The disc branch of a push reaches the state of the specification of spilling. |
| PayloadQueues.PayloadQueue.Destroy | src/obj/queues.cc:266-292 | Leaves the files of the specification of shutting down, with the memory under the key before the first, which from zero goes round to the largest; the quota manager gets back the size of the files as far as the charge goes, and forgets the rest: the whole charge, no more and no less. |
| Channels.EntryFrame | src/obj/channels.cc:90-101 | The message made from a queue entry has the payload that the entry was made from, and the low sixteen bits of its client id. |
| Channels.GoodFits | src/obj/channels.cc:90-113 | Every queue entry makes a message that fits, and whose payload is empty exactly when the datagram was. |
| Channels.GoodExactly | src/obj/udp_absorbers.cc:141-149 | Every datagram of at most 65527 bytes, and so every UDP datagram, makes an entry that the queue can keep. |
| Channels.PresentableExactly | src/obj/channels.cc:95-120 | Wherever in its message an entry has got to, the three assertions of presenting it hold if and only if its datagram is not empty and at most 65535 bytes. |
| Channels.EmptyDatagram | src/obj/channels.cc:114-120 | An empty datagram of any client makes an entry like others, at which the last of the three assertions fails. |
| ChannelFacts.DescribeEffect | src/obj/channels.cc:82-122 | Presenting keeps the invariants, starts at byte zero for a new head, leaves a disappointed and empty queue when there is nothing, and loses records if and only if peeking does. |
| ChannelFacts.DescribableExactly | src/obj/channels.cc:82-120 | Presenting from a channel meets no failing assertion if and only if it has nothing to present or the datagram at its head is not empty. |
| ChannelFacts.ConsumedEffect | src/obj/channels.cc:125-150 | The entry leaves the queue if and only if every byte offered was accepted; then the channel is pending again or its queue is empty and disappointed. |
| ChannelFacts.PokeEffect | src/obj/queues.cc:163-166 | After a poke the channel is pending or its queue is empty and disappointed. |
| ChannelFacts.SubmitEffect | src/obj/channels.cc:162-174 | A submitted entry, of an empty datagram or another, joins the end of the queue if and only if it is kept, does not disturb the head, and makes a channel pending whose queue was empty and disappointed. |
| ChannelObjects.Channel.DescribeInto | src/obj/channels.cc:82-123 | For every amount already sent, the slices put into the vector concatenate to exactly the unsent end of the frame; the three assertions are demanded. |
| ChannelObjects.Channel.Headers | src/obj/channels.cc:108-113 | The three header writers together offer the unsent part of each field, in order. |
| ChannelObjects.Channel.Slices | src/obj/channels.cc:90-122 | The header slices and the payload slice are the frame of the entry from the byte reached. |
| ChannelObjects.SlicesMakeSuffix | src/obj/channels.cc:108-121 | Unsent header parts and the last part of the payload, cut where the code cuts it, are the frame's suffix from the byte reached. |
| ChannelObjects.Channel.Acknowledge | src/obj/channels.cc:125-150 | Reports completion exactly when the last byte is reached, and reaches the state of the specification. |
| ChannelObjects.Channel.Fail | src/obj/channels.cc:152-155 | Forgets the position but not the entry. |
| ChannelObjects.Channel.ActivateQueue | src/obj/channels.cc:69-75 | Pokes the queue, as specified. |
| ChannelObjects.Channel.SubmitDatagram | src/obj/channels.cc:162-174 | Queues the client id and the payload as one entry, as specified, keeping the channel's invariant. |
| Tunnel.LoopProgress | src/obj/tcp_ingress.cc:322-381 | Each turn of the sending loop that goes on drops a source, or leaves the first source fewer bytes to send: the loop ends. |
| Tunnel.TookEffect | src/obj/tcp_ingress.cc:371-380 | Accepting some bytes either completes the message and drops the source, or leaves strictly less to offer. |
| TunnelLinks.StepLink | src/obj/tcp_ingress.cc:78-417 | Every event, except a source becoming ready in the timer's window with nothing waiting, keeps at most one of socket, lookup, running timer and expired timer, and one of them whenever something is waiting. |
| TunnelLinks.AssertionsHold | src/obj/tcp_ingress.cc:78-195 | In every state with that invariant, the assertions of every handler hold for every event that can come, except, exactly, a report of closure on a connecting socket without an error and a report of an error and nothing else. |
| TunnelLinks.WindowExact | src/obj/tcp_ingress.cc:169-173 | After the timer has expired, its handler's assertions survive a source becoming ready if and only if something was waiting already. |
| TunnelLinks.ConnectHasAddress | src/obj/tcp_ingress.cc:216-309 | An attempt that yields a socket stands at an address of the list, and that is an IPv4 address only if IPv4 is on, and an IPv6 address only if IPv6 is. |
| TunnelLinks.BindFailureRepeats | src/obj/tcp_ingress.cc:249-254 | Any number of failures to bind leaves the attempt where it was: the loop makes no headway of its own. |
| TunnelSteps.ConnectExactly | src/obj/tcp_ingress.cc:197-310 | The verdicts on attempts, less the failures to bind, fall in order to the addresses whose family is on: the first verdict that is a connection decides the address; without one, or with more refusals than addresses, every address has been passed over. |
| TunnelSteps.TryConnectExactly | src/obj/tcp_ingress.cc:197-310 | In that case the list is empty and the timer runs; otherwise the socket waits for writability and closure, and on a connection made at once for input too. |
| TunnelSteps.LoopEnds | src/obj/tcp_ingress.cc:312-382 | A call to send ends in one of three ways: nothing is left waiting and nothing else changes; the socket is blocked and will tell when it is writable; or, exactly if the first answer that is not an acceptance is an error, the socket is gone, the timer runs and the source has let go of its message. |
| TunnelSteps.DescriptorExactly | src/obj/tcp_ingress.cc:78-154 | What the descriptor's handler does on each branch, field by field: goes on with the address after this one, gives the connection up and waits for the timer, takes it as connected and waits for it again, or writes to it. |
| TunnelSteps.ReadyExactly | src/obj/tcp_ingress.cc:384-417 | What becomes of a source that declares itself ready: nothing if it waits already; otherwise it joins the end, and only the first one starts a lookup, waits for writability or is written from. |
| TunnelSteps.LinkExactly | src/obj/tcp_ingress.cc:167-195 | What reports, the timer and the resolver change, field by field. |
| TunnelSteps.AlwaysAttentive | src/obj/tcp_ingress.cc:291-308 | Over every run, an open socket will be reported closed, or has been and the handler has yet to run; and on a connection so will anything that the peer sends. |
| TunnelRuns.StepInv | src/obj/tcp_ingress.cc:78-417 | Every event keeps: the bytes of the open connection spell its messages, every channel's completed messages and queue come from what it was given, in order, and a live channel with records is waiting or pending. |
| TunnelRuns.LoopInv | src/obj/tcp_ingress.cc:322-381 | The sending loop keeps this invariant for every script of partial sends, refusals and errors. |
| TunnelTheorems.FramedExactly | src/obj/tcp_ingress.cc:312-382 | The bytes accepted by a connection are its messages and a part of the next if and only if the connection began with no half-sent message. |
| TunnelTheorems.StepClean | src/obj/tcp_ingress.cc:106-119 | From a clean state, an event leads to a clean one if and only if it is not the peer closing a connection in the middle of a message. |
| TunnelTheorems.RunKeeps | src/obj/tcp_ingress.cc:78-417 | In a legal run no assertion fails if and only if the kernel reports none of those two and no empty datagram is to be sent; and then all invariants hold at the end. |
| TunnelTheorems.RunsOn | src/obj/tcp_ingress.cc:78-417 | A run goes on where another ended: no assertion fails in the two together exactly when none fails in the second either, and together they lead where the second leads. |
| TunnelTheorems.CleanExactly | src/obj/tcp_ingress.cc:109-117 | Every connection of a run starts at a message boundary if and only if the peer never closes one in mid-message. |
| TunnelTheorems.Deliveries | src/obj/tcp_egress.cc:393-479 | However the bytes of a clean connection are cut up, the receiver delivers a prefix of the messages completed on it, and all of them, with just the unfinished part left over, once every byte has arrived. |
| TunnelTheorems.EndToEnd | src/obj/channels.cc:82-174 | From the start, over all interleavings, partial sends and receive splits: no assertion fails exactly under that condition, and then each channel's completed messages and queue are a subsequence of its submissions, and a connection that began with no half-sent message, whatever befell those before it, delivers a prefix of the messages completed on it. |
| TunnelHistory.StepHeard | src/obj/tcp_ingress.cc:78-417 | Unless the peer closes in mid-message, every event keeps the bytes of the latest connection, open or closed, parsing as exactly the messages completed on it. |
| TunnelHistory.LoopHeard | src/obj/tcp_ingress.cc:322-381 | Through any number of sends and a final error in one call, the bytes accepted parse as exactly the messages completed. |
| TunnelHistory.DeliveredOnce | src/obj/tcp_egress.cc:393-479 | Over any number of connections of a run without a torn one, with failed sends and reconnections: when every accepted byte arrives, in any chunks, the messages delivered over all connections are exactly the messages completed, in order, each once. |
| TunnelTheorems.CompletedWasAccepted | src/obj/channels.cc:131-143 | On a clean connection, an entry leaves its queue only after the connection has accepted all bytes of its message, together and in order, at the place given by the messages before it. |
| TunnelTheorems.FailedStartsAgain | src/obj/channels.cc:152-155 | After a failed send the next presentation is the same entry, from byte zero. |
| TunnelSendable.LoopDescribable | src/obj/tcp_ingress.cc:322-381 | If every source that waits can be presented, so can whatever the sending loop comes to, for every script of answers. |
| TunnelSendable.FullPresents | src/obj/channels.cc:82-120 | With no empty datagram queued, in memory or on disc, every event finds the channels' assertions true. |
| TunnelSendable.StepSubmitted | src/obj/channels.cc:162-174 | Nothing is given to a channel except by being submitted. |
| TunnelSendable.FullRuns | src/obj/tcp_ingress.cc:78-417 | In a legal run in which no datagram is empty, no assertion fails if and only if the kernel reports neither an early closure nor an error alone. |
| TunnelProgress.NeverStuck | src/obj/tcp_ingress.cc:384-417 | Over every run from the start, whenever a source waits, the timer runs or has expired, a lookup is outstanding, or the open socket awaits or has been told of writability. |
| TunnelProgress.NoneStranded | src/obj/channels.cc:157-160 | Over every run from the start, a live channel with anything in memory or on disc is in the sender's queue or about to be woken. |
| TunnelProgress.SendsAll | src/obj/tcp_ingress.cc:322-381 | If the socket accepts everything, one call sends from every source that waits. |
| TunnelProgress.LoopAdvances | src/obj/tcp_ingress.cc:322-381 | Whatever the socket answers, no channel's queue grows while sending, and one that leaves the queue of sources has got shorter or is empty. |
| TunnelProgress.FitDrains | src/obj/tcp_ingress.cc:78-417 | From every phase of the connection, open, closing, connecting, looking up or waiting for the timer, some finite course of events, at which no assertion fails, empties the queue of sources. |
| TunnelProgress.QueueEmpties | src/obj/tcp_ingress.cc:78-417 | Every run from the start after which whatever waits can be presented has a finite legal continuation, at which no assertion fails, that empties the queue of sources. |
| TunnelProgress.EverythingGoes | src/obj/channels.cc:82-174 | Every run from the start without empty datagrams, whatever has happened to the connections, has a finite legal continuation, at which no assertion fails, after which no active channel holds anything, in memory or on disc. |
| TunnelResends.RunHead | src/obj/channels.cc:125-155 | Over any run, through any number of failed sends and connections, the entry at the head of a channel's queue stays there until its message has been completed, and is the next that the channel completes. |
| TunnelResends.FailedResends | src/obj/tcp_ingress.cc:353-368 | After a failed send, on an untorn run: until the channel completes a message its head is the same entry, and each connection that has any of that message has it from its first byte, right after its whole messages. |
| TunnelResends.BrokenStarts | src/obj/channels.cc:152-155 | A failed send leaves such a state: the entry still at the head of its queue and no longer taken up, and nothing half-sent for the next connection to go on with. |
| TunnelDeliveries.CarriedOnce | src/obj/tcp_egress.cc:374-479 | Over all connections of an untorn run, if every accepted byte arrives, in any chunks, and no client is refused: what the receiving connections send on is, message by message and in order, one to each destination that the names of every completed message's label select, and no others. |
| TunnelDeliveries.LogGoes | src/obj/tcp_egress.cc:374-437 | Each message that a connection has handled has gone to exactly the destinations that its label's names select, once, through emitters that can talk to them. |
| TunnelTheorems.TornMisleads | src/obj/tcp_ingress.cc:109-117 | After a connection torn behind the header, a payload that spells a message is delivered as that message. |
| TunnelLosses.StepLoss | src/obj/tcp_ingress.cc:78-417 | An event leaves everything accounted for if and only if it was so before and each queue operation of the event keeps its records. |
| TunnelLosses.NothingLostExactly | src/obj/channels.cc:82-174 | At the end of any run, completed messages followed by the queue are exactly what each channel was given, if and only if no queue operation of the run lost a record. |
| TunnelLosses.ShareIsPrefix | src/obj/channels.cc:82-174 | In a run without such a loss, each channel's completed messages are a prefix of what it was given. |
| TunnelFairness.LoopServes | src/obj/tcp_ingress.cc:322-381 | One call of the sending loop drops a front part of the queue of sources, and the messages that it completes come from those, in their order. |
| TunnelFairness.AtMostOneEach | src/obj/tcp_ingress.cc:377-380 | No source completes two messages in one call. |
| TornRun.TornRunDelivers | src/obj/tcp_ingress.cc:109-117 | A concrete run from the start: the peer closes after the header, the rest goes to the next connection, and there a message is delivered that was never sent. |
| TornRun.WindowRunFails | src/obj/tcp_ingress.cc:169-173 | A concrete run from the start after which the timer's handler finds a lookup outstanding, so that its assertion fails. |
| TornRun.EarlyRunFails | src/obj/tcp_ingress.cc:81-122 | A concrete legal run from the start for each of the two reports on a connecting socket after which an assertion of the descriptor's handler fails. |
| IngressObjects.TCPIngress.TrySendNow | src/obj/tcp_ingress.cc:312-382 | The sending loop over the real channels and queues reaches the state of the specification for every script of answers, and ends. |
| IngressObjects.TCPIngress.DescribeFirst | src/obj/tcp_ingress.cc:325-327 | The first source presents exactly the bytes still to be sent of its message. |
| IngressObjects.TCPIngress.TakeFirst | src/obj/tcp_ingress.cc:371-380 | Accepted bytes are a prefix of what was presented; a source that is done leaves both collections. |
| IngressObjects.TCPIngress.BlockFirst | src/obj/tcp_ingress.cc:342-351 | A refusal keeps the position and asks for writability. |
| IngressObjects.TCPIngress.BreakFirst | src/obj/tcp_ingress.cc:354-368 | An error makes the source start its message again, closes the socket and sets the timer. |
| IngressObjects.TCPIngress.TryConnectNow | src/obj/tcp_ingress.cc:197-310 | The connecting loop reaches the state of the specification, which `TunnelSteps.TryConnectExactly` spells out, for every script of outcomes. |
| IngressObjects.TCPIngress.FindSocket | src/obj/tcp_ingress.cc:216-309 | The outer loop ends with the outcome that `TunnelSteps.ConnectExactly` spells out: no address left, or the first address that works. |
| IngressObjects.TCPIngress.NextSocket | src/obj/tcp_ingress.cc:217-239 | The inner loop skips exactly the addresses that are excluded or give no socket. |
| IngressObjects.TCPIngress.InitiateLookupNow | src/obj/tcp_ingress.cc:169-185 | Under its three assertions, forgets the addresses and asks for new ones. |
| IngressObjects.TCPIngress.TimerReady | src/obj/tcp_ingress.cc:63-63 | The timer's handler does the step of the specification. |
| IngressObjects.TCPIngress.AddressesResolved | src/obj/tcp_ingress.cc:187-195 | The resolver's callback does the step of the specification. |
| IngressObjects.TCPIngress.DescriptorNotified | src/obj/tcp_ingress.cc:78-154 | The descriptor's handler does the step of the specification on every branch, under its assertions: a socket, an error on a connecting one that is reported closed, and otherwise writability. |
| IngressObjects.TCPIngress.PeerClosed | src/obj/tcp_ingress.cc:106-119 | Closes the socket and sets the timer, without telling the source. |
| IngressObjects.TCPIngress.TryNext | src/obj/tcp_ingress.cc:130-139 | Goes on from the address after the one that failed. |
| IngressObjects.TCPIngress.Ready | src/obj/tcp_ingress.cc:384-417 | A source that is known is ignored; a new one joins the end, and the first one starts sending, connecting or looking up as specified. |
| Quotas.SumWithout | src/obj/quotas.cc:61-86 | The total does not depend on the order in which users are counted. |
| Quotas.RemovedEffect | src/obj/quotas.cc:107-121 | Taking a user out of its bucket changes that bucket only, drops it if it is empty, and keeps the ages ascending. |
| Quotas.InsertedEffect | src/obj/quotas.cc:123-127 | Putting a user into a bucket changes that bucket only and keeps the ages ascending. |
| Quotas.Quota.Increase | src/obj/quotas.cc:61-68 | The total stays the sum of the amounts, and the buckets the inverse of the ages, through the increase and whatever the users asked then give up. |
| Quotas.Quota.Decrease | src/obj/quotas.cc:70-86 | The total falls by exactly what the user had to give, so that it never needs clamping. |
| Quotas.Quota.Forget | src/obj/quotas.cc:88-105 | The user leaves users and ages, and its whole amount leaves the total. |
| Quotas.Quota.EraseFromSequence | src/obj/quotas.cc:107-121 | Only the one membership goes, and no empty bucket stays. |
| Quotas.Quota.Oldest | src/obj/quotas.cc:129-142 | The user moves to its new age and nothing else changes. |
| Quotas.Quota.SetLimit | src/obj/quotas.cc:45-49 | Users are asked against the new limit at once. |
| Quotas.Quota.Check | src/obj/quotas.cc:51-59 | The asking loop, with re-entrant decreases, reaches the outcome of the specification and keeps the invariants. |
| Quotas.AskingEffect | src/obj/quotas.cc:51-59 | At most one user of each bucket is asked, oldest bucket first, only while over the limit; asking ends within the limit or after every bucket; nobody else's amount changes. |
| Quotas.AskedGives | src/obj/quotas.cc:70-86 | Whoever is asked loses what it says that it gives up, as far as it has that much. |
| Quotas.AskedInOrder | src/obj/quotas.cc:51-59 | Users are asked in strictly ascending order of the age on record. |
| Quotas.AskedOldest | src/obj/quotas.cc:51-59 | No age is passed over: before a user is asked, some user of every smaller age has been. |
| Quotas.NobodyAsked | src/obj/queues.cc:58-68 | There is nobody to ask if and only if no user has an age on record, which is the case of every payload queue. |
| Quotas.DecreaseThenForget | src/obj/queues.cc:284-292 | However much a user gives back first, giving back and being forgotten take exactly its whole amount out of the total. |
| SharedQuotas.ChargedCoherent | src/obj/queues.cc:139-139 | When a queue tells the manager of a change in its charge, the manager's amount for it is its charge, the total stays the sum, and nobody else's amount changes. |
| SharedQuotas.AskJoins | src/obj/quotas.cc:51-59 | The manager's asking, with each queue that is asked discarding its oldest file for a reply, leaves users and total as the manager's own specification says, and the tables in agreement. |
| SharedQuotas.ChargeStep | src/obj/queues.cc:137-263 | One operation of one queue leaves every charge covering its files, and makes a charge wrong if and only if the operation is a wrong one. |
| SharedQuotas.AskCharges | src/obj/queues.cc:148-161 | The discards that are asked for make wrong exactly the charges of the queues that discard bytes not yet on disc. |
| SharedQuotas.TotalExact | src/obj/quotas.cc:61-86 | The total is never below what all the queues have on disc, and equal to it if and only if every charge is right. |
| SharedQuotas.SharedRun | src/obj/quotas.cc:51-142 | Over every interleaving of the operations of any number of queues that come and go, with re-entrant discards: the manager's amounts are the queues' charges, the total is their sum and never below the disc, and exactly what is on disc if and only if no queue is left whose operations or discards got its charge wrong. |
| SharedQuotas.SharedFromStart | src/obj/quotas.cc:51-142 | From a manager without users, over every interleaving: the total is never below what all the queues have on disc, and exactly that if and only if none of the queues that are left got its charge wrong. |
| Events.GatheredEffect | src/obj/scheduling.cc:184-233 | After gathering, an event is queued if and only if it was queued, reported, signalled, due or idle; a queued event keeps its priority; a timer that is not due and a signal that has not come stay set. |
| Events.ToldEffect | src/obj/scheduling.cc:184-217 | Any sequence of reports queues an event once, if at all, and clears its signal exactly when that signal came. |
| Events.NotifiedOnce | src/obj/scheduling.cc:240-247 | While a queue is drained, no event is notified twice, whatever the handlers do. |
| Events.CancelledStays | src/obj/timed.cc:68-74 | A timer that a handler cancels, an idle event that it sets or cancels, and a descriptor event that it sets or cancels, is not notified later in the same drain, even if it was due and queued. |
| Events.NotifiedUnlessTaken | src/obj/scheduling.cc:235-249 | Whatever the handlers do: an event is notified if and only if its last departure from the drained queue is its notification; one that was in that queue at any time is not notified if and only if its last departure was a handler's moving or cancelling it. |
| Events.NotifiedLast | src/obj/scheduling.cc:240-247 | Whoever has been notified is never in the drained queue again. |
| Events.DepartureBy | src/obj/scheduling.cc:240-247 | Only its own notification, or a call that moves it, takes an event out of a queue. |
| Events.NotifiedExactly | src/obj/scheduling.cc:235-249 | In particular, an event that no handler moves is notified if and only if it was in the drained queue, even if its timer or signal is set again meanwhile; otherwise it keeps its place. |
| Events.StaysOut | src/obj/scheduling.cc:240-247 | No call and no notification puts an event into a queue. |
| Events.AfterAppend | src/obj/scheduling.cc:240-247 | The effect of a history on an event is the effect of its later part after its earlier part. |
| EventTables.PutIndexed | src/obj/timed.cc:76-80 | Entering an event under its key keeps the buckets the exact inverse of the keys. |
| EventTables.TakeIndexed | src/obj/timed.cc:82-86 | Taking an event out of its bucket keeps the buckets the exact inverse of the remaining keys. |
| EventTables.WatchStep | src/obj/scheduling.cc:111-163 | After a bucket has changed, the watched set is in step if and only if it follows the bucket's becoming empty or not, which only a known signal can. |
| EventTables.LaterIndexed | src/obj/scheduling.cc:228-228 | Erasing the buckets up to a time leaves exactly the events that are later. |
| Scheduling.Scheduler.Enqueue | src/obj/scheduling.cc:57-63 | A queued event stays where it is, another joins the queue of its priority; every other event is as it was, and all tables stay exact. |
| Scheduling.Scheduler.Dequeue | src/obj/scheduling.cc:65-71 | The event leaves its queue, if it is in one, and nothing else changes. |
| Scheduling.Scheduler.Prio | src/obj/events.cc:41-50 | A queued event moves to the queue of its new priority at once and is in no other; priority zero is refused and changes nothing. |
| Scheduling.Scheduler.TimedSet | src/obj/timed.cc:57-66 | The event is set for the new time, is in the timer table under that time only, and stays queued if it was. |
| Scheduling.Scheduler.TimedCancel | src/obj/timed.cc:68-74 | The event is no longer set, is in no bucket of the timer table and in no queue, even if it was due already; its bucket stays even if empty. |
| Scheduling.Scheduler.IdleSet | src/obj/idle.cc:56-60 | The event is idle and in no queue. |
| Scheduling.Scheduler.IdleCancel | src/obj/idle.cc:62-66 | The event is not idle and in no queue. |
| Scheduling.Scheduler.DescriptorSet | src/obj/descriptor.cc:75-89 | Setting a descriptor takes the event out of every queue; a negative one is refused and changes nothing. |
| Scheduling.Scheduler.DescriptorCancel | src/obj/descriptor.cc:91-96 | Cancelling leaves no descriptor and takes the event out of every queue. |
| Scheduling.Scheduler.UpdateSignal | src/obj/scheduling.cc:111-163 | The watched set follows the bucket, unless the system refuses, and then it stays as it was; a number outside the signal set throws even when there is nothing to change. |
| Scheduling.Scheduler.EnterSignal | src/obj/signaling.cc:89-94 | An event enters the bucket of its signal; the watched set is in step afterwards if and only if nothing is thrown. |
| Scheduling.Scheduler.SignalSet | src/obj/signaling.cc:78-95 | The tables agree afterwards if and only if nothing is thrown, and something is thrown exactly when the old signal's last handler goes or the new one's first comes and the system or the number stands in the way. |
| Scheduling.Scheduler.SignalCancel | src/obj/signaling.cc:65-70 | The event is where its fields say afterwards if and only if nothing is thrown, which from tables in step is only when the system refuses to stop watching for a last handler; an event left on a number that is no signal throws again. |
| Scheduling.Scheduler.Reset | src/obj/signaling.cc:50-58 | The event leaves its bucket, an empty bucket goes, and the watched set follows unless the system refuses. |
| Scheduling.Scheduler.Do | src/obj/events.hh:54-73 | Any one call on any one event keeps every table exact and leaves every other event as it was. |
| Scheduling.Scheduler.RunAll | src/obj/scheduling.cc:246-246 | Any sequence of calls keeps every table exact, and leaves each event as its own calls alone would. |
| Scheduling.Scheduler.RaiseSignal | src/obj/scheduling.cc:198-211 | Exactly the handlers of the signal are queued and lose it; it is no longer watched. |
| Scheduling.Scheduler.ReadSignals | src/obj/scheduling.cc:190-211 | Any sequence of signals read is raised one after another. |
| Scheduling.Scheduler.CollectTimers | src/obj/scheduling.cc:219-228 | Every timer that is due is queued and unset, and no later timer is touched, whatever the order of the buckets. |
| Scheduling.Scheduler.CollectIdle | src/obj/scheduling.cc:230-233 | Every idle event is queued, and none is idle afterwards. |
| Scheduling.Scheduler.DropEmpty | src/obj/scheduling.cc:87-95 | Finds the earliest time of a timer that is really set, or that there is none. |
| Scheduling.Scheduler.Timeout | src/obj/scheduling.cc:73-109 | In nanoseconds: the wait never passes the earliest timer, and falls short of it by less than a millisecond unless capped at 2147483647; the result is undefined exactly when nothing is queued or idle and no timer is set but a bucket is left over. |
| Scheduling.Scheduler.FirstQueue | src/obj/scheduling.cc:235-238 | The smallest priority among the queued events. |
| Scheduling.Scheduler.NotifyOne | src/obj/scheduling.cc:241-247 | The event leaves its queue before its handler runs, and strictly fewer events are queued after any handler. |
| Scheduling.Scheduler.Drain | src/obj/scheduling.cc:235-249 | Draining ends whatever the handlers do; each notified event is in the first queue at that moment, and that queue is empty in the end. |
| Scheduling.Scheduler.Gather | src/obj/scheduling.cc:184-217 | What the wait was woken for is queued, as specified for each event. |
| Scheduling.Scheduler.Poll | src/obj/scheduling.cc:165-250 | One poll leaves every event as gathering and then its own history make it, with all tables exact; an interrupted wait changes nothing. |
| Scheduling.CancelledTimer | src/obj/scheduling.cc:84-95 | One timer that is set and cancelled leaves the next wait undefined. |
| Scheduling.BadSignal | src/obj/scheduling.cc:118-132 | An event that is set for a number outside the signal set throws, and so does cancelling it. |
| Scheduling.Milliseconds | src/obj/scheduling.cc:96-96 | A million nanoseconds to the millisecond, truncated towards zero. |
| ClientIds.ClientTable.Seek | src/obj/clientid.cc:42-65 | A known client keeps its id; a new one gets the first free id going round from the next one; the maps stay inverse; the search ends because some id is free. |
| ClientIds.FullCircle | src/obj/clientid.cc:53-58 | If every id met in one full circle is taken, the table holds as many entries as there are ids. |
| ClientIds.ClientTable.Purge | src/obj/clientid.cc:84-97 | As written, the purge is defined if and only if the last entry has not expired; then exactly the clients that have been used since keep their ids, and the maps stay inverse if and only if all have been. |
| ClientIds.Ending | src/obj/clientid.cc:84-97 | A purge with anything to do leaves a client that has an id but cannot be found by its address, and an address with an id that is gone. |
| ClientIds.VisitExpired | src/obj/clientid.cc:91-92 | Erasing an expired entry takes away the address of the entry that follows it. |
| ClientIds.PurgeConfuses | src/obj/clientid.cc:84-97 | A concrete table of two clients, of which the first has expired: the second loses its address, and the first keeps its own with an id that is gone. |
| Destinations.IndexEffect | src/obj/destbank.cc:46-53 | A name stands for the last destination configured under it. |
| Destinations.JoinedEffect | src/obj/destbank.cc:58-76 | A name lists a destination if and only if it is that destination's name or some group called by it has a member that is. |
| Destinations.SeekReaches | src/obj/destbank.cc:84-91 | A name selects one of its own destinations, and each of them for some hash; which one is `SeekExactly`. |
| Destinations.SeekExactly | src/obj/destbank.cc:84-91 | A hash counts from the start of the name's list of destinations, and goes round it; an unknown name selects nothing. |
| Destinations.DestinationBank.Load | src/obj/destbank.cc:43-82 | Fails exactly when a group names an unknown destination, and then changes nothing; otherwise every name with destinations lists exactly those, without repeats and never none, and names loaded before are kept. |
| Destinations.AddGroup | src/obj/destbank.cc:64-75 | Adds exactly the members of one group to the name's destinations, or fails at an unknown member. |
| FanOut.Choose | src/obj/emitters.cc:72-115 | Chooses an entry that works and that no other working entry beats in matching destinations, or none exactly when no working entry can talk to any of them. |
| FanOut.CountMatching | src/obj/emitters.cc:72-82 | The count is the number of the destinations that the entry can talk to. |
| FanOut.Ranked | src/obj/emitters.cc:88-92 | The entries stay in descending order of their counts, with just the new one added. |
| FanOut.EmitterMaker.constructor | src/obj/emitters.cc:60-116 | What is matched is exactly the destinations that the chosen entry can talk to. |
| FanOut.EmitterMaker.Make | src/obj/emitters.cc:124-140 | A fresh emitter takes exactly the matched destinations, and they are no longer required. |
| FanOut.Erode | src/obj/tcp_egress.cc:299-314 | The loop ends; on success each destination has a fresh emitter that can talk to it and was served by some round; on failure some destination is served by no entry of the last round. |
| FanOut.ClientState.Create | src/obj/tcp_egress.cc:265-328 | Each label goes exactly to the distinct destinations that its names select, each through a fresh emitter that can talk to it; unknown names are passed over, and a label without destinations goes nowhere. |
| FanOut.ClientState.Deliver | src/obj/tcp_egress.cc:374-391 | A payload goes to every destination of its label, to none twice, each through that destination's emitter; an unknown label is ignored. |
| FanOut.Resolve | src/obj/tcp_egress.cc:276-297 | The destinations required are exactly those that the names of some label select. |

## Left out

- PayloadQueues.PayloadQueue.Start: the queue as an object holds its own entry of the quota manager; queues that share a manager are modelled on values (`SharedQuota.dfy`).
- Quotas.Quota.Check: what a user does when asked is a reply, an amount or nothing; `SharedQuotas.AskJoins` gives the replies of payload queues.
- EgressObjects.Connection.HandleAll: does not go on after an exception, which leaves a whole message in the buffer.
- TunnelLinks.StepLink: does not cover a source that becomes ready in the timer's window with nothing waiting; what happens then is `WindowExact` and `WindowRunFails`.
- TunnelLinks.BindFailureRepeats: connecting ends in the model because scripts are finite; a bind that fails for ever is not modelled.
- Scheduling.Scheduler.Do: a call of a handler that throws is not part of the runs; `SignalSet`, `SignalCancel`, `Prio` and `DescriptorSet` say what a call that throws leaves behind.
- Scheduling.Scheduler.Poll: the order in which the members of one bucket or queue are visited is arbitrary, as that of a set of pointers is, and times are natural numbers of nanoseconds.
- Scheduling.Scheduler.RaiseSignal: in a poll the system is taken to accept changes to the watched set.
- ClientIds.ClientTable.Seek: asks for a free id when the address is new, since the search goes on for ever without one.
- FanOut.ClientState.Create: destinations are resolved beforehand, and an exception while resolving one is not modelled.
- FanOut.Ranked: entries of equal count come in the order of the list; the code leaves that to the sorting function.
- QueueRuns.Conservation: a restart with a first key of zero is not part of the runs; `RestartThroughDirectory` says that the directory cannot be read after it.
- Exceptions of the system in the sending end: `getsockopt`, `fcntl`, `epoll_ctl`, and looking up the address to bind to.
- Failed address lookups, which leave the lookup outstanding for ever, and the resolver's thread.
- The flags of a descriptor event in the scheduler; they are modelled where the sender uses them (`Tunnel.dfy`).
- Destroying an event that is still queued or set, and events created by a handler while a queue is drained.
- The copy of an idle event that a channel's queue holds in its callback: it is taken to be the channel's own event.
- Listeners, peers, accepting connections, rebinding, and the expiry of client states.
- Storing the table of client ids: the addresses that are read back are not kept by the code.
- `unget` and the exits that would use it, which are not built.
- Configuration, logging, descriptions in JSON, durations and quotas as text, and the sockets, files and signals of the system itself.
