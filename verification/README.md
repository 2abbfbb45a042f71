# Verified model of the hypercore replication protocol

A Dafny model of `hypercore-protocol-rs`: the wire format, the channel table, the protocol state
machine with its message queue, two endpoints over a connection, and the replication dialogue of the
example program. `dafny verify dfyconfig.toml` checks everything.

## How it is organised

| file | module | what it holds |
|---|---|---|
| Compact.dfy, Schema.dfy, Messages.dfy | `Compact`, `WireSchema`, `Messages` | integers, byte strings, flag bytes, records and messages, with sizes, encoders and decoders |
| Framing.dfy, FrameTheorems.dfy | `Framing`, `FrameTheorems` | lists of messages in one buffer: the encoding and decoding loops, and what survives them |
| WireFormat.dfy | `WireFormat` | the bytes of every kind of message written out, and buffers that are refused |
| MessageQueue.dfy | `MessageQueue` | the class `MessageIo`: queue, batching into frames, incoming stream, delivery |
| Handshake.dfy | `Handshake` | keys and capabilities |
| Channels.dfy, ChannelMap.dfy, TableRuns.dfy | `Channels`, `ChannelMaps`, `TableRuns` | the channel table as a value, the class `ChannelMap`, and what holds after any sequence of operations |
| ProtocolModel.dfy, Polls.dfy, Protocol.dfy | `ProtocolModel`, `Polls`, `Protocols` | each step of the protocol as a function, one poll as a function, and the class `Protocol` that does the same in place |
| EventTheorems.dfy, ChannelTheorems.dfy, ChannelLifetime.dfy | same names | theorems about every run: events, capabilities, closed flags, demultiplexing |
| Views.dfy, Peers.dfy, Sessions.dfy | same names | two endpoints over first-in first-out links of messages |
| FrameSessions.dfy | `FrameSessions` | two endpoints that exchange encoded frames, with either decoder |
| PollTheorems.dfy | `PollTheorems` | what polls do in which order, when they fail, and that reading and writing are what the sessions take them to be |
| Deliveries.dfy, FrameDeliveries.dfy | `Deliveries`, `FrameDeliveries` | what arrives in the inboxes over whole sessions, of messages and of frames |
| SessionExamples.dfy, FrameExamples.dfy | same names | complete runs of two endpoints that show where things go wrong |
| Replication.dfy, Dialogue.dfy | same names | the example's `onpeer` and `onmessage` (class `Replica`), and whole dialogues |

The classes have the fields of the source's structs and the loops of the source's methods. Each
method's postcondition equates its new state with a function of the old one, and the theorems are about
those functions: `Run` applies any list of protocol steps, `AfterAll` any list of polls, failed ones
included, `Play` any list of moves of two endpoints, `Converse` any list of replication events.

The main results are `FrameRoundTripExactly`, `StreamRoundTripExactly`, `MessageIo.Delivery`,
`VectorLengthIsPeak`, `CreateCloseConservation`, `HandshakeComesFirst`, `CapabilitySafety`,
`ClosedFlagSoundness`, `LifeOfChannel`, `SessionSafety`, `FrameSafety`, `TablesAgree`, `Isolation`,
`SessionDelivery`, `FrameDelivery`, `HandledExactly`, `PollReturns`, `PollFailsExactly`,
`TakingIsReading` and `ReplicationProgress`.

## Where the code does not do what it intends

Six properties the code aims at do not hold of it without a condition. The model keeps the code as it
is and proves the exact condition.

- A batch that changes channel. The encoder writes a zero byte and the new channel
  (src/message.rs:490-494); the decoder reads the zero byte itself as the new channel
  (src/message.rs:58-60). The variant `AsWritten` is that decoder and `SeparatorSkipped` the one that the
  encoder expects; they are kept apart. A frame is read back by the first if and only if it stays on one
  channel (and, for an Open, has a body of more than five bytes): `FrameRoundTripExactly`, with
  `ChannelChangeExample`. Otherwise it returns the messages before the first change followed by messages on
  channel zero, or it fails: `FrameMisread`. The second reads every frame back: `FrameRoundTrip`.
- A session over several channels. Messages of two channels that wait for the transport go into one
  frame (src/mqueue.rs:76-94), so the failure above happens between well-behaved users:
  `TwoChannelFailure`. Not every frame that changes channel fails. With `Cancel(0)` in place of
  `Cancel(7)` the bytes parse, and the second message is silently lost: `TwoChannelLoss`. A sender can
  tell when that is impossible: the first message after the change has ten bytes or more, or its channel
  number exceeds the bytes that follow it (`LegibleIsShort`). Over every session every buffer taken in
  decodes to the messages it was made from if and only if every frame is readable: `LosslessExactly`.
- A dropped receiver. A message for it makes the step fail (src/channels.rs:311-319,
  src/protocol.rs:300-315), and the rest of its frame, also for other channels, is lost with it:
  `DroppedReceiverExample`. Over every session of messages nothing fails if and only if no message is
  delivered to a dropped receiver: `SessionSafety`. Over every session of frames nothing fails if and only
  if every frame taken in is legible, that is, it stays on one channel or the bytes after its first
  separator parse as a batch, and no message handed over is for a dropped receiver: `FrameSafety`. With
  the decoder that skips separators only the second condition is left: `SkippingFailsExactly`. All messages
  taken in are handled if and only if no frame is misread and no message is for a dropped receiver
  (`HandledExactly`), and then every inbox is complete (`FrameDelivery`). The channel tables agree and
  inboxes stay separate in every case: `FrameSessions.TablesAgree`, `FrameSessions.Isolation`.
- Exact index vectors. Opening an attached key again leaves a stale slot in the local vector, and reusing
  a live remote id or reopening a key remotely one in the remote vector (src/channels.rs:364-394). Each
  vector stays exact along a run if and only if its own side does not do that: `RunExact`, with
  `DoubleOpenExample`.
- `Command::Close` sends nothing (src/protocol.rs:358-364). Afterwards the two tables end up in
  agreement if and only if there was nothing to close, or the key was open and a Close for the peer's
  channel is in flight: a Close of the remote id the key has or, if it has none yet, an Open for the key
  followed by the Close of its id. `CommandCloseExactly`, with `CommandCloseExample`.
- A Close that is handled after its local id has gone to another key (src/protocol.rs:237-257, 403-409)
  closes that key. In any state it closes no key but its own if and only if its id is free, or leads to
  its own key, or leads to a key that is gone: `StaleCloseExactly`. Between two endpoints the tables end up
  in agreement if and only if the id is free, or its key is connected, or no Open for that key is in
  flight, or the Close of that Open's id is in flight behind it: `OutboundCloseExactly`.
  `OutboundCloseExample` is a run in which it happens: both users close a connected channel, the peer's
  Close frees the id before the own one is handled, and the next key gets the id.

## Assumptions

- The compact encoding: an unsigned integer below 0xfd is one byte; otherwise a tag byte 0xfd, 0xfe or
  0xff is followed by 2, 4 or 8 bytes, little-endian (`IntegerBytes`). Byte strings and text have their length in front,
  word arrays their count, each word four bytes little-endian. `usize` has 64 bits.
- The records of the `hypercore_schema` crate have codecs about which nothing is known but that they are
  self-delimiting and announce their sizes correctly (`Sound` in `WireSchema`). Decoding, its termination
  and its bounds need not even that.
- Strings are their UTF-8 bytes; validity is an unknown predicate that strings sent satisfy.
- Discovery keys and capabilities are unknown functions. That no two keys share a discovery key is
  assumed only in the theorems about two endpoints. The hex strings that index the source's map are
  replaced by the discovery keys.
- Two endpoints start with both handshakes complete and one handshake hash. Before that no message of the
  other side can be read.
- The transport delivers frames in order. How ready it is, what the stream, the command queue and the
  channels have ready, and when the handshake completes are arguments.
- The `hypercore` store is a log with some blocks present: it proves the blocks it has and upgrades up to
  its length, and applies such proofs. Merkle nodes and signatures are unknown functions.

## Model

| member | source | states |
|---|---|---|
| WireSchema.OpenRoundTrip | src/schema.rs:23-73 | an Open with a 32-byte capability is self-delimiting; one without must end the buffer |
| WireSchema.SynchronizeRoundTrip | src/schema.rs:117-156 | a Synchronize followed by any bytes is read back, with those bytes left |
| WireSchema.RequestRoundTrip | src/schema.rs:215-276 | the same for a Request, whichever of its four parts and its priority are present |
| WireSchema.RequestSize | src/schema.rs:194-213 | a Request takes as many bytes as announced, an absent priority none |
| WireSchema.DataRoundTrip | src/schema.rs:352-389 | the same for a Data message and its four optional parts |
| WireSchema.DataSize | src/schema.rs:342-350 | a Data message takes as many bytes as announced |
| WireSchema.PairRoundTrip | src/schema.rs:438-481 | the same for Want and Unwant |
| WireSchema.BitfieldRoundTrip | src/schema.rs:491-507 | the same for a Bitfield of any number of words |
| WireSchema.RangeRoundTrip | src/schema.rs:522-563 | the same for a Range, also when its length of one is carried by a flag alone |
| WireSchema.ExtensionRoundTrip | src/schema.rs:573-589 | the same for an Extension |
| Messages.MessageRoundTrip | src/message.rs:195-243 | every message other than Open, Close and LocalSignal is self-delimiting |
| Messages.MessageSize | src/message.rs:171-193 | every message takes as many bytes as announced, an ordinary one at least two |
| Framing.EncodedSize | src/message.rs:91-115 | the size loop returns the exact number of bytes of any list, control messages inside batches included |
| Framing.WriteBatch | src/message.rs:485-501 | a batch is laid out item by item in place, or refused exactly when the buffer is too short |
| Framing.VecEncode | src/message.rs:465-503 | encoding fills exactly the bytes of the list, leaves the rest of the buffer alone, and fails exactly when there is no room |
| Framing.ToEncodedBytes | src/mqueue.rs:96-102 | a buffer of the announced size is filled completely, so encoding never fails |
| Framing.DecodeUnframedMessages | src/message.rs:16-89 | the decoding loop terminates on every buffer and agrees with the recursive decoder, errors included |
| Framing.VecDecode | src/message.rs:505-518 | decoding a buffer terminates, stays in bounds and on success leaves nothing unread |
| FrameTheorems.BatchRoundTrip | src/message.rs:28-62 | a batch is read back in full by the skipping decoder, and by the source's if no channel changes |
| FrameTheorems.BatchMisread | src/message.rs:55-60 | for every batch with a channel change the source's decoder returns the messages before the first change followed by what it makes of the bytes after the separator on channel 0, and fails exactly if it makes nothing of them |
| FrameTheorems.SingleRoundTrip | src/message.rs:63-82 | a lone message is read back and decoding stops where it ends, whatever follows; an Open without a capability must end the buffer |
| FrameTheorems.FrameRoundTrip | src/message.rs:465-518 | every frame the queue can produce is read back in full once separators are skipped |
| FrameTheorems.FrameRoundTripExactly | src/message.rs:16-89 | the source's decoder reads a frame back if and only if it keeps its channel and its Open body is longer than five bytes |
| FrameTheorems.FrameMisread | src/message.rs:16-89 | the same for a whole frame; what it makes of the bytes is at least one message, all of them ordinary and on channel 0, so nothing reaches another live channel |
| FrameTheorems.ShortOpen | src/message.rs:352-360 | an Open body of five bytes or fewer is refused |
| FrameTheorems.ChannelChangeExample | src/message.rs:489-498 | Cancel(7) on channels 1 and 2 in one frame: the source's decoder fails and the skipping one reads it back |
| FrameTheorems.SilentMisreadExample | src/message.rs:55-60 | Cancel(0) on channels 1 and 2 in one frame: the source's decoder succeeds with Cancel(0) on channel 1 and a Cancel(2) on channel 0 that was never sent |
| FrameTheorems.ZeroBatch | src/message.rs:55-60 | once on channel 0 the source's decoder stays there to the end of the buffer |
| FrameTheorems.GarbledIsShort | src/message.rs:37-60 | the bytes after a separator are misread without a failure only if the first message after it is under ten bytes and its channel does not exceed the bytes that follow |
| FrameTheorems.Concatenation | src/message.rs:505-518 | self-delimiting frames can be joined in one buffer and any one frame may come last |
| WireFormat.OpenBytes | src/schema.rs:38-46 | an Open alone: 0 1, its channel, its protocol and discovery key with their lengths, and for a capability a zero byte and the capability |
| WireFormat.CloseBytes | src/schema.rs:87-89 | a Close alone: 0 3 and its channel |
| WireFormat.SynchronizeBytes | src/schema.rs:122-133 | a Synchronize alone: channel, type 0, the flags 1 can upgrade, 2 uploading, 4 downloading, then fork, length and remote length |
| WireFormat.RequestBytes | src/schema.rs:215-243 | a Request alone: channel, type 1, the six flags, id, fork, the records that are there in order, and a priority if not zero |
| WireFormat.DataBytes | src/schema.rs:352-365 | a Data message alone: channel, type 3, the four flags, request, fork and the records that are there in order |
| WireFormat.IntegerMessageBytes | src/message.rs:247-261 | Cancel, NoData, Want and Unwant alone: channel, types 2, 4, 5 and 6, and their one or two integers |
| WireFormat.BitfieldBytes | src/schema.rs:496-498 | a Bitfield alone: channel, type 7, start, number of words, and four bytes for each word at its place |
| WireFormat.RangeBytes | src/schema.rs:531-540 | a Range alone: channel, type 8, the flags 1 drop and 2 one block, start, and a length unless it is one |
| WireFormat.ExtensionBytes | src/schema.rs:578-580 | an Extension alone: channel, type 9, name and message with their lengths |
| WireFormat.PairBytes | src/message.rs:485-499 | two messages: 0 0, the first channel, each message with its size in front, and a zero byte and the new channel between them if it differs |
| WireFormat.LongerBytes | src/message.rs:485-499 | one more message adds to a batch only its own bytes, after a zero byte and its channel if that differs from the last |
| WireFormat.Refusals | src/message.rs:16-89 | one byte, an unknown special prefix, an Open of under six bytes and an unknown message type are refused, each with its error |
| MessageQueue.MessageIo.constructor | src/mqueue.rs:44-49 | a new queue has nothing enqueued and nothing sent |
| MessageQueue.MessageIo.Enqueue | src/mqueue.rs:61-63 | a message is added last and remembered as enqueued |
| MessageQueue.MessageIo.TakeFrame | src/mqueue.rs:83-94 | the inner loop takes exactly the first frame: a lone Open or Close, or the longest run without one |
| MessageQueue.MessageIo.SendFrame | src/mqueue.rs:96-106 | the frame moves from the queue to the transport, or is lost if the transport refuses it |
| MessageQueue.MessageIo.PollOutbound | src/mqueue.rs:67-122 | what is sent is the first frames into which the queue is cut, one for each turn in which the transport takes and flushes a frame and one more if it takes but does not flush the next; it fails if and only if that next frame is refused or its flush fails, is pending if and only if the transport was never ready or that flush is pending, and loses exactly a frame that is refused |
| MessageQueue.OutcomeExactly | src/mqueue.rs:70-121 | the same of the function that the other theorems use |
| MessageQueue.FramesPartition | src/mqueue.rs:76-94 | cutting a queue loses nothing, puts every Open and Close alone, and yields frames that can be read back if its messages can be carried |
| MessageQueue.StreamRoundTrip | src/mqueue.rs:126-154 | a receiver that skips separators gets every message of every frame, in order |
| MessageQueue.StreamRoundTripExactly | src/mqueue.rs:126-154 | the source's receiver does if and only if no frame changes channel and no Open is too short |
| MessageQueue.MessageIo.Delivery | src/mqueue.rs:61-122 | what a receiver decodes from the frames sent, followed by the queue, is everything enqueued, in order |
| MessageQueue.MessageIo.PollInbound | src/mqueue.rs:126-154 | handshake payloads are skipped and the last one remembered; nothing is returned if and only if nothing else is ready; a stream failure is an error, and a buffer its decoded messages or, if and only if it does not decode, an error |
| Handshake.MutualAcceptance | src/crypto/handshake.rs:65-119 | two sides of one connection accept each other's capabilities for the same key |
| Channels.FreeSlot | src/channels.rs:492-506 | the slot found is the least free one |
| Channels.AttachLocal | src/channels.rs:364-376 | keeps the unconditional invariant: handles under their own keys, ids in bounds, local ids indexing back, open flags owned by handles present |
| Channels.AttachRemote | src/channels.rs:378-394 | keeps the unconditional invariant even when the remote side reuses ids or reopens keys |
| Channels.Remove | src/channels.rs:433-445 | never indexes out of range and keeps the unconditional invariant |
| Channels.Accept | src/channels.rs:455-468 | keeps the unconditional invariant |
| Channels.Forward | src/channels.rs:470-490 | keeps the unconditional invariant |
| Channels.ForwardEffect | src/channels.rs:481-490 | forwarding touches nothing but the messages of inboxes |
| Channels.AttachLocalExact | src/channels.rs:364-376 | a local attach keeps the local vector an exact inverse if and only if the key was not locally attached, and the remote one always |
| Channels.AttachRemoteExact | src/channels.rs:378-394 | a remote attach keeps the remote vector exact if and only if the id is free or the key's own and the key has no other, and the local one always |
| Channels.RemoveExact | src/channels.rs:433-445 | removing keeps each vector exact |
| Channels.LookupAgreesWithSearch | src/channels.rs:396-426 | if the local vector is exact lookup by local id agrees with searching all handles, if the remote one is, lookup by remote id |
| ChannelMaps.ChannelMap.constructor | src/channels.rs:354-362 | a new table is empty and slot zero is out of use |
| ChannelMaps.ChannelMap.AllocLocal | src/channels.rs:492-506 | the search loop finds the first free slot after slot zero, or grows the vector by one |
| ChannelMaps.ChannelMap.AllocRemote | src/channels.rs:508-514 | the slot exists, and assigning it gives the vector with just that slot changed |
| ChannelMaps.ChannelMap.AttachLocal | src/channels.rs:364-376 | the object holds the table with the key attached at the least free id |
| ChannelMaps.ChannelMap.AttachRemote | src/channels.rs:378-394 | the object holds the table with the key attached at the given id |
| ChannelMaps.ChannelMap.Remove | src/channels.rs:433-445 | the object holds the table without the key, its slots cleared and its flag closed; no index is out of range |
| ChannelMaps.ChannelMap.Accept | src/channels.rs:455-468 | a connected handle gets a fresh inbox and its channel is returned; otherwise nothing changes |
| ChannelMaps.ChannelMap.ForwardInboundMessage | src/channels.rs:470-479 | the message is put last into the right inbox, or ignored, or refused with nothing changed |
| ChannelMaps.ChannelMap.ForwardInboundMessageTolerateClosed | src/channels.rs:481-490 | the same, with a missing inbox or receiver tolerated |
| TableRuns.LocalIdsDistinct | src/channels.rs:364-376 | after any operations distinct handles have distinct local ids, none zero |
| TableRuns.ApplyExact | src/channels.rs:364-445 | an operation keeps each exact vector exact if and only if its own side is disciplined |
| TableRuns.RunExact | src/channels.rs:364-445 | the local vector stays exact throughout a run if and only if no attached key is reopened locally, the remote one if and only if no live id is reused remotely |
| TableRuns.DoubleOpenExample | src/channels.rs:364-376 | opening a key twice leaves slot 1 leading to a handle with another local id |
| TableRuns.LeastFree | src/channels.rs:492-506 | a new local id is at least one and everything below it is in use |
| TableRuns.ApplyGrowth | src/channels.rs:492-506 | the vector grows only when every slot is occupied, and by one |
| TableRuns.LengthFromPeak | src/channels.rs:364-376 | over any run the vector is as long as the largest number of slots ever occupied at once requires |
| TableRuns.OccupiedIsAttached | src/channels.rs:354-376 | if the local vector is exact its occupied slots are as many as the locally attached channels |
| TableRuns.VectorLengthIsPeak | src/channels.rs:354-376 | without local double opens the vector is one longer than the peak number of channels attached at once, whatever the remote side does |
| TableRuns.RunKeepsCells | src/channels.rs:339-343 | flags are never reused and never cleared |
| TableRuns.LeavingClosesForGood | src/channels.rs:433-445 | a channel whose handle left the table is closed for good, also when its key is opened again |
| EventTheorems.StepNet | src/protocol.rs:331-422 | every step keeps, for every key, handles created minus Close events queued minus handles present |
| EventTheorems.CreateCloseConservation | src/protocol.rs:358-422 | on every run handles created are Close events plus one exactly if the key is present, on all closing paths |
| EventTheorems.EventOrder | src/protocol.rs:195-222 | on every run the handshake event is returned at most once and all others in the order queued |
| EventTheorems.SignalsStayLocal | src/protocol.rs:276-297 | no local signal reaches the write queue, and nothing enqueued is taken back |
| EventTheorems.KeptIsFilter | src/protocol.rs:286-290 | dropping local signals from a batch works message by message and keeps the order |
| EventTheorems.KeptWhole | src/protocol.rs:286-290 | a batch without local signals is sent as it is |
| EventTheorems.SignalsBecomeEvents | src/protocol.rs:237-257 | every local signal of a batch without Close becomes one event, in order, and the rest is sent |
| ProtocolModel.ProtocolName | src/constants.rs:5 | the protocol name sent with every Open spells "hypercore/alpha" |
| ChannelTheorems.AcceptOutcome | src/protocol.rs:394-401 | accepting by a handle's own id resolves to that handle and fails only on the capability or without a handshake |
| ChannelTheorems.CommandOpenOutcome | src/protocol.rs:331-356 | opening a key never fails with "not found" or "not opened"; on success the key's own channel is announced if connected, and one Open is sent |
| ChannelTheorems.OnOpenOutcome | src/protocol.rs:372-386 | the same for an inbound Open, which otherwise announces the discovery key |
| ChannelTheorems.TrafficOutcome | src/protocol.rs:308-318 | any other inbound message is put last into the inbox of the channel that its id names and changes nothing else; it fails exactly if that channel has no inbox or no receiver, and is ignored if there is none |
| ChannelTheorems.RunProvenance | src/protocol.rs:331-401 | on every run both halves of every handle go back to a local open and a remote Open |
| ChannelTheorems.CapabilitySafety | src/protocol.rs:425-458 | every channel announced was opened locally and by a remote Open with the capability of the opposite role for that key and handshake |
| ChannelLifetime.ProtocolRefinesTable | src/protocol.rs:307-422 | every protocol run is a run of table operations, so their theorems carry over |
| ChannelLifetime.ClosedFlagSoundness | src/channels.rs:88-105 | on every run a channel whose handle left the table refuses to send, then and ever after |
| ChannelLifetime.StepKeepsReceiving | src/channels.rs:296-309 | no step but a user's drop takes a receiver away |
| ChannelLifetime.AcceptedIsTuned | src/channels.rs:289-309 | a channel accepted while the remote vector is exact receives on its remote id, through an empty inbox |
| ChannelLifetime.Demultiplexing | src/protocol.rs:300-318 | while a channel lives undisturbed its inbox gets exactly the messages tagged with its remote id, in order |
| ChannelLifetime.CloseEndsChannel | src/protocol.rs:411-422 | an inbound Close is the last message of its inbox; the channel is removed, closed and reported, and no other is touched |
| ChannelLifetime.StepKeepsRemoteExact | src/protocol.rs:372-386 | a step keeps the remote vector exact if an inbound Open reuses no live id, whatever the local side does |
| ChannelLifetime.AnnouncedIsTuned | src/protocol.rs:394-401 | a channel receives on the remote id of its key from the moment it is announced |
| ChannelLifetime.LifeOfChannel | src/protocol.rs:300-422 | from a new protocol on: after a channel is announced its inbox holds exactly the messages tagged with its remote id, in order, until it is disturbed; a Close on that id comes last, and the channel is gone |
| Views.OpenAgrees | src/protocol.rs:331-356 | opening an unattached key keeps two sides bound to agree, whatever is in flight |
| Views.CloseAgrees | src/protocol.rs:403-409 | closing a connected key keeps them bound to agree, also if both close at once |
| Views.StaleCloseAgrees | src/protocol.rs:237-247 | a Close for an id no longer in use is harmless |
| Views.TrafficAgrees | src/protocol.rs:286-290 | a message finds the channel of its own key or none, however ids are reused |
| Views.ReceiveAgrees | src/protocol.rs:308-318 | receiving the next message keeps them bound to agree, and the message fits |
| Views.HalfCloseExactly | src/protocol.rs:403-409 | closing a half-open channel breaks agreement if and only if the peer's Open is on its way and the end of its id is not |
| Views.SilentCloseExactly | src/protocol.rs:358-364 | removing a key silently keeps agreement if and only if there was nothing to remove, or the key was open and the end of the peer's id for it is on its way |
| Views.ConnectedUntilEnd | src/protocol.rs:411-422 | a connected key is still connected after everything in flight if and only if the end of its remote id is not among it |
| Views.HalfOpenLater | src/protocol.rs:372-386 | a half-open key is connected after everything in flight if and only if an Open for it is among it and not the end of that id |
| Peers.OpenStep | src/protocol.rs:331-356 | a well-behaved open succeeds, gets an unused id, and keeps the peer in order |
| Peers.ReceiveOpenStep | src/protocol.rs:372-386 | an honest peer's Open that fits is always accepted |
| Peers.ReceiveCloseStep | src/protocol.rs:411-422 | a Close removes exactly the key under its remote id from both sides of the table |
| Peers.ReceiveOtherStep | src/protocol.rs:313-315 | a message that fits reaches no inbox but that of its own key; it is refused, with nothing changed, if and only if the receiver of that key has been dropped |
| Peers.FlushTrafficStep | src/protocol.rs:285-292 | handling a batch without Close sends it and leaves the table alone |
| Peers.FlushCloseStep | src/protocol.rs:237-247 | handling a channel's Close removes its key if its id is still in use, which is then connected |
| Peers.SendStep | src/channels.rs:93-143 | sending on an announced channel is refused if closed and otherwise uses a connected id |
| Peers.CloseStep | src/channels.rs:163-173 | closing an announced channel queues one Close, sets its flag and changes no id |
| Peers.EventStep | src/protocol.rs:193-206 | returning an event or queueing a local signal leaves table, outbox and order alone |
| Peers.DropStep | src/channels.rs:289-309 | dropping a receiver leaves ids, outbox and order alone |
| Sessions.MoveKeeps | src/protocol.rs:331-422 | every permitted move of either side keeps the session in order, and fails if and only if it delivers a message to a dropped receiver |
| Sessions.SessionSafety | src/protocol.rs:331-422 | between well-behaved users whose messages are handed over as sent, in any order of moves and deliveries and with any receivers dropped: the session stays in order, and no step fails if and only if no message is delivered to a dropped receiver |
| Sessions.NoDropsNeverFails | src/protocol.rs:331-422 | while no user drops a receiver no step of either side ever fails |
| Sessions.TablesAgree | src/protocol.rs:331-422 | when nothing is in flight the tables of both sides mirror each other, under simultaneous closes, id reuse and dropped receivers |
| Sessions.ReplayIsLocal | src/channels.rs:364-445 | at any time replaying what is in flight gives an id a key only if the sender has that key under that local id |
| Sessions.Isolation | src/protocol.rs:307-318 | at any time a message handed over was sent on a channel of the same key and no other inbox changes; it is refused if and only if its receiver has been dropped |
| Sessions.CommandCloseExactly | src/protocol.rs:358-364 | closing by discovery key leaves the tables bound to agree if and only if there was nothing to close, or the key was open and a Close for the peer's id is in flight |
| Sessions.OutboundCloseExactly | src/protocol.rs:403-409 | handling an outbound Close, whoever sent it, leaves the tables bound to agree if and only if its id is free, its key connected, or no Open for the key in flight without a Close behind it |
| Sessions.StaleCloseExactly | src/protocol.rs:403-409 | in any state, handling a Close sent on a channel closes no key but that channel's if and only if its id is free, or leads to that key, or to a key that is gone |
| SessionExamples.CommandCloseExample | src/protocol.rs:358-364 | opening a key and closing it by discovery key leaves the tables bound to disagree |
| SessionExamples.OutboundCloseExample | src/protocol.rs:403-409 | a run of permitted moves after which opening a key gives it the id of a pending Close, which then closes it and leaves the tables bound to disagree |
| FrameSessions.SendKeeps | src/mqueue.rs:76-102 | cutting and encoding the next frame never fails and changes nothing of what is in flight |
| FrameSessions.TakeKeeps | src/protocol.rs:261-318 | taking in a buffer keeps the session in order with either decoder; it fails if and only if the frame is not legible or a message handed over is for a dropped receiver, and has the effect of the messages before that |
| FrameSessions.MoveKeeps | src/protocol.rs:184-318 | every permitted act, cut and delivery keeps the session in order; only an illegible buffer and a message for a dropped receiver fail, each as such |
| FrameSessions.FrameSafety | src/protocol.rs:184-318 | over every session of encoded frames, with either decoder and any receivers dropped: the session stays in order, and nothing fails if and only if every buffer taken in is legible and no message handed over is for a dropped receiver |
| FrameSessions.NoDropsAllHeard | src/protocol.rs:184-318 | while no user drops a receiver every message handed over is heard |
| FrameSessions.LegibleIsShort | src/message.rs:37-60 | a frame that changes channel is legible only if the first message after the change is under ten bytes and its channel does not exceed the bytes that follow |
| FrameSessions.LosslessExactly | src/message.rs:16-89 | over every session with the source's decoder: every buffer taken in decodes to exactly the messages it was made from if and only if every frame taken in is readable, and then nothing fails but the delivery to dropped receivers |
| FrameSessions.SkippingFailsExactly | src/message.rs:16-89 | over every session on a fresh connection, with the decoder that skips separators, nothing fails if and only if no message handed over is for a dropped receiver, and so never while no user drops one |
| FrameSessions.TablesAgree | src/protocol.rs:331-422 | with either decoder and any receivers dropped, when no frame and no message is on its way the tables of both sides mirror each other |
| FrameSessions.Isolation | src/protocol.rs:300-318 | with either decoder, at any time, taking in a frame of ordinary messages adds to each inbox exactly the messages of that frame that lead to it, in order, up to the first lost to the decoder or to a dropped receiver, and all of them were sent on a channel of the same key |
| FrameExamples.TwoChannelFailure | src/mqueue.rs:76-94 | a session of permitted moves in which Cancel(7) on two channels goes into one frame and the other side fails to decode it |
| FrameExamples.TwoChannelLoss | src/mqueue.rs:76-94 | the same session with Cancel(0): nothing fails, the first inbox gets its message and the second stays empty |
| FrameExamples.DroppedReceiverExample | src/protocol.rs:300-315 | a session of permitted moves in which the receiver of one channel is dropped: a frame for two channels fails, and the message of the other channel is lost |
| Deliveries.SessionComplete | src/protocol.rs:300-422 | every move of a session keeps the inbox of every connected key equal to what was received on its id since the peer's Open, unless its receiver has been dropped |
| Deliveries.SessionDelivery | src/protocol.rs:300-422 | at any time of any session: the inbox of a connected key, followed by the messages in flight on its id, is everything the peer sent on its channel of that key since its Open, in order |
| FrameDeliveries.FrameDelivery | src/mqueue.rs:67-154 | the same over encoded frames, in every session in which every message of every buffer taken in was handled |
| FrameDeliveries.HandledExactly | src/message.rs:16-89 | over every session every message of every buffer taken in is handled if and only if no frame is misread and no message is for a dropped receiver, and then nothing fails |
| Polls.PollKeepsHandshakeFirst | src/protocol.rs:184-223 | a poll that does not fail keeps the handshake event ahead of all others |
| Polls.HandshakeComesFirst | src/protocol.rs:184-223 | from a new initiator on, after any polls, failed ones included, the first event ever returned is the handshake, if the remote key is known no later than the hash |
| Polls.AfterAllIsRun | src/protocol.rs:184-223 | any list of polls, failed ones included, is a run of steps, so the theorems about runs hold of it |
| Polls.AttemptExactly | src/protocol.rs:226-234 | of steps made in order up to the first failure none fails but the last, and that one as reported |
| Polls.QueueToSteps | src/protocol.rs:261-318 | frames sent by one queue, none changing channel, become as many inbound steps of the other side as messages were enqueued, the i-th of them for the i-th message, unchanged |
| Polls.PollIsRun | src/protocol.rs:184-223 | a poll that does not fail is a run of steps |
| Polls.PollReturns | src/protocol.rs:184-223 | a poll records as returned exactly the event it returns, if any; if it returns none no event is left queued, but for an initiator without a handshake hash |
| Polls.UnreadableIs | src/mqueue.rs:126-154 | an event of the stream makes reading fail if and only if it is a stream failure or a buffer that does not decode |
| Polls.WriteExactly | src/protocol.rs:276-297 | writing fails if and only if in some round, with what is queued by then, the transport refuses a frame or fails to flush it |
| PollTheorems.CommandsInOrder | src/protocol.rs:226-234 | the first command is executed first |
| PollTheorems.OpensInOrder | src/protocol.rs:226-234 | on a protocol without channels commands to open distinct keys succeed, give them the ids from one on and queue their Opens, in the order of the commands |
| PollTheorems.CommandSignalsBecomeEvents | src/protocol.rs:366-369 | commands to signal become one event each, in order, with name and data, and change nothing else |
| PollTheorems.BatchesInOrder | src/protocol.rs:285-292 | batches handled one after the other have the effect of all their messages in order |
| PollTheorems.MainInOrder | src/protocol.rs:207-215 | the main part of a poll reads, then executes commands, then handles batches |
| PollTheorems.EarlyInOrder | src/protocol.rs:187-194 | only an initiator without a handshake hash does something before that: it handles batches, then reads |
| PollTheorems.QueuedFirst | src/protocol.rs:195-206 | the handshake event is returned as soon as the remote key is known, and otherwise the oldest event queued; such a poll neither reads nor executes commands nor writes |
| PollTheorems.WorkFirst | src/protocol.rs:208-222 | with nothing to return a poll reads, executes commands and handles batches, and returns the oldest event queued after that, if any |
| PollTheorems.InitiatorWaits | src/protocol.rs:187-194 | an initiator without a handshake hash handles batches and reads, and waits if it still has none |
| PollTheorems.StreamLearns | src/mqueue.rs:126-154 | after reading, handshake hash and remote key are those of the last handshake payload, or unchanged if there was none |
| PollTheorems.HandleIsAttempt | src/protocol.rs:300-305 | the steps for decoded messages do what the sessions do with them, up to the first failure |
| PollTheorems.TakingIsReading | src/protocol.rs:261-305 | reading a buffer gives the same state, and fails in the same way, as taking it in does in the sessions of frames, so `FrameSafety`, `Isolation` and `FrameDelivery` are about `PollInboundRead` |
| PollTheorems.SendingIsCutting | src/mqueue.rs:76-102 | the frames that the sessions put on their way are those into which the queue is cut |
| PollTheorems.AttemptFails | src/protocol.rs:226-234 | making steps in order fails if and only if one of them fails when its turn comes |
| PollTheorems.ReadingFails | src/protocol.rs:261-272 | reading fails if and only if one of its steps does or an event of the stream cannot be read |
| PollTheorems.PollFailsExactly | src/protocol.rs:184-223 | a poll fails if and only if it begins with writing and reading and one of them fails, or it gets to its main part and reading, a command or writing fails there |
| Protocols.Protocol.constructor | src/protocol.rs:123-143 | a new protocol is in the initial state |
| Protocols.Protocol.AcceptChannel | src/protocol.rs:394-401 | in place, the acceptance that `CapabilitySafety` is about: refused with nothing changed, or the channel announced |
| Protocols.Protocol.CommandOpen | src/protocol.rs:331-356 | in place, the open whose outcome `CommandOpenOutcome` gives; its Open can always be encoded |
| Protocols.Protocol.CommandClose | src/protocol.rs:358-364 | in place, a present key is removed with one Close event, an absent one ignored, nothing is sent |
| Protocols.Protocol.OnCommand | src/protocol.rs:321-327 | in place, each command has the effect the run theorems assume of it |
| Protocols.Protocol.OnOpen | src/protocol.rs:372-386 | in place, the inbound Open whose outcome `OnOpenOutcome` gives, malformed keys included |
| Protocols.Protocol.OnClose | src/protocol.rs:411-422 | in place, the inbound Close whose effect `CloseEndsChannel` gives |
| Protocols.Protocol.CloseLocal | src/protocol.rs:403-409 | in place, the handle under a local id is removed with one Close event, an unused id ignored |
| Protocols.Protocol.OnInboundMessage | src/protocol.rs:308-318 | in place, one inbound step of a run, failures included |
| Protocols.Protocol.OnOutboundMessage | src/protocol.rs:237-257 | in place, a Close closes its channel and a local signal becomes an event; everything but signals is to be sent |
| Protocols.Protocol.HandleBatch | src/protocol.rs:285-292 | a batch is handled message by message, and what is kept is enqueued after that |
| Protocols.Protocol.PollCommands | src/protocol.rs:226-234 | all commands are executed, the first one first, or exactly up to the first that fails; what they send is queued last |
| Protocols.Protocol.OnInboundChannelMessages | src/protocol.rs:300-305 | each message is handled as it was decoded, in order, or exactly up to the first that fails |
| Protocols.Protocol.PollInboundRead | src/protocol.rs:261-272 | all events of the stream are handled in order, or exactly up to the first step that fails, or to the first stream failure or undecodable buffer |
| Protocols.Protocol.PollOutboundWrite | src/protocol.rs:276-297 | all batches are handled in order, or exactly up to the round in which the transport fails, which it does if and only if in some round it refuses a frame or fails to flush it; the queue is then what was not sent |
| Protocols.Protocol.PollNext | src/protocol.rs:184-223 | a poll fails exactly when a step, the stream or the transport fails (`PollFailsExactly`), having made the first of its steps and returning no event; otherwise it reaches the state that `Poll` gives; the event it returns, if any, is exactly what it adds to the events returned so far, and it returns none only if none is queued or an initiator has no handshake hash; the queue is what was not sent |
| Replication.Replica.OnPeer | examples/replication.rs:180-219 | the greeting announces fork and length, the length heard of the other side if it is on the same fork, and whether an upgrade is possible; a range follows exactly if the first block is present, is not a drop, starts at zero and ends where the first block is missing or the log ends |
| Replication.GreetingSays | examples/replication.rs:180-219 | the same of the function that the dialogue uses |
| Replication.SyncAsksExactly | examples/replication.rs:267-321 | a Synchronize is answered by one exactly if it is the first; an upgrade is asked for if and only if the other side has just become longer than this log and knows all of it, and then from the end of this log to the end of the other |
| Replication.RequestAnsweredExactly | examples/replication.rs:322-342 | a request is answered, once and with its id, exactly if it asks for no hash or position and what it asks for is there, and the answer holds the block and the upgrade asked for and nothing else |
| Replication.AnswersKeepPart | examples/replication.rs:322-350 | whatever is asked for, an answer that is taken in leaves the reader with part of what the writer has, nothing lost and the block asked for present; it is taken in exactly if its upgrade starts at the reader's end and its block lies within the length then reached |
| Replication.DataAsksExactly | examples/replication.rs:343-430 | when an answer is refused or the length minus one underflows; otherwise the new length is announced after an upgrade, and the first new block, or the one after the block received, is asked for unless there is none |
| Replication.Replica.Receive | examples/replication.rs:260-434 | a message leads to the new state and the messages of `OnMessage`, or to a failure |
| Replication.Replica.ReceiveData | examples/replication.rs:343-430 | a Data message is applied and the next block asked for, or it is refused |
| Dialogue.AnswerPlanned | examples/replication.rs:322-342 | the writer answers every planned request with the block or upgrade it names |
| Dialogue.TakeAnswer | examples/replication.rs:343-430 | the reader takes the k-th answer and asks exactly for what comes next, or stops after the last |
| Dialogue.ReaderHearsFirst | examples/replication.rs:267-321 | the first Synchronize makes the reader acknowledge it and ask for the whole log, once |
| Dialogue.WriterHearsSync | examples/replication.rs:267-321 | a Synchronize never makes the writer ask for anything |
| Dialogue.EventStep | examples/replication.rs:260-434 | every event succeeds on both sides and lowers the measure; the length minus one never underflows |
| Dialogue.ReplicationProgress | examples/replication.rs:180-434 | in every order of events the reader asks for the whole log once, then for each block once, in order, every Synchronize and Range on its way announces exactly the log as it is, and the dialogue stops after a bounded number of events with the whole log at the reader |

## Left out

- Wakers, pinning, the async channels themselves and their capacity: readiness is an argument and queues are sequences.
- The Noise handshake, the cipher and the length framing of frames: frames arrive whole and in order.
- `src/stream.rs`, `src/error.rs`, `src/util.rs`, formatting, logging, benches, Node scripts and tests: they hold no protocol logic.
- Messages injected with `local_sender`, and Open or Close messages that a user builds and sends through a channel other than by closing it: the queue and the protocol object handle them, the two-endpoint theorems exclude them.
- Replication to a reader that already has part of the log: the example compares the length of an upgrade with a total length, which means something only when the upgrade starts at zero.
- The pretty-printing of replicated blocks and the error text of failures; failures are named by constructors.
- Framing.VecEncode: writes the flag byte of an Open as zero where the source skips it, because the buffer it gets is zeroed.
- Framing.EncodedSize: does not model overflow of `usize`; the sizes of messages sent are required to fit 64 bits.
- Channels.AttachRemote: does not model that the source cannot grow its vector to an arbitrary 64-bit id, because memory is not modelled.
- Protocols.Protocol.CommandOpen: requires fewer than 2^64 local ids, because ids are unbounded in the model and 64 bits wide on the wire.
- Protocols.Protocol.AcceptChannel: reports the missing handshake as a failure where the source panics.
- Sessions.SessionSafety: hands messages over one by one; `FrameSafety` is the theorem for encoded frames.
- FrameSessions.FrameSafety: assumes that users open a key only when it is not open and not while a batch for the id it would get is pending, close channels only through live channels, and send what fits the wire; the exact conditions for the first three are proved beside it.
- Replication.Replica.Receive: reports the underflow of the length minus one as a failure where the source would panic or wrap.
