# The GoPro BLE control plane, modelled and proved

The repository drives GoPro cameras over Bluetooth LE. Its control plane is
written as pure logic: time, transmission and completions are passed in. This
project models that logic in Dafny and proves what it promises.

| file | what it holds |
|---|---|
| `Framing.dfy`, `FramingProofs.dfy`, `FramingWire.dfy` | packet fragmentation and reassembly, in the packet headers of the "Data Protocol" chapter of the Open GoPro BLE specification |
| `Query.dfy` | the TLV query parser and the readiness fold |
| `Queue.dfy`, `QueuePass.dfy` | the ready-gated command queue: three priorities, one command per id, one ordinary command in flight, two timeouts |
| `Reentrancy.dfy` | the queue as a machine of small steps, for callbacks that call back in |
| `QueueExpiry.dfy`, `QueueAnswers.dfy` | when commands time out, and what every call of the queue answers, in plain terms |
| `QueueTiming.dfy` | deadlines under regular ticks |
| `Correlation.dfy`, `Session.dfy` | correlation ids, and the session that composes the parts |
| `SessionHistory.dfy`, `SessionGate.dfy`, `SessionWire.dfy`, `SessionRouting.dfy`, `SessionKeepAlive.dfy`, `SessionTiming.dfy`, `SessionWaiting.dfy`, `SessionTimer.dfy` | theorems over whole runs of a session |
| `SessionCalls.dfy` | what every public call of a session answers and reports, in plain terms |
| `SessionReentrancy.dfy`, `SessionReentrantCalls.dfy`, `SessionReentrantGate.dfy`, `SessionReentrantReports.dfy`, `SessionReentrantWire.dfy`, `SessionReentrantExamples.dfy` | the session as a machine of small steps, and what is left of those theorems when its callbacks call back in |
| `Link.dfy` | the connection state machine with its backoff |
| `Codec.dfy`, `CodecProofs.dfy`, `CodecLayout.dfy`, `CodecMethods.dfy`, `Camera.dfy`, `CameraLayout.dfy` | the schema-directed binary codec, and the Dart reader of camera records |
| `Bytes.dfy`, `Millis.dfy`, `Sequences.dfy` | octets, clock readings, filters and subsequences |

`dafny verify dfyconfig.toml` checks all of it.

## How the model is built

Every object is a class whose methods have the original's loops and branches.
Each method is proved equal to a function on the object's value, and the
theorems are about those functions: over all inputs, or over all runs from
construction. The constants, orders and error cases that those functions share
with the methods are stated once more in plain terms, with the numbers and bits
of the original written out. Times and timestamps are 64 bits wide and subtraction wraps;
timeouts and sizes are unbounded.

Callbacks are values. The queue and the session keep the sequence of callbacks
they have made, and a null callback is an event that nobody hears.
`Queue.CommandQueue` requires a sound queue at every place where it calls out.
`Reentrancy.Machine` lets a callback make any call at any depth before it
returns, and the safety theorems of the queue are proved for every such run; a
call whose callbacks just return is a special case (`Reentrancy.CallIsARun`).

Class `Session.BleSession` relays the queue's callbacks when the queue's call
returns. Their order and contents are those of the original as long as callbacks
do not call back into the session. `SessionReentrancy.Live` lets them: every
callback, the write of a single packet included, may make any public call at any
depth, and a call whose callbacks just return is again a special case
(`SessionReentrantCalls.OpIsARun`). The queue's guarantees hold in all those runs
(`SessionReentrancy.EveryRunSafe`); three guarantees of the session end there,
and for each the exact condition is proved.

## Where the code and its comments part

The model follows the code. Each of these has a theorem.

- `native/src/ble_session.cpp:102-105` says that only one of the two readings of
  a message can be outstanding. Both can (`SessionRouting.BothCanBeOutstanding`);
  the protobuf reading wins (`SessionRouting.ResolvedBy`).
- A reply resolves its command, and so releases the next one, before its own
  status is folded in (`native/src/ble_session.cpp:116-128`). A reply that says
  "busy" can thus release an ordinary command: exactly when
  `SessionGate.ReplyReleasesIff` says, for example in
  `SessionGate.BusyReplyReleases`. `SessionGate.GateSafety` is stated so that it
  is true of that path.
- A payload over 65534 bytes is accepted, counted as sent and timed out, but no
  packet is written (`SessionWire.OversizeTimesOut`).
- `native/include/command_queue.h:110-111` speaks of a duplicate that is in
  flight; a pending one is rejected as well. Hence "never blocked by anything
  except an outstanding keep-alive of its own" (lines 28-30) does not hold if a
  caller writes setting 91: `SessionKeepAlive.KeepAliveSentIff` is the exact
  condition, and in `SessionKeepAlive.LedWriteStarvesLink` one such write, made
  while the gate is shut, keeps every keep-alive back for 30 s.
- `native/src/command_queue.cpp:59` says that fastpass commands go one at a
  time. Any number of them can be in flight (`QueuePass.ExpressGoesOut`).
- On the reply path the ready callback runs before the gate moves
  (`native/src/ble_session.cpp:122-127`). An ordinary command submitted in a
  callback that says "not ready" is still written
  (`SessionReentrantExamples.BusyCallbackSends`); there is no other way for one
  to be written while not ready (`SessionReentrantGate.ReentrantGateSafety`).
- On the push path the ready callback runs after the gate has moved and the queue
  has written (`native/src/ble_session.cpp:137-143`). If a write callback changes
  readiness meanwhile, "not ready" is reported twice
  (`SessionReentrantExamples.NotReadyTwice`); reports alternate if and only if
  that does not happen (`SessionReentrantReports.ReportsAlternateIff`).
- A write callback that submits between two packets of a message
  (`native/src/ble_session.cpp:60-64`) can begin another message on the same
  channel (`SessionReentrantExamples.MessageInterrupted`), and the camera then
  loses the first one: `SessionReentrantWire.WireIntactIff`.
- A status value longer than eight bytes reads as clear whatever it holds
  (`Query.FlagMeaning`).

## Model

| member | source | states |
|---|---|---|
| Framing.Fragment | native/src/ble_protocol.cpp:33-84 | the packet loop emits exactly the specified packets, and none for an empty or oversize message or an ATT payload without room |
| Framing.Reassembler.constructor | native/src/ble_protocol.cpp:90-95 | a new receiver is idle |
| Framing.Reassembler.Reset | native/src/ble_protocol.cpp:90-95 | back to idle from any state |
| Framing.Reassembler.FeedPacket | native/src/ble_protocol.cpp:97-178 | state and verdict after any packet in any state, for all three header forms and all error cases |
| Framing.Reassembler.Take | native/src/ble_protocol.cpp:180-187 | hands over the buffer and is idle again |
| Framing.ParseHeader | native/src/ble_protocol.cpp:116-149 | an accepted header lies inside the packet, and only three errors are possible |
| Bytes.HeaderMasks | native/src/ble_protocol.cpp:105-130 | the tests, kind and length bits of a header byte, as arithmetic on it, are the original's masks and shifts |
| Bytes.WordBits | native/src/ble_protocol.cpp:129-138 | joining two length bytes by arithmetic is the original's shift and or |
| Bytes.LengthBits | native/src/ble_protocol.cpp:45-57 | the masks and shifts of a length give the bytes of the first header |
| Bytes.LengthBytes | native/src/ble_protocol.cpp:45-57 | and so does the arithmetic on it |
| FramingWire.ContinuationBit | native/src/ble_protocol.cpp:105 | a packet is a continuation if and only if bit 7 of its first byte is set |
| FramingWire.GeneralForm | native/src/ble_protocol.cpp:118-123 | header form 00: the length is the five low bits, the payload starts at 1; zero is an error |
| FramingWire.Ext13Form | native/src/ble_protocol.cpp:124-132 | form 01: the length is those bits and the next byte, the payload starts at 2; alone it is truncated |
| FramingWire.Ext16Form | native/src/ble_protocol.cpp:133-140 | form 10: the length is the next two bytes, the payload starts at 3; with fewer it is truncated |
| FramingWire.ReservedForm | native/src/ble_protocol.cpp:141-143 | form 11 is an error |
| FramingWire.SendableIff | native/src/ble_protocol.cpp:33-63 | packets come out if and only if the message has 1 to 65534 bytes and the ATT payload exceeds 2, or 3 from 8191 bytes on |
| FramingWire.FirstHeaderBits | native/src/ble_protocol.cpp:45-57 | the first packet begins with the header that the original's masks and shifts of the length give |
| FramingWire.PacketsFill | native/src/ble_protocol.cpp:65-82 | every later packet begins with 0x80, and every packet but the last fills the ATT payload |
| FramingWire.HeaderVerdicts | native/src/ble_protocol.cpp:97-154 | for every packet in every receiver state: each of the five header errors if and only if its own condition on first bytes and receiver holds |
| FramingWire.PayloadVerdicts | native/src/ble_protocol.cpp:156-178 | otherwise overflow, completion or more to come by comparing payload and bytes missing, and what the receiver then holds |
| FramingWire.EveryPacketJudged | native/src/ble_protocol.cpp:97-178 | those two cover every packet |
| FramingProofs.RoundTrip | native/src/ble_protocol.cpp:33-187 | from any receiver state whatever, the packets of a message ask for more until the last, which completes exactly that message |
| FramingProofs.Recovery | native/src/ble_protocol.cpp:97-187 | after any garbage the next intact message is delivered, once, and the receiver is idle |
| FramingProofs.PacketCount | native/src/ble_protocol.cpp:45-82 | the number of packets as a rounded-up quotient, and that every packet fits and carries payload |
| FramingProofs.StreamAppend | native/src/ble_protocol.cpp:97-187 | listening to two streams in a row is listening to their concatenation |
| FramingProofs.NoSplicing | native/src/ble_protocol.cpp:105-177 | for arbitrary packets, a message is delivered if and only if the latest start packet and all continuations since reach the declared length just now, and it is exactly their payload |
| FramingProofs.TracksStep | native/src/ble_protocol.cpp:97-178 | a receiver is mid-message exactly when the stream ends in an unfinished frame, and then holds that frame's bytes |
| FramingProofs.FeedKeepsBalance | native/src/ble_protocol.cpp:97-178 | bytes held plus bytes outstanding equal the declared length, and every error leaves the receiver idle |
| Query.ReadUint | native/src/query_parser.cpp:19-27 | the shifting loop, in 64-bit arithmetic, computes the big-endian value of one to eight bytes |
| Bytes.ShiftInBits | native/src/query_parser.cpp:23-25 | one step of the accumulation, in 64-bit arithmetic, is the original's shift and or |
| Query.FlagMeaning | native/include/query_parser.h:71-75 | a flag is set if and only if its value is one to eight bytes long and some byte is nonzero; an n-byte value is below 256^n |
| Query.BigEndianFirst | native/src/query_parser.cpp:22-25 | the first byte of a value is the most significant |
| Query.Find | native/src/query_parser.cpp:41-47 | the first entry with the id, found if and only if there is one |
| Query.FindIsFirst | native/src/query_parser.cpp:41-47 | the entry found is the first with the id, and none is found if and only if there is none |
| Query.ParseQuery | native/src/query_parser.cpp:49-81 | the parsing loop returns result, command, status and entries as specified, for every payload |
| Query.ParseOkIff | native/src/query_parser.cpp:49-81 | parsing succeeds with a response if and only if the payload is that response printed, give or take one dangling byte |
| Query.TruncationIff | native/src/query_parser.cpp:61-69 | parsing reports truncation if and only if the payload is the decoded entries printed, followed by an entry that truly overruns |
| Query.TooShortIff | native/src/query_parser.cpp:51-53 | too short if and only if below two bytes, with an empty response |
| Query.EntriesOfPrint | native/src/query_parser.cpp:58-78 | entries printed and followed by anything that is no entry are read back |
| Query.PrintOfEntries | native/src/query_parser.cpp:58-78 | any byte string is its entries printed plus a remainder that holds no entry |
| Query.ReadyState.constructor | native/include/query_parser.h:106-116 | both statuses start unknown |
| Query.ReadyState.Reset | native/src/query_parser.cpp:87-90 | both statuses unknown again |
| Query.ReadyState.Apply | native/src/query_parser.cpp:92-112 | folds the two statuses of a status response in, and says whether readiness changed |
| Query.FoldSets | native/src/query_parser.cpp:92-112 | for every response, statuses 8 and 10 change if and only if the command is 0x13, 0x53, 0x73 or 0x93 and the first entry with the id is nonempty, and then to whether it has at most eight bytes and one is nonzero |
| Query.FoldMessageSets | native/src/ble_session.cpp:119-147 | for every message: the printed form of a response, give or take a dangling byte, acts as that response; any other message changes nothing |
| Query.FoldIsLatest | native/src/query_parser.cpp:92-112 | however many messages pass, readiness is what the latest report of each status says |
| Queue.CommandQueue.constructor | native/src/command_queue.cpp:36-37 | an empty, shut and sound queue |
| Queue.CommandQueue.IsInFlight | native/src/command_queue.cpp:39-42 | whether the id is in flight |
| Queue.CommandQueue.CanSendNow | native/src/command_queue.cpp:44-72 | an entry may go out if its id is not in flight and, if ordinary, the gate is open and the slot free |
| Queue.FirstSendable | native/src/command_queue.cpp:92-94 | the scan finds the first entry that may go out |
| Queue.CommandQueue.Send | native/src/command_queue.cpp:74-83 | the entry is recorded as in flight, stamped, before the write callback, and the queue is sound at that call |
| Queue.CommandQueue.DoPump | native/src/command_queue.cpp:85-102 | the restarting loop's final state and writes; sound at every write |
| Queue.CommandQueue.DoSubmit | native/src/command_queue.cpp:104-137 | rejects a duplicate of a pending or in-flight id, else queues (a keep-alive in front) and pumps |
| Queue.CommandQueue.DoSetReady | native/src/command_queue.cpp:139-143 | moves the gate, and pumps if it is open |
| Queue.CommandQueue.DoRespond | native/src/command_queue.cpp:145-163 | completes the entry in flight under the id and pumps, or reports that nobody was waiting |
| Queue.CommandQueue.ExpireInFlight | native/src/command_queue.cpp:168-176 | the erasing loop removes exactly the in-flight entries past the write timeout, in order |
| Queue.CommandQueue.ExpirePending | native/src/command_queue.cpp:181-190 | the erasing loop removes exactly the pending entries past the queue timeout, in order; none if that is zero |
| Queue.CommandQueue.DoTick | native/src/command_queue.cpp:165-198 | completes everything expired, in flight first, and then pumps |
| Queue.CommandQueue.DoCancelAll | native/src/command_queue.cpp:200-213 | completes everything as canceled, in flight first, and leaves the queue empty |
| Millis.ElapsedIsModular | native/src/command_queue.cpp:170-183 | elapsed time is the difference modulo 2^64 |
| QueueAnswers.SubmitAnswers | native/src/command_queue.cpp:104-137 | a command is taken if and only if nothing pending or in flight has its id; refused, it is reported rejected and nothing changes; taken, it is pending or just sent |
| QueueAnswers.KeepAliveGoesFirst | native/src/command_queue.cpp:126-135 | a keep-alive that is taken is the first thing written |
| QueueAnswers.OthersGoLast | native/src/command_queue.cpp:131-135 | any other command that is taken and written at once is the last thing written |
| QueueAnswers.RespondAnswers | native/src/command_queue.cpp:145-163 | handled if and only if a command in flight has the id; its completion with the data comes first, then only writes, and it is gone |
| QueueAnswers.GateAnswers | native/src/command_queue.cpp:139-143 | the gate is as told; shutting does nothing else, opening leaves nothing that could go |
| QueueAnswers.TickReports | native/src/command_queue.cpp:165-198 | a tick reports what was in flight for the write timeout, then what was pending for the queue timeout, each in order, and then only writes |
| QueueAnswers.CancelReports | native/src/command_queue.cpp:200-213 | everything in flight and then everything pending is reported canceled, in order; the gate stays |
| QueueExpiry.TimedOutIff | native/src/command_queue.cpp:165-195 | a tick reports a command as timed out if and only if it was in flight for the write timeout since it was sent, or pending for a nonzero queue timeout since it was submitted; always without data |
| QueueExpiry.OthersStay | native/src/command_queue.cpp:169-190 | everything else stays in flight, or stays pending unless it is sent |
| QueueExpiry.DueLeaves | native/src/command_queue.cpp:169-190 | what was due is neither pending nor in flight afterwards |
| QueueExpiry.EveryRunDated | native/src/command_queue.cpp:74-198 | in every run with reentrant callbacks, whatever is pending, in flight or written was submitted at the time it carries, and sent at the time of a call |
| QueueExpiry.NeverTimesOutEarly | native/src/command_queue.cpp:165-198 | in every such run, whatever is reported timed out was found past its own deadline by a tick of the run |
| Queue.SendKeepsSound | native/src/command_queue.cpp:74-83 | a send that is allowed leaves no id outstanding twice and at most one ordinary command in flight |
| QueuePass.PumpIsOnePass | native/src/command_queue.cpp:85-102 | the restart-from-front loop sends, in order, every fastpass and keep-alive entry and the first ordinary one if the slot is free, and keeps the rest in order: one left-to-right pass |
| QueuePass.PumpMoves | native/src/command_queue.cpp:85-102 | a pump only moves entries from pending to in flight, stamped, and makes only writes |
| QueuePass.ExpressGoesOut | native/src/command_queue.cpp:50-60 | a fastpass or keep-alive command is written inside its own submission if and only if its id is not outstanding |
| QueuePass.PumpOrdinary | native/src/command_queue.cpp:61-69 | with only ordinary commands pending, the oldest goes out if the gate is open and the slot free, and nothing else does |
| Reentrancy.EveryRun | native/src/command_queue.cpp:74-213 | in every state of every run with reentrant callbacks: ids distinct, one ordinary command in flight, quiet between calls, submissions conserved, only accepted commands written and at most once, ordinary commands written in order of acceptance |
| Reentrancy.BeginKeepsInvariant | native/src/command_queue.cpp:104-213 | entering any call, also from inside a callback, keeps all of that |
| Reentrancy.ContinueKeepsInvariant | native/src/command_queue.cpp:85-102 | so does running on to the next callback or to the end of a call |
| Reentrancy.CallIsARun | native/src/command_queue.cpp:104-213 | a call whose callbacks just return is a run of that machine, with the same end state and callbacks |
| Reentrancy.CallKeepsInvariant | native/src/command_queue.cpp:44-213 | after every outermost call pending holds only ordinary commands, and if the gate is open and some are pending one is in flight |
| Reentrancy.ExactlyOnce | native/include/command_queue.h:99-101 | no completion of an accepted submission is made twice, none is written twice, and each is at every moment in exactly one place: completed, pending, in flight or about to be completed |
| Reentrancy.SendsFirstOrdinary | native/src/command_queue.cpp:85-102 | when an ordinary command is sent no older one is pending |
| QueueTiming.TickOnTime | native/src/command_queue.cpp:165-198 | for any timeouts, zero included: right after a tick every age in flight is below the write timeout, and every pending age below the queue timeout if there is one |
| QueueTiming.CallOnTime | native/src/command_queue.cpp:104-213 | every call keeps the deadlines and makes no late completion |
| QueueTiming.BoundedCompletion | native/src/command_queue.cpp:165-198 | with a queue timeout and ticks at most d apart every accepted command is completed before submission + queue timeout + write timeout + 2d |
| QueueTiming.WaitsForever | native/src/command_queue.cpp:178-190 | without a queue timeout there is no bound: behind the shut gate a command is pending after any number of ticks |
| QueueTiming.NoWedging | native/src/command_queue.cpp:61-69 | for any timeouts, zero included: behind an open gate a command with i pending ones ahead and one in flight waits less than (i + 1) slots of write timeout + d, whatever other traffic runs |
| QueueTiming.ReleasedInTurn | native/src/command_queue.cpp:85-198 | by then it has been transmitted or has timed out; without a queue timeout it has been transmitted |
| Correlation.NarrowBits | native/include/ble_session.h:75-78 | the id arithmetic is the original's shift and or |
| Correlation.WideBits | native/include/ble_session.h:120-127 | likewise for protobuf ids |
| Correlation.ActionBits | native/include/ble_session.h:92-94 | likewise for the response action |
| Correlation.ChannelRecovered | native/include/ble_session.h:104-107 | the channel is recovered from either kind of id |
| Correlation.IdsDistinct | native/include/ble_session.h:75-127 | the two id spaces are disjoint, and each is injective up to the action's high bit |
| Session.BleSession.constructor | native/src/ble_session.cpp:52-66 | a fresh session |
| Session.BleSession.RelayCall | native/src/ble_session.cpp:58-65 | a write becomes its packets on the channel recovered from the id; a completion is forwarded |
| Session.BleSession.SetAttPayload | native/src/ble_session.cpp:68-72 | takes the payload size if it is at least the minimum |
| Session.BleSession.DoFeed | native/src/ble_session.cpp:74-97 | ignores unknown channels, reports errors, delivers completed messages |
| Session.BleSession.DoDeliver | native/src/ble_session.cpp:99-152 | routes a message, then folds readiness on the reply or the push path |
| Session.BleSession.Route | native/src/ble_session.cpp:106-116 | resolves under the wide id if that is in flight, else under the narrow one |
| Session.BleSession.AfterReply | native/src/ble_session.cpp:119-129 | reply path: ready callback, then the gate |
| Session.BleSession.AfterPush | native/src/ble_session.cpp:132-151 | push path: the gate, then the ready callback, then the push |
| Session.BleSession.DoSubmit | native/src/ble_session.cpp:154-164 | refuses an empty payload, else submits under channel and leading byte |
| Session.BleSession.DoSubmitProtobuf | native/src/ble_session.cpp:166-183 | submits feature, action and message under the id of the reply |
| Session.BleSession.DoEnqueue | native/src/ble_session.cpp:185-200 | hands a command to the queue and forwards its outcome |
| Session.BleSession.Tick | native/src/ble_session.cpp:202-222 | ticks the queue, then anchors or fires the keep-alive timer |
| Session.BleSession.OnDisconnect | native/src/ble_session.cpp:224-239 | resets receivers, cancels everything, shuts the gate, reports the loss of readiness, and stops the timer |
| SessionCalls.PlainAnswers | native/src/ble_session.cpp:154-164 | an empty payload is refused without a report; any other is handed over under channel * 256 + leading byte, and answered as the queue answers |
| SessionCalls.ProtobufAnswers | native/src/ble_session.cpp:166-183 | the payload is feature, action, message; the id is bit 24, channel, feature, and the action with its top bit set |
| SessionCalls.FeedAnswers | native/src/ble_session.cpp:74-97 | channels from 4 on are ignored; a packet that completes nothing is answered by its error, if any, and by nothing else |
| SessionCalls.DisconnectReports | native/src/ble_session.cpp:224-239 | every outstanding command is reported canceled, those in flight first, then the loss of readiness if there was any; nothing is left |
| SessionCalls.RunAtt | native/src/ble_session.cpp:68-72 | over every run the payload size in effect is the latest one set that is at least 20 |
| SessionCalls.PacketsFillAtt | native/src/ble_session.cpp:58-72 | over every run every command goes out in packets of that size, all full but the last |
| SessionCalls.NeverReportsEarly | native/src/ble_session.cpp:189-203 | over every run a session reports a timeout only in a tick that finds the command past its own deadline |
| SessionHistory.OpIsQueueRun | native/src/ble_session.cpp:74-239 | every public call is at most two queue calls, and its writes and responses are exactly the queue's |
| SessionHistory.EveryRunConsistent | native/src/ble_session.cpp:52-239 | over every run the queue inside is a run of the queue machine with all its invariants, readiness is the latest reports since the last disconnect, and the queue's gate equals readiness after every public call |
| SessionGate.GateSafety | native/src/ble_session.cpp:99-152 | over every run no ordinary command is written unless the latest reports since construction or the last disconnect say neither busy nor encoding; a push counts at once, a reply only after what it releases |
| SessionGate.ReplyReleasesIff | native/src/ble_session.cpp:115-129 | a reply that shuts the gate still releases an ordinary command if and only if it resolves the ordinary command in flight and another is pending |
| SessionGate.BusyReplyReleases | native/src/ble_session.cpp:115-129 | a concrete run from construction in which the camera answers "busy" and the pending command goes out in the same call |
| SessionGate.ReadyAlternates | native/src/ble_session.cpp:120-146 | over every run the ready callback strictly alternates, beginning with true, and its last value is the readiness |
| SessionWire.WireRefinement | native/src/ble_session.cpp:58-65 | a listener in any state reassembles from a channel's packets exactly the payloads sent there, in order |
| SessionWire.WireCarriesSubmissions | native/src/ble_session.cpp:52-200 | over every run, under any changes of the ATT payload, that holds on every channel, and whatever is sent on a channel was submitted on that channel |
| SessionWire.OversizeWritesNothing | native/src/ble_session.cpp:60-64 | a sent command writes no packet if and only if its payload cannot be framed |
| SessionWire.OversizeTimesOut | native/src/ble_session.cpp:154-164 | a fresh session accepts every oversize payload, reports it sent without a packet, holds it in flight, and reports it timed out at the first tick that is a write timeout later |
| SessionWire.ChannelsApart | native/src/ble_session.cpp:74-97 | however the four channels interleave, each one's receiver and messages are those of feeding it alone |
| SessionWire.SessionNoSplicing | native/src/ble_session.cpp:74-97 | over every run a feed delivers a message if and only if its packet finishes the frame opened by its own channel's latest start packet since the last disconnect |
| SessionRouting.Attribution | native/src/ble_session.cpp:99-152 | every message is exactly one reply, to the command in flight under its id, or exactly one push |
| SessionRouting.OthersUntouched | native/src/command_queue.cpp:145-163 | every command in flight under another id stays in flight |
| SessionRouting.ResolvedBy | native/src/ble_session.cpp:102-113 | a protobuf command is resolved only by its feature and response action on its own channel; a plain one if and only if channel and leading byte match and no protobuf command in flight claims the message |
| SessionRouting.BothCanBeOutstanding | native/src/ble_session.cpp:102-105 | after two submissions to a fresh session a plain and a protobuf command are both in flight and both fit one message; the protobuf one takes it |
| SessionRouting.SameResponse | native/src/ble_session.cpp:202-222 | a stale keep-alive time of a session that has not ticked is never read |
| SessionRouting.DisconnectResets | native/src/ble_session.cpp:224-239 | after a disconnect every later sequence of calls has the same callbacks and results as on a freshly constructed session |
| SessionTimer.TimerFiresIff | native/src/ble_session.cpp:202-222 | over every run, from the operations alone: a tick submits setting 91 with value 66 if and only if there has been a tick since construction or the last disconnect and at least the interval has passed since the latest one that anchored or submitted |
| SessionTimer.FiresApart | native/src/ble_session.cpp:213-216 | two such submissions with no disconnect between them are at least the interval apart |
| SessionTimer.BeatOnTheWire | native/src/ble_session.cpp:45-48 | on the wire it is the one packet 20 03 5B 01 42 |
| SessionKeepAlive.KeepAliveNeverStarves | native/src/ble_session.cpp:202-222 | with ticks at most d apart, every tick comes less than write timeout + interval + d after the last keep-alive transmission, whatever the camera and other traffic do |
| SessionKeepAlive.DefaultsHoldTheLink | native/include/ble_session.h:133-143 | with the defaults and the 500 ms tick of `lib/src/ble_transport.dart:638` that is under 8.5 s, against the 10 s drop |
| SessionKeepAlive.KeepAliveSentIff | native/src/ble_session.cpp:213-221 | a due tick writes a keep-alive if and only if every command under its id that is in flight or pending before the tick times out in it |
| SessionKeepAlive.LedWriteStarvesLink | native/src/ble_session.cpp:213-221 | a run from construction in which one ordinary write to setting 91, pending behind the gate, lets no tick send anything until it times out |
| SessionKeepAlive.StarvingFirst | native/src/ble_session.cpp:205-216 | and the timer of that session is due from the interval on |
| SessionKeepAlive.KeepAliveFits | native/src/ble_protocol.cpp:62-63 | a keep-alive reaches the wire if and only if the ATT payload is at least 3 |
| SessionTiming.SessionBoundedCompletion | native/src/ble_session.cpp:185-222 | every command a session accepts and that has reached the queue's bound has had its outcome reported, exactly as often as it was submitted |
| SessionTiming.SessionPunctual | native/src/ble_session.cpp:185-222 | and no outcome is reported at the bound or later |
| SessionWaiting.SessionNoWedging | native/src/ble_session.cpp:99-222 | while readiness holds, a command with i pending ones ahead waits less than (i + 1) slots of write timeout + d, whatever the session is asked or told |
| SessionWaiting.SessionReleasedInTurn | native/src/ble_session.cpp:99-222 | by then the session has sent it or reported it timed out; without a queue timeout it has sent it |
| SessionReentrancy.EveryRunSafe | native/src/ble_session.cpp:52-239 | in every state of every run with reentrant callbacks the queue inside keeps all invariants of `Reentrancy.EveryRun`, and the session has reported exactly what its queue has done |
| SessionReentrantCalls.OpIsARun | native/src/ble_session.cpp:74-239 | a public call whose callbacks just return, made at any depth, has the new state, the callbacks and the packets that module Session says, and leaves the work below it alone |
| SessionReentrantGate.GateUnlessReporting | native/src/ble_session.cpp:120-146 | in every such state the queue's gate is readiness, unless the ready callback of a reply is running and its change still stands; and readiness is the latest reports folded in |
| SessionReentrantGate.ReentrantGateSafety | native/src/ble_session.cpp:116-147 | in every such run an ordinary command is written only if the reports folded in say neither busy nor encoding, or inside the ready callback of a reply that has just ended that |
| SessionReentrantReports.ReportsAlternateIff | native/src/ble_session.cpp:120-146 | whenever the owner has control: the ready callbacks so far alternate, beginning with true, if and only if readiness never changed between a push's change of it and the report of that change |
| SessionReentrantWire.WireIntactIff | native/src/ble_session.cpp:58-65 | once a channel has nothing left to write: a listener in any state has exactly the payloads sent there, in order, if and only if no message began there in the middle of another |
| SessionReentrantWire.MoveShare | native/src/ble_session.cpp:58-65 | every step leaves a channel alone, writes the next packet on it, or begins a message on it |
| SessionReentrantExamples.CallbackSendsIff | native/src/command_queue.cpp:61-69 | an ordinary command submitted in a callback is the next thing sent if and only if its id is free, the gate open, the slot free and nothing else ready to go |
| SessionReentrantExamples.BusyCallbackSends | native/src/ble_session.cpp:122-127 | a reachable ready callback that says "not ready" in which an ordinary command is submitted and written |
| SessionReentrantExamples.NotReadyTwice | native/src/ble_session.cpp:137-143 | a reachable session that has reported "not ready" twice and nothing else |
| SessionReentrantExamples.MessageInterrupted | native/src/ble_session.cpp:60-64 | for any two sendable payloads on one channel with different leading bytes, the first of several packets: a reachable session in which the second message begins in the middle of the first |
| Link.LinkMachine.constructor | native/src/ble_link.cpp:69 | a fresh machine |
| Link.LinkMachine.Reset | native/src/ble_link.cpp:71-77 | back to the fresh state |
| Link.LinkMachine.NoteAttemptFailed | native/src/ble_link.cpp:90-93 | counts a failure and remembers its time |
| Link.LinkMachine.BackoffMs | native/src/ble_link.cpp:79-88 | the doubling loop computes min(initial * 2^(n-1), max) |
| Link.LinkMachine.DoUpdate | native/src/ble_link.cpp:119-233 | new state, action, stall and retry time for every observation |
| Link.AdvisedStage | native/src/ble_link.cpp:95-140 | for every machine and observation, each stage if and only if the observation's own fields say so |
| Link.AdvisedAction | native/src/ble_link.cpp:146-230 | likewise each of the seven actions |
| Link.AdvisedStall | native/src/ble_link.cpp:142-230 | over every run, each kind of stall if and only if the observation's fields and the time in the stage say so |
| Link.StageEvidence | native/src/ble_link.cpp:95-117 | which evidence each stage needs; encryption needs a working notification |
| Link.StalledIff | native/src/ble_link.cpp:142-230 | over every run a Classic link is reported at once, and any other stall if and only if the stage has lasted its timeout |
| Link.RetryTime | native/src/ble_link.cpp:122-144 | over every run the retry time is the last failure plus min(initial * 2^(n-1), max) after n failures since the last change of stage |
| Link.BondedNeverGates | native/src/ble_link.cpp:107-137 | overwriting the bonded flag anywhere in a run changes no stage, action, stall or retry time |
| CodecMethods.Writer.PutBytes | native/include/glaze_meta.h:98-118 | appends the truncated 32-bit length and all the bytes |
| CodecMethods.Writer.PutItems | native/include/glaze_meta.h:104-111 | appends the encoded strings |
| CodecMethods.Writer.PutPairs | native/include/glaze_meta.h:136-144 | appends the encoded pairs |
| CodecMethods.Writer.PutField | native/include/glaze_meta.h:74-144 | appends the encoding of a field of any kind |
| CodecMethods.Writer.PutRows | native/include/glaze_meta.h:125-133 | appends the encoded structs |
| CodecMethods.Writer.PutStruct | native/include/glaze_meta.h:238-261 | appends the fields in schema order |
| CodecMethods.ReadBytes | native/include/glaze_meta.h:174-200 | reads what the decoding function says, and moves on as far |
| CodecMethods.ReadItems | native/include/glaze_meta.h:181-191 | likewise for a list of strings |
| CodecMethods.Assign | native/include/glaze_meta.h:231 | assignment into an ordered map |
| CodecMethods.ReadPairs | native/include/glaze_meta.h:220-234 | likewise for a map, later keys overwriting earlier ones |
| CodecMethods.ReadField | native/include/glaze_meta.h:148-234 | likewise for a field of any kind |
| CodecMethods.ReadRows | native/include/glaze_meta.h:207-217 | likewise for a list of structs |
| CodecMethods.ReadStruct | native/include/glaze_meta.h:246-268 | likewise for a struct |
| CodecLayout.LittleEndianByte | native/include/glaze_meta.h:59-62 | byte k of a number is its k-th least significant |
| CodecLayout.NumberLayout | native/include/glaze_meta.h:74-96 | the exact bytes of every number and flag, negative ones in two's complement |
| CodecLayout.CountLayout | native/include/glaze_meta.h:98-100 | lengths and counts take four bytes, the lower 32 bits |
| CodecLayout.ContainerLayout | native/include/glaze_meta.h:98-144 | strings, byte vectors and containers are that prefix and then what they hold |
| CodecLayout.ItemsInOrder | native/include/glaze_meta.h:104-111 | the strings of a vector stand in order, each with its own prefix |
| CodecLayout.PairsInOrder | native/include/glaze_meta.h:136-144 | so do the pairs of a map, key before value |
| CodecLayout.RowsInOrder | native/include/glaze_meta.h:125-133 | so do structs |
| CodecLayout.FieldsInOrder | native/include/glaze_meta.h:238-261 | and the fields of a struct, in schema order |
| CodecLayout.LessIff | native/include/glaze_meta.h:136-144 | a map is walked in the order of the first differing byte, a proper prefix first |
| CodecLayout.PutAssigns | native/include/glaze_meta.h:231 | assignment binds the key to the value alone and leaves every other binding and the order |
| CodecLayout.LastWins | native/include/glaze_meta.h:220-234 | a decoded map is in order and binds each key to the last value that stood under it |
| CodecProofs.PutAllInOrder | native/include/glaze_meta.h:225-232 | assigning the pairs of an ordered map in order rebuilds the map |
| CodecProofs.FieldRoundTrip | native/include/glaze_meta.h:74-234 | a field of any kind, at any place in a buffer, is decoded to the value encoded and its exact length |
| CodecProofs.CodecRoundTripIff | native/include/glaze_meta.h:238-285 | for every schema and record, with anything before and after: decoding returns the record and its exact length if and only if every size is below 2^32 |
| Bytes.LittleEndianRoundTrip | native/include/glaze_meta.h:59-70 | the little-endian bytes of a number give it back modulo their width |
| Camera.Reader.ReadUint8 | lib/src/ffi/codec.dart:97 | one byte, or a throw past the end |
| Camera.Reader.ReadBool | lib/src/ffi/codec.dart:99 | likewise for a flag |
| Camera.Reader.ReadUint16 | lib/src/ffi/codec.dart:101-105 | likewise for two bytes, little-endian |
| Camera.Reader.ReadUint32 | lib/src/ffi/codec.dart:107-111 | likewise for four bytes |
| Camera.Reader.ReadString | lib/src/ffi/codec.dart:113-142 | a length-prefixed string, or a throw if the length overruns |
| Camera.Reader.ReadCamera | lib/src/ffi/codec.dart:63-80 | the sixteen reads in their order, with the two enumerations clamped |
| Camera.DecodeEvent | lib/src/ffi/codec.dart:53-61 | the event in a payload; unknown kinds are ignored, short records throw |
| Camera.ReadersAgree | native/include/gopro_types.h:52-71 | on every byte string and offset the Dart reads and the C++ decoder of the record's schema see the same record and consume the same bytes, or both run past the end |
| Camera.CameraRoundTripIff | lib/src/ffi/codec.dart:63-142 | the Dart reads get every encoded record back, wherever it stands, if and only if its sizes are below 2^32 |
| CameraLayout.RecordEncoded | native/include/gopro_types.h:31-71 | the bytes of every record, field by field; they fit exactly if its strings are below 2^32 |
| CameraLayout.RecordReadBack | lib/src/ffi/codec.dart:63-142 | the Dart reads get a record back from those bytes, wherever they stand, if and only if its strings fit |
| CameraLayout.Presented | lib/src/ffi/codec.dart:63-88 | every field arrives as it is; each enumeration value if and only if its number is sent, anything unknown as none and absent |
| CameraLayout.EventOfBytes | lib/src/ffi/codec.dart:53-61 | for every payload: ignored, sentinel, update, departure or a throw, each by its own condition |
| CameraLayout.RecordEvent | native/src/gopro_bridge.cpp:75-82 | the posted bytes of a record come out as its event |
| Camera.EventRoundTrip | native/src/gopro_bridge.cpp:75-82 | what the C++ side posts for a record comes out of the Dart side as that event |

## Left out

- Session.BleSession.DoFeed: the class has callbacks that just return; calls back into the session are modelled on values (`SessionReentrancy`), not on the class.
- Reentrancy.EveryRun: safety only; a callback that resubmits for ever is a run that never ends, and the timing theorems and `SessionRouting.DisconnectResets` assume callbacks that just return.
- QueueTiming.BoundedCompletion: assumes a clock that does not run backwards, no call later than d after the last tick, and a queue timeout; without one there is no bound (`WaitsForever`). A write timeout of zero counts as 1.
- SessionKeepAlive.KeepAliveNeverStarves: assumes no disconnect, no caller's write to setting 91 (see `KeepAliveSentIff`), and an ATT payload of at least 3 (see `KeepAliveFits`). Write timeout and interval, if both are zero, count as 1 together.
- SessionWire.WireCarriesSubmissions: assumes an initial ATT payload of at least 4, the room the largest header needs; the minimum in the code is 20, and it is enforced on changes only.
- Query.PrintOfEntries: printing has no counterpart in the repository; it is the inverse that the parser is measured against.
- CodecMethods.ReadField: reading past the end of the buffer is undefined in the C++ decoder, so the methods require that it does not happen; the decoding functions say `OutOfBounds`.
- Camera.Reader.ReadString: strings are bytes; UTF-8 decoding is not modelled. The constructor call of the Dart side is read in five groups of fields.
- Camera.CameraRoundTripIff: the schema is passed as a value equal to `CAMERA`, only to keep the proof small.
- Link.LinkMachine.DoUpdate: the human-facing text of an advice is left out, and counters and sums past 32 or 64 bits.
- Channels are bytes, as the underlying type of the original's enumeration is.
- Moved-from values, allocation failure, `to_string` and accessors.
- The FFI bridges, the worker thread, USB and sysfs, sockets, D-Bus and the asynchronous transport: plumbing around this logic.
- Wi-Fi, HTTP, certificates, streaming, secrets, and the code generators with their tables.
- The flat event decoder of `lib/src/ffi/ble_codec.dart`: it would add only easy members.
