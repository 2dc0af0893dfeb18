# kpacket2: a verified model of the packet relay

kpacket2 captures the packets of a game client and relays them. The game thread hands packets to
`ZmqRelay::PublishPacket`; a publisher thread numbers them and sends them on a PUB socket, a second
thread pushes a bounded copy on a PUSH socket, a third answers commands on a REP socket. A monitor
subscribes to the PUB stream, shows the newest packets and flags gaps in their message ids.

This project models those threads, the encoders and the monitor in Dafny and proves what connects them:
**what a caller hands in is what a subscriber can rebuild, in order and unaltered, and every loss is
accounted for.**

Check everything with `dafny verify dfyconfig.toml`.

## Layout

| file | content |
|---|---|
| `Sequences.dfy`, `Words.dfy` | sub-sequences; the fixed-width integers |
| `Base64.dfy` | the encoder with its 32-bit accumulator, RFC 4648 section 4 as its specification, a strict decoder |
| `PacketTypes.dfy` | packets, classification, header parsing, building a packet |
| `Topics.dfy` | topics, a topic parser, prefix subscriptions |
| `Json.dfy`, `WireForms.dfy` | JSON values; `to_json`, `from_json`, the multipart and the document form, their reader |
| `RelayMachine.dfy` | one function per thread, each call one atomic step; executions are any interleavings |
| `RelayInvariants.dfy` | the inductive invariant |
| `RelayTheorems.dfy` | publish path, message ids, reliable queue, filter, for every reachable state |
| `RelayLifecycle.dfy` | shutdown and restart |
| `RelayRuns.dfy` | building executions step by step |
| `RelayCommands.dfy` | the command dialogue, and exactly when it breaks off |
| `RelayDelivery.dfy` | exactly when the reliable queue can lose packets, and when the two paths can disagree on the order |
| `Schedules.dfy` | one thread among the others: what its turns lead to, and how much work a number of turns does |
| `Commands.dfy` | `ProcessCommand` over a foreign parser and foreign handlers |
| `Joins.dfy` | how many steps of the workers a schedule must hold for `Shutdown` to complete |
| `Relay.dfy` | class `ZmqRelay`: the code of the threads, proved to take exactly the turns of the machine, none skipped and none added |
| `Monitor.dfy` | class `MonitorModel` and the subscriber loop, proved against the history of messages |
| `EndToEnd.dfy` | relay, wire forms, lossy channel and monitor composed |

## How the relay is modelled

A step of the machine is a lock region, one read of `running_` or `pub_socket_`, one library call or one
counter update, so the interleavings of the machine include those of the program. Regions that hold a lock
and also read the unlocked flag `running_` are split at that read. Any number of callers of
`PublishPacket`, the three workers and one controlling thread (`Initialize`, `Shutdown`) take turns in
any order. The histories (packets pushed, finished, offered, handled, requests, replies) are fields that no
step reads.

`Relay.ZmqRelay` has the shape of the C++ class. Between two atomic regions its methods call `Yield`, which
lets the other threads take any steps of the machine. The steps, and what the library calls return, come
from `turns`, a schedule about which nothing is assumed; it is finite, so a method covers every finite part of
an execution. Two statements tie the code to the machine. `Valid()` says that the object's state is the one
the machine reaches by the actions in `log`, so no step can be wrong. `Took(plan, k)` says that the state is
`Schedules.Driven(config, plan, k)`: the one to which exactly `k` turns of this thread, interleaved as the schedule
says, lead from the state at the call, and that exactly `k` turns of the schedule are used up. Every method
that is code of a thread promises it, and says where it may end, so no step can be skipped, and no turn thrown away.

Assumptions:

- A send that throws delivers nothing. A PUB send that returns counts as handed to the socket, because the
  code ignores its result. A non-blocking send on the PUSH or REP socket returns having sent, returns
  without having sent, or throws.
- 64-bit counters do not wrap. `sync_count` of a packet outside the world range is left unset by the code; it
  is a parameter.
- Multi-byte header fields are read on a little-endian machine. Signed shifts are those of C++20.
- A packet filter is set before `Initialize` and not changed while the relay runs.
- `Initialize` is called when the relay is down; after one that failed, `Shutdown` comes next.
- JSON numbers are integers. `double` is `real` in the batch rate.
- The clock, the session id and the name table are parameters.

## Where the code differs from its documentation

The model follows the code.

- docs/DESIGN.md:50 promises guaranteed delivery on the PUSH socket. A full queue drops packets and no counter
  records it (`publish_dropped` is never incremented), and the result of the send is ignored.
  `PushStreamFollowsAccepted` says exactly when nothing is missing, `DroppedOnlyWhenFull` names the test that
  loses a packet, and `DropPossibleIffBeyondTheBound` what a caller can check beforehand: accepted packets can lose
  one in some execution if and only if they are more than `max_queue_size`.
- docs/DESIGN.md:43-44 promises synchronous command processing. A reply that is not sent, say because building
  it at src/zmq_relay.cpp:253 throws, leaves the socket owing a reply, and from then on every receive fails
  (`OneLostReplyWedges`, `LostReplyEndsTheDialogue`). In every run the next request is received if and only if no reply has
  been lost since the socket was opened (`ServedIffNoReplyLost`), and between commands that shows as a request
  without a reply (`WedgedIffReplyLost`). A send that returns without having sent is counted in
  `commands_processed` nevertheless; the model allows it, although a particular library may never do it.
- docs/DESIGN.md:59 and :62: every id in the lobby table lies in the world range, which is tested first, so no packet is
  ever classified as lobby, and of the patch range 1 to 8 only 1 to 4 is left (`Classification`).
- docs/DESIGN.md:77 gives a lobby header 16 bytes; the fields it lists, and the parser, take 28.
- docs/DESIGN.md:40 gives `packet.0x000A` as a topic; the topic in the code starts with `kpacket.` and the version.
- With packet streaming disabled there is no PUB socket, `PublishPacket` returns at once, and the reliable queue
  gets nothing either, even when it is enabled (`NoStreamingNoRelaying`).
- The order of the two pushes is the same on both paths as long as no two calls are between their pushes at
  once (`OrdersAgreeOneAtATime`), as with the one calling thread of docs/DESIGN.md:182; as soon as two are, with different packets,
  the orders can still come to differ (`TwoPendingCallsMayReorder`), and then stay different (`ReorderingIsForGood`).

## Model

| member | source | states |
|---|---|---|
| Base64.Base64Encode | src/zmq_relay.cpp:33-51 | for byte strings of every length the loop over a wrapping, never masked 32-bit accumulator yields the RFC 4648 section 4 encoding |
| Base64.EmitComplete | src/zmq_relay.cpp:43-46 | the inner loop emits exactly the sextets the newest byte completes, and leaves `valb` 6 lower for each |
| Base64.TurnSextets | src/zmq_relay.cpp:41-45 | the invariant of the loop: if the low 8 bits of `val` are the last byte, the sextets at `valb` = 2 + 2 * (bytes in the open group) are the right ones, and the low 8 bits are the new byte |
| Base64.LastSextet | src/zmq_relay.cpp:48 | the sextet after the loop is the open group filled up with zero bits |
| Base64.AddCannotOverflow | src/zmq_relay.cpp:41 | the shift is by eight bits modulo 2^32, and adding a byte to the shifted accumulator stays within 32 bits for every accumulator |
| Base64.LiveBits | src/zmq_relay.cpp:41-48 | whatever was shifted out by wrapping never reaches a sextet: they depend on the low 4 bits of `val` and the new byte only |
| Base64.Pad | src/zmq_relay.cpp:49 | the padding loop appends exactly the padding of the standard |
| Base64.Lookup | src/zmq_relay.cpp:35-44 | the character table is the alphabet of RFC 4648 table 1 |
| Base64.Alphabet | src/zmq_relay.cpp:35-36 | symbol by symbol, the character is the one of table 1 of RFC 4648, and `=` for padding |
| Base64.GroupIsOneNumber | src/zmq_relay.cpp:40-47 | the four sextets of a group are the base-64 digits, most significant first, of the number whose base-256 digits are its three bytes |
| Base64.StandardVectors | src/zmq_relay.cpp:33-51 | the test vectors of RFC 4648 section 10, with both kinds of padding and with two groups |
| Base64.DecodeEncode | src/zmq_relay.cpp:33-51 | a strict decoder recovers every byte string |
| Base64.EncodeDecode | src/zmq_relay.cpp:33-51 | a string the strict decoder accepts is the encoding of what it decodes to |
| Base64.DecodesIffCanonical | src/zmq_relay.cpp:33-51 | the strings accepted are exactly those of length 4n with padding only at the end and zero pad bits: the encoder is a bijection onto them |
| Base64.EncodeLength | src/zmq_relay.cpp:33-51 | the length is 4 * ceil(n / 3) |
| Base64.EncodeConcat | src/zmq_relay.cpp:40-47 | whole groups are encoded independently of what follows |
| PacketTypes.Classification | src/packet_types.cpp:94-153 | what the three range tests in this order amount to, id by id: world from 0x0005 to 0x011E, patch from 1 to 4, never lobby, unknown otherwise; s2c iff incoming |
| PacketTypes.ParseHeader | src/packet_types.cpp:155-176 | byte by byte: the world id is byte 0 and the lowest bit of byte 1, its size the other seven bits, its sync bytes 2-3; the lobby words are bytes 0-3, 4-7 and 8-11, the identifier bytes 12-27, least significant first; no other header of its kind has these bytes |
| PacketTypes.HeaderBytesInjective | src/packet_types.cpp:155-176 | two headers with the same bytes are equal |
| PacketTypes.Read16 | src/packet_types.cpp:162-165 | the first byte plus 0x100 times the second |
| PacketTypes.Read32 | src/packet_types.cpp:169-171 | four bytes with the weights 1, 0x100, 0x10000 and 0x1000000 |
| PacketTypes.CreatePacketInfo | src/packet_types.cpp:178-225 | every field from the arguments and the bytes; for ids from 0x0005 to 0x011E `sync_count` is byte 2 plus 0x100 times byte 3, otherwise it is left as it was |
| PacketTypes.DecimalReadsBack | src/packet_types.cpp:222 | the numeral in the session id stands for the timestamp and has no leading zero |
| PacketTypes.DecimalDigits | src/packet_types.cpp:222 | its digits come most significant first |
| Topics.TopicForPacket | src/zmq_relay.cpp:438-449 | the concatenation in the code is the topic that the other lemmas speak of |
| Topics.TopicText | src/zmq_relay.cpp:438-449 | the text itself: `kpacket.`, version, class word, `s2c` iff incoming, `0x` and four upper-case hexadecimal digits, most significant first |
| Topics.ParseTopicInverse | src/zmq_relay.cpp:438-449 | a parser accepts exactly the topics and recovers class, direction and id |
| Topics.TopicsArePrefixFree | src/zmq_relay.cpp:438-449 | one topic is a prefix of another only if they are the same |
| Topics.SubscriptionSelectsBlock | src/zmq_relay.cpp:446-448 | a prefix subscription ending after k hex digits matches exactly one aligned block of 16^(4-k) ids of its class and direction |
| WireForms.ToJsonMembers | src/zmq_relay.cpp:405-436 | the document of a packet, member by member; there are no others, and `chunk_data` only with a chunk |
| WireForms.PacketTypeMember | src/zmq_relay.cpp:409-419 | the member `packet_type` for each of the seven types |
| WireForms.TypeNameAgreesWithTopic | src/zmq_relay.cpp:409-419 | the member `packet_type` of a built packet is the class word and the direction word of its topic |
| WireForms.AssignmentOrder | src/zmq_relay.cpp:469-483 | which field each of the ten assignments of `from_json` touches, in their order |
| WireForms.FromJsonSucceedsIff | src/zmq_relay.cpp:468-484 | `from_json` does not throw iff the document is an object with these members of these types |
| WireForms.DirectionRead | src/zmq_relay.cpp:470 | the direction read is incoming iff the member says `incoming` |
| Json.Conversions | src/zmq_relay.cpp:469-483 | which values convert to which types: numbers are cut to the width, booleans convert to the narrower integers |
| WireForms.PacketReference.FromJsonInPlace | src/zmq_relay.cpp:468-484 | the ten assignments happen in order; an exception in one leaves exactly the earlier ones done |
| WireForms.FromJsonRestores | src/zmq_relay.cpp:468-484 | `from_json` of any document with the members of `to_json` restores ten fields and leaves the other three |
| WireForms.PayloadMembers | src/zmq_relay.cpp:423-435 | decoding `data` and `chunk_data` gives the bytes; the member `chunk_data` exists iff there is a chunk |
| WireForms.AugmentedMembers | src/zmq_relay.cpp:200-213 | adding the envelope and erasing the payload members changes no other member |
| WireForms.MultipartFrames | src/zmq_relay.cpp:207-225 | with the flag set: topic, metadata without the two payload members, raw data, and the raw chunk iff there is one |
| WireForms.DocumentFrames | src/zmq_relay.cpp:226-230 | without it: topic and one document whose payload members decode to the bytes |
| WireForms.EnvelopeMembers | src/zmq_relay.cpp:200-213 | in both forms version, session id and message id are those of the envelope and every other member but the payloads is that of `to_json` |
| WireForms.BuildMessage | src/zmq_relay.cpp:198-231 | the frames, added one by one, of the form that the flag selects: three or four with the raw payloads, or two |
| WireForms.WireFormsCarryThePacket | src/zmq_relay.cpp:207-231 | a receiver gets the same topic, packet and envelope from both forms, for every packet including empty payloads; the chunk frame exists iff the key `chunk_data` does; a built packet comes back whole |
| WireForms.PushedDocumentReceived | src/zmq_relay.cpp:277-283 | the document on the PUSH socket carries the whole packet too |
| RelayInvariants.InvariantKept | src/zmq_relay.cpp:84-293 | every step of every thread keeps the invariant |
| RelayInvariants.ReachableInvariant | src/zmq_relay.cpp:84-293 | every reachable state satisfies the invariant |
| RelayInvariants.PublisherKeepsIds | src/zmq_relay.cpp:203 | assigned ids are 1, 2, ... up to `next_message_id_` - 1, each once |
| RelayInvariants.PublisherKeepsCounts | src/zmq_relay.cpp:233-235 | each finished packet is counted once, as published or as an error |
| RelayInvariants.CommanderKeepsLockStep | src/zmq_relay.cpp:241-266 | the command thread keeps requests, replies, socket and counter in step |
| RelayInvariants.InitializeKeepsLives | src/zmq_relay.cpp:84-129 | `Initialize`, failing anywhere, starts a worker only with its socket open |
| RelayInvariants.ShutdownKeepsLives | src/zmq_relay.cpp:131-144 | `Shutdown` closes no socket of a running worker |
| RelayTheorems.PublishedExactlyOnceInOrder | src/zmq_relay.cpp:146-239 | pushed = finished ++ in hand ++ queue, in every interleaving; published + errors + queued + one uncounted at most = pushed |
| RelayTheorems.StreamIdsIncrease | src/zmq_relay.cpp:198-237 | ids on the PUB stream strictly increase, across restarts of the relay object too |
| RelayTheorems.MissingIdsAreFailures | src/zmq_relay.cpp:198-237 | the assigned ids missing from the stream are exactly the failures after assignment, and number at most `pub_send_errors` once counted |
| RelayTheorems.NoFailuresNoGaps | src/zmq_relay.cpp:203 | with no such failure the k-th message sent has id k |
| RelayTheorems.LeftoversGoFirst | src/zmq_relay.cpp:187-196 | from any state on, what is in hand and queued is finished, in order, before anything pushed later |
| RelayTheorems.ReliableQueueConservation | src/zmq_relay.cpp:156-161 | the queue never exceeds `max_queue_size`; offered = dropped + handled + in hand + queued, the kept ones in order |
| RelayTheorems.DroppedOnlyWhenFull | src/zmq_relay.cpp:158-160 | a step drops a packet iff it offers one to a full queue; `publish_dropped` stays 0 |
| RelayTheorems.PushStreamFollowsAccepted | src/zmq_relay.cpp:155-167 | with one caller the PUSH stream is a sub-sequence of the accepted packets; stream ++ in hand ++ queue is all of them iff nothing was dropped and every send delivered |
| RelayTheorems.CallersKeepTheirOrder | src/zmq_relay.cpp:155-167 | with any number of callers, each one's packets are offered and pushed in the same order, with at most one between the two |
| RelayTheorems.RejectedPacketsGoNowhere | src/zmq_relay.cpp:149-153 | no packet the filter rejects is ever in a queue, in a thread's hand or on a stream |
| RelayTheorems.AdmittedCallsAccountedFor | src/zmq_relay.cpp:146-168 | admitted calls = filtered + pushed for publishing + still in progress |
| RelayTheorems.NoStreamingNoRelaying | src/zmq_relay.cpp:147 | without packet streaming neither path relays anything |
| RelayLifecycle.WorkersExitSoon | src/zmq_relay.cpp:187-293 | once `running_` is false the publisher takes at most 5 more steps, the reliable queue thread 3, the command thread 5, however they are interleaved |
| RelayLifecycle.WorkersAreNeverStuck | src/zmq_relay.cpp:187-293 | a worker that has not exited can always take a step |
| RelayLifecycle.ShutdownCompletes | src/zmq_relay.cpp:131-144 | a shutdown in progress can be completed from every state, within the sum of the ranks |
| RelayLifecycle.DownIsQuiet | src/zmq_relay.cpp:131-144 | after the joins no worker step is possible, no packet is in hand and the counters are exact |
| RelayLifecycle.SocketsOutliveWorkers | src/zmq_relay.cpp:139-142 | no worker uses a closed socket |
| RelayLifecycle.WorkersKeepRunning | src/zmq_relay.cpp:110-121 | between a successful `Initialize` and the next `Shutdown` exactly the enabled workers run: none exits of its own accord |
| RelayLifecycle.RunningMeansOpen | src/zmq_relay.cpp:88-106 | `running_` is set only with exactly the enabled sockets open, and is clear before any is closed |
| RelayLifecycle.StartedInOrder | src/zmq_relay.cpp:88-121 | at each stage of `Initialize` exactly the earlier ones are done: PUB, REP, PUSH, `running_`, then the threads |
| RelayLifecycle.JoinedInOrder | src/zmq_relay.cpp:131-137 | at each stage of `Shutdown` the earlier threads have exited |
| RelayLifecycle.CountersNeverFall | src/zmq_relay.hpp:136-143 | no step lowers a counter or moves it by more than one, opening sockets again included |
| RelayCommands.CommandsInLockStep | src/zmq_relay.cpp:241-266 | the k-th reply answers the k-th request, at most one request is open, `commands_processed` counts the sends that returned |
| RelayCommands.WedgedIffReplyLost | src/zmq_relay.cpp:249-262 | in every run the socket owes a reply between commands iff some step lost a reply since the socket was opened; then and only then requests outnumber replies |
| RelayCommands.LostReplyEndsTheDialogue | src/zmq_relay.cpp:255-262 | the step that loses a reply is the last of the dialogue: in every continuation nothing is received or replied before the next `Initialize` |
| RelayCommands.ServedIffNoReplyLost | src/zmq_relay.cpp:249-262 | in every run a thread about to receive gets the waiting request iff no step lost a reply since the socket was opened |
| RelayCommands.OneLostReplyWedges | src/zmq_relay.cpp:253-262 | with the command interface alone, one send that throws or does not deliver wedges it; only the one that throws goes uncounted |
| RelayDelivery.BurstOverflows | src/zmq_relay.cpp:156-161 | every burst of accepted packets has an execution that drops exactly those beyond `max_queue_size` |
| RelayDelivery.NothingDroppedWithinTheBound | src/zmq_relay.cpp:156-161 | in every reachable state, if no more than `max_queue_size` packets were ever offered, none was dropped |
| RelayDelivery.DropPossibleIffBeyondTheBound | src/zmq_relay.cpp:156-161 | some execution that offers just these accepted packets drops one iff they are more than `max_queue_size` |
| RelayDelivery.OrdersAgreeOneAtATime | src/zmq_relay.cpp:155-167 | in every run in which no two calls are between their pushes at once, the packets pushed for publishing are a prefix of those offered, short by at most one |
| RelayDelivery.TwoPendingCallsMayReorder | src/zmq_relay.cpp:155-167 | from every reachable state with two calls between their pushes and different packets, two more steps make the orders on the two paths differ |
| RelayDelivery.ReorderingIsForGood | src/zmq_relay.cpp:155-167 | orders that differ stay different in every continuation |
| RelayDelivery.TwoCallersMayReorder | src/zmq_relay.cpp:155-167 | two callers of a new relay can be ordered oppositely on the two paths |
| Schedules.PublisherDrains | src/zmq_relay.cpp:187-239 | whatever the other threads do short of a shutdown, six turns of the publisher for each packet queued finish all that was pushed before, in order |
| Schedules.PublisherSends | src/zmq_relay.cpp:198-233 | if nothing throws, everything the publisher finishes is sent, with consecutive ids |
| Schedules.PusherDrains | src/zmq_relay.cpp:268-293 | likewise three turns of the reliable queue thread for each packet |
| Schedules.CommanderAnswers | src/zmq_relay.cpp:241-266 | with requests waiting and sends that deliver, every five turns of the command thread give a reply |
| Commands.HandlerAnswers | src/zmq_relay.cpp:303-309 | a registered handler gets `params` or an empty object, its answer is the reply as it is, and its exception an error reply |
| Commands.UnknownCommand | src/zmq_relay.cpp:310-312 | a name without a handler gets the fixed text |
| Commands.MalformedCommand | src/zmq_relay.cpp:303-316 | a text that does not parse or has no textual `command` gets the text of the exception |
| Commands.RepliesAreProcessedRequests | src/zmq_relay.cpp:301-317 | in every reachable state the k-th reply is what the handler registered for the k-th request answered at its time, or the error reply of the case |
| Relay.ZmqRelay.PublishPacket | src/zmq_relay.cpp:146-169 | under any schedule the call takes exactly its 1, 2, 3 or 5 steps; where it returns is decided by `running_` as found at the first, `pub_socket_` as found at the second, and the filter; the packet is appended once to each enabled path if it gets past them, else to none; undisturbed, the whole effect on queues and counters |
| Relay.ZmqRelay.OfferReliable | src/zmq_relay.cpp:155-161 | the push under `queue_mutex_`, dropped when the queue is full |
| Relay.ZmqRelay.PushForPublishing | src/zmq_relay.cpp:163-168 | the push under `publish_mutex_` |
| Relay.ZmqRelay.PublisherThread | src/zmq_relay.cpp:187-239 | under any schedule the loop takes exactly its turns until it exits or the schedule ends, with nothing in hand; while the relay runs it stays, drains its queue in order in six turns a packet, and sends all of it if nothing throws |
| Relay.ZmqRelay.PublishNext | src/zmq_relay.cpp:192-237 | one pass of the loop finishes the oldest packet, and at most one |
| Relay.ZmqRelay.PopForPublishing | src/zmq_relay.cpp:192-196 | takes the oldest packet if there is one |
| Relay.ZmqRelay.SendPopped | src/zmq_relay.cpp:198-237 | a popped packet is finished once, with a fresh id or none, and counted once |
| Relay.ZmqRelay.ReliableQueueThread | src/zmq_relay.cpp:268-293 | under any schedule exactly its turns; handled ++ queue = packets kept at the end; while the relay runs it stays and drains its queue in order in three turns a packet |
| Relay.ZmqRelay.CommandThread | src/zmq_relay.cpp:241-266 | under any schedule exactly its turns; lock-step at the end; while the relay runs it stays, and answers once in five turns what it is asked; with an owed reply it receives nothing |
| Relay.ZmqRelay.Answer | src/zmq_relay.cpp:250-257 | the reply is the result of processing this request at this time |
| Relay.ZmqRelay.SendReply | src/zmq_relay.cpp:253-262 | what each outcome of the send does to socket, replies and counter |
| Relay.ZmqRelay.Initialize | src/zmq_relay.cpp:84-129 | all eight stages are taken up to the first that fails; true if nothing fails, and then exactly the enabled sockets are open and the enabled workers run, at the top of their loops if undisturbed; leftovers stay in order |
| Joins.WorkersHaveExited | src/zmq_relay.cpp:131-137 | at the end of every schedule that gives the publisher and the command thread five steps each and the reliable queue thread three, in any order, once `running_` is false, all have exited |
| Relay.ZmqRelay.Shutdown | src/zmq_relay.cpp:131-144 | returns with all workers exited, sockets closed and every pushed packet counted or still queued, unless the schedule ends while the worker being joined still runs; it returns under every schedule with five, five and three steps of the workers, and if all are off |
| Monitor.MonitorModel.HandleMessage | examples/packet_monitor_ftxui.cpp:73-122 | one message: skipped, recorded or ending the thread; in each case every field is the summary of the history, an ill-formed message being counted in the batch and not shown |
| Monitor.MonitorModel.SubscriberThread | examples/packet_monitor_ftxui.cpp:65-128 | the loop ends by an exception iff a receive throws or an ill-formed message arrives before a stop; however it ends, it has recorded exactly the messages before that, in order, and rows, counters, batch variables, last id, last time and connection flag are the summaries of them |
| Monitor.MonitorModel.CountInBatch | examples/packet_monitor_ftxui.cpp:85-98 | the three batch variables are summaries of the history before and after; the count is n mod 10, and the tenth message of a batch that took time sets the rate to 10000 / elapsed |
| Monitor.MonitorModel.BatchesOfTen | examples/packet_monitor_ftxui.cpp:86-98 | of every valid model, by message numbers: count n mod 10, start the arrival of message 10 b within batch b and of the last message between batches, rate 0 before the tenth message and 10000 over the time of the batch just completed |
| Monitor.RateStays | examples/packet_monitor_ftxui.cpp:92-95 | within a batch, and over one that took no time, the rate stays |
| Monitor.MonitorModel.PushRow | examples/packet_monitor_ftxui.cpp:119-120 | newest row in front, oldest dropped beyond `max_rows` |
| Monitor.BatchOfLongerLog | examples/packet_monitor_ftxui.cpp:86-98 | how the three variables move with one more message, within a batch of ten and at its end |
| Monitor.NewestFirstSnoc | examples/packet_monitor_ftxui.cpp:117-121 | the bounded buffer is always the last min(n, `max_rows`) messages, newest first |
| Monitor.RowsAreNumbered | examples/packet_monitor_ftxui.cpp:106-120 | there are min(n, `max_rows`) rows; `local_seq` runs n, n-1, ... from the top and each row shows its own message id and its own message's flag |
| Monitor.RowsShowTheirMessages | examples/packet_monitor_ftxui.cpp:100-105 | time, topic, id, name, direction and size of each row are those of its message |
| Monitor.FlagRule | examples/packet_monitor_ftxui.cpp:109-116 | for ids in any order: a row is flagged iff its id is not zero and, in 64 bits, does not follow the latest one before it that is not zero |
| Monitor.FlaggedIffSkips | examples/packet_monitor_ftxui.cpp:109-116 | over positive increasing ids a row is flagged iff its id is not the successor of the one before |
| Monitor.MetadataReads | examples/packet_monitor_ftxui.cpp:102-107 | a missing member reads as 0 or the empty string, a present one converts or throws, and reading anything but an object throws |
| Monitor.ReadableIff | examples/packet_monitor_ftxui.cpp:74-79 | which inputs have a message: at least two frames, the second a document |
| Monitor.EndsByExceptionIff | examples/packet_monitor_ftxui.cpp:72-127 | an exception ends the loop iff some input before any stop is a receive that throws or an ill-formed message |
| Monitor.AcceptedWithoutEnd | examples/packet_monitor_ftxui.cpp:72-79 | up to a stop or an exception every well-formed message is recorded, in order |
| Monitor.StopEndsTheLoop | examples/packet_monitor_ftxui.cpp:72 | nothing after a stop is looked at |
| EndToEnd.SubscriberRebuildsWhatWasPushed | src/zmq_relay.cpp:146-239 | behind any order-preserving lossy channel, the packets rebuilt are a sub-sequence of the packets pushed, unaltered; all of them if as many arrive |
| EndToEnd.FramesOnTheWire | src/zmq_relay.cpp:198-231 | of every message on the stream: number of frames, topic, version, session id, message id, type, and where the payloads are |
| EndToEnd.EveryPacketAccountedFor | src/zmq_relay.cpp:146-239 | as a multiset of packets: pushed = received + stream messages whose id was not received + failed sends + in hand + queued, for every lossy in-order channel; `pub_send_errors` (and one about to be counted) is the number of failed ones; admitted calls are these, the filtered and those in progress |
| EndToEnd.ConsumerRebuildsWhatWasAccepted | src/zmq_relay.cpp:155-161 | with one caller, a consumer pulling from the PUSH socket rebuilds a sub-sequence of the accepted packets, unaltered; all of them if it gets as many |
| EndToEnd.ArrivalsAreWellFormed | examples/packet_monitor_ftxui.cpp:76-107 | every message of the relay, in either form, gives the monitor a row with its own topic, id, name, direction, size and message id |
| EndToEnd.LoopObservesTheStream | examples/packet_monitor_ftxui.cpp:72-79 | the loop's history is exactly the relay's messages that arrive, and none of them ends it |
| EndToEnd.ReceivedIdsIncrease | src/zmq_relay.cpp:203 | received ids strictly increase and were all assigned |
| EndToEnd.GapsAreExact | examples/packet_monitor_ftxui.cpp:106-116 | a row after the first is flagged iff some assigned id strictly between its id and the previous one was not received; the first never |
| EndToEnd.NoFlagsIffContiguous | examples/packet_monitor_ftxui.cpp:106-116 | no row is flagged iff the received ids form one contiguous interval |
| EndToEnd.MonitorShowsExactlyTheLosses | examples/packet_monitor_ftxui.cpp:72-122 | from the loop's inputs to its flags: every message the lossy in-order channel delivers is recorded, and flagged iff one before it is missing |
| EndToEnd.RowsShowExactlyTheLosses | examples/packet_monitor_ftxui.cpp:99-122 | the newest messages that arrive are the rows, from top to bottom and up to `max_rows`, each with its own topic, id, name, direction, size, number and message id, and flagged iff one before it is missing |
| EndToEnd.RunMonitor | examples/packet_monitor_ftxui.cpp:184-190 | that is what a new monitor holds after its loop has run on what the channel delivers of the relay's messages, and only a receive that throws can end the loop by an exception |
| EndToEnd.EverythingPushedArrives | src/zmq_relay.cpp:187-239 | if no send has failed or fails, nobody shuts down, the publisher gets six turns for each packet queued and the channel loses nothing, the packets rebuilt begin with all that were pushed, in order and unaltered |
| EndToEnd.ObservedIds | examples/packet_monitor_ftxui.cpp:107 | the message ids the monitor reads from either wire form are those the relay assigned |
| EndToEnd.MissingIdsExplained | src/zmq_relay.cpp:203-236 | an assigned id that was not received was either a failed send or lost on the way, not both |
| EndToEnd.RowsDecrease | examples/packet_monitor_ftxui.cpp:99-121 | within a session message ids strictly decrease down the rows and `local_seq` by one a row |

## Left out

- Real ZeroMQ: contexts, high-water marks, linger, timeouts and `ApplySocketOptions`. Sockets are sends and receives that return or throw, and an order-preserving channel that may lose messages.
- JSON text: parsing and dumping are the library's. Documents are values, a dumped document is kept as the value it stands for, and a member name that the relay uses is a constructor of `Json.Key`. Floating-point members are not values of the model.
- Condition-variable wake-ups, the 50 ms and 10 ms waits and the receive timeout: spurious wake-ups are allowed and nothing is said about time.
- Unsynchronised accesses outside the step model: the unlocked `packet_queue_.size()` in the stats reply, a packet filter replaced while the relay runs, and `pub_socket_` read by a caller while another thread resets it.
- The bodies of the built-in command handlers, the inject payload (its decoding is a stub) and `packets_injected`: handlers are foreign functions, `ProcessCommand` only chooses between them.
- The packet-name tables and `GetPacketName`: the name table is a parameter.
- `HealthThread`, the user interface and examples/packet_monitor.cpp: network client and display.
- src/kpacket.cpp and src/kpacket.hpp: plugin callbacks over an SDK that is not part of this model.
- Fairness: `WorkersExitSoon`, `PublisherDrains` and their siblings count a worker's own steps, and `ShutdownCompletes` gives a completing execution; that the scheduler runs every thread is the operating system's promise.
- Several monitors or a monitor that outlives the relay process: message ids restart with a new relay object, and the end-to-end lemmas speak of one relay object.
