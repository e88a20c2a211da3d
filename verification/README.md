# Verification of the EdgeFlow gateway core

The gateway polls devices in one thread, hands the points through a lock-free ring to a worker
thread that judges, stores, controls and publishes them, and lets a third thread replay what could
not be published. This project models that pipeline in Dafny and proves what it keeps under every
interleaving, every partial write and every failure the code provides for. The Modbus CRC and its
serial exchange, which the repository keeps as a reference implementation, are modelled as well.

`dafny verify dfyconfig.toml` checks everything.

## How it is organised

| module | models | form |
|---|---|---|
| `SpscRing` | the ring, one operation at a time | class over an array, abstracted to a sequence |
| `RingSteps` | the ring at the granularity of single atomic loads and stores, both threads | step machine with history |
| `Bits`, `Crc16`, `CrcDetection` | `modbus_crc16`; the algebra of what its check detects | method with the nested loops, bit-serial specification, GF(2) polynomials |
| `DoubleErrors` | two flipped bits: the order of x modulo the generator | the register as powers of x, Frobenius, Euclid |
| `ModbusSerial` | the read loop and the exchange | methods over a buffer, refining a function of the scripted line |
| `MqttCodec` | Remaining Length and the three packets; the decoder of MQTT 3.1.1 as the other side | method for the encoder loop, functions |
| `MqttLink`, `MqttSession` | the connection under its mutex | transition functions with the bytes of every connection; class whose methods have exactly those effects |
| `Storage` | the telemetry table | functions on rows; class |
| `Delivery`, `ReplayLog`, `WireLedger`, `Duplicates`, `Replay` | worker and monitor racing on stored rows; in which order rows are replayed; what arrives on the wire; when a row arrives twice; uninterrupted replay rounds | step machine, invariants over all runs |
| `StateEngine`, `CommandScheduler`, `WorkerControl` | control: the engine alone, the scheduler alone, and both inside `worker_main` | classes refining transition functions, run lemmas |
| `Gateway`, `FineGateway` | the three threads together, the ring as a queue and as its single loads and stores | step machines that project onto the ones above |
| `GatewayApp` | the application object and one pass of each thread's loop | class over the ring, table, session and control objects |

`Modular` and `DeviceModel` hold remainder facts and shared value types.

The step machines quantify over all schedules. What the kernel, the broker and the database answer
is an argument of the step (`Reply`, `Opening`, `ok`), so a theorem over all steps covers all
answers. History fields (`pushed`, `live`, `replayed`, `failed`, `beats`, ...) are written by steps
and read by none. `WireLedger` shows that the delivery logs are exact: they name every PUBLISH
packet that can be decoded from the connections' bytes, with multiplicity, and no other.

## Main results

* The ring is a linearizable bounded FIFO of `size - 1` places: refusals when full and misses when
  empty included; the two threads never touch the same slot; a count taken by either thread is the
  true occupancy at one of its own loads. The three-thread machine built on the ring's single loads
  and stores is a refinement of the one built on a queue.
* `modbus_crc16` is the unique remainder of the message polynomial modulo x^16 + x^15 + x^2 + 1
  with the 0xFFFF preset. A corrupted frame passes the receiver's check if and only if the flipped
  bits are a multiple of that polynomial; hence every burst within 16 bits and every odd number of
  flips is caught, and a 17-bit burst equal to the generator is not. Two flipped bits pass if and
  only if they are a multiple of 32767 bits apart, so never in a frame of at most 4095 bytes.
* Every byte stream the session ever wrote decodes to one CONNECT, then whole PUBLISH and PINGREQ
  packets, then nothing or the cut-off start of one more packet that the session could have sent
  there, on a connection that is then closed for good.
* No row is marked uploaded before its packet is complete on a connection, and rows worded alike each
  have a packet of their own; a row is written at most twice plus once per failed replay mark, and
  by both threads only if it was fetched for replay while the worker held it or if its live mark
  failed; replay publishes ids in increasing order exactly when it repeats none; with a healthy
  broker ceil(pending / batch) rounds drain the backlog, and not fewer.
* Nothing polled disappears uncounted, and the stored table is the polled, undropped, successfully
  appended points in their order.
* What goes out is what came in: each logged publish carries the text of its own record; every
  snapshot field is the last GOOD reading; a discharge is commanded exactly when the last readings
  call for one, and each command ends VERIFIED exactly when its own write succeeded.
* The engine alone is in FAULT exactly when its temperature snapshot is over the limit; inside the
  worker that never happens. Every command is within its power limits and never pulls the grid below
  the shaving threshold; every accepted command is settled once, in order.

## Where the code differs from what its documentation suggests

The model follows the code.

* `README.md:30` and `docs/实现状态.md:49` list a temperature alarm. In the running gateway
  `apply_quality_rules` marks a reading over the limit BAD and the engine ignores readings that are
  not GOOD, so the alarm and the FAULT state are unreachable unless `temp_high` is negative
  (`WorkerControl.FaultReachableIffNegativeLimit`). The engine called directly does raise it.
* Called without an alarm slot, the engine overwrites FAULT with RUNNING (`StateEngine.NoSlotNoFault`)
  and its commands keep to the temperature limit in all runs exactly when no discharge is allowed at
  all (`StateEngine.NoSlotCoolIffNoDischarge`).
* A charge at or below the minimum raises its alarm before RUNNING is set, so the engine stays in INIT
  exactly as long as every GOOD point is such a charge (`StateEngine.InitIffOnlyLowCharges`).
* The row fetch resets the quality to GOOD, so a reading published live as BAD is replayed as GOOD
  (`Gateway.ReplayReportsGood`; every replay message in `WireLedger.WireIsAccounted` says GOOD).
* A row is pending from its append until its live mark, so a replay round can fetch it while the
  worker holds it and it reaches the broker twice although nothing failed
  (`Delivery.TwiceWithoutFailure`). That, or a failed live mark, is the only way it is written by both
  threads (`Duplicates.BothOnlyIfLoosened`, `Duplicates.OnceIfCalm`), and `Duplicates.DoubledIffDoomed`
  says exactly when it can no longer be prevented.
* The scheduler accepts an id smaller than the next one; accepted ids increase exactly when no
  submission does that (`CommandScheduler.IdsIncreaseIffRegular`).
* `spsc_ring_count` is right only for the producer and the consumer. No other thread of this program
  calls it (app.c:50 and 128); one that did would get the pushes at its head load minus the pops at
  its tail load, modulo size (`RingSteps.ForeignCountIs`), which can be three on a ring that never held
  more than one point (`RingSteps.ForeignCountCanBeWrong`).
* The serial read loop stops at five bytes, so a reply arriving in pieces is judged truncated unless
  all but its last piece is shorter than that (`ModbusSerial.SeenWholeIffShortLead`).
* Lengths of 128^4 and above would be encoded as a malformed field
  (`MqttCodec.LengthRoundTrip`); the buffer guards keep every packet far below.

## Model

| member | source | states |
|---|---|---|
| `SpscRing.SpscRing.Init` | src/core/ring.c:12-26 | succeeds exactly for a size of at least two with memory at hand, leaving an empty ring; a size below two touches nothing |
| `SpscRing.SpscRing.Push` | src/core/ring.c:38-59 | appends at the end of the contents unless size - 1 points are inside, in which case nothing changes but the drop counter |
| `SpscRing.SpscRing.Pop` | src/core/ring.c:61-79 | takes the oldest point; nothing exactly when the contents are empty or the ring is not initialised |
| `SpscRing.SpscRing.CountPoints` | src/core/ring.c:81-95 | the length of the contents, through the wrap-around expression |
| `Modular.RemIsRemainder` | src/core/ring.c:49 | the remainder the ring's index arithmetic uses is the mathematical one |
| `RingSteps.SlotIsRemainder` | src/core/ring.c:49-77 | the head and tail indices, stepped with 32-bit arithmetic, are the unbounded push and pop counters modulo size |
| `RingSteps.SlotCount` | src/core/ring.c:89-94 | the count expression recovers the distance of two positions from their slots |
| `RingSteps.TailAheadIsFull` | src/core/ring.c:48-54 | seeing the next slot equal to tail means exactly size - 1 points are inside |
| `RingSteps.StepKeepsInv` | src/core/ring.c:38-95 | one atomic load, store or slot copy by either thread keeps the whole invariant |
| `RingSteps.PoppedIsPrefixOfPushed` | src/core/ring.c:38-79 | under every interleaving the popped points are a prefix of the pushed ones, occupancy is 0 to size - 1, and the slots from tail to head hold exactly the rest |
| `RingSteps.NoSlotRace` | src/core/ring.c:56-76 | the producer never writes the slot the consumer is reading |
| `RingSteps.RingRefinesBoundedQueue` | src/core/ring.c:38-79 | the operations, each at one step inside its call, form a history a FIFO of size - 1 places answers exactly as the calls did; dropped counts the refusals |
| `RingSteps.PushesAreThoseOffered` | src/core/ring.c:38-59 | the push calls answered for exactly the points they were called with, in order, and what was pushed are the points of those that answered true |
| `RingSteps.OwnCountIsTrue` | src/core/ring.c:81-95 | a count by the producer or the consumer is the true occupancy at one of its own loads |
| `RingSteps.ForeignCountIs` | src/core/ring.c:81-95 | for any steps before and between a third thread's two loads: pushes at the first minus pops at the second, modulo size; the occupancy at the first exactly when the pops in between are a multiple of size |
| `RingSteps.ForeignCountCanBeWrong` | src/core/ring.c:89-94 | a concrete interleaving in which that is three with the ring never above one |
| `Crc16.ChunkStepIsBitSteps` | src/ingress/modbus_rtu.c:18-25 | XORing bits in and turning the register once per bit equals shifting them in one at a time |
| `Crc16.ShiftByteIn` | src/ingress/modbus_rtu.c:18-25 | one pass of the outer loop is eight bit-serial steps |
| `Crc16.ModbusCrc16` | src/ingress/modbus_rtu.c:13-28 | the nested loops over 16-bit words compute the bit-serial CRC of the bytes in line order |
| `Crc16.StandardExample` | src/ingress/modbus_rtu.c:13-28 | the CRC of the frame 02 07 is 1241 hexadecimal, as in MODBUS over Serial Line V1.02 |
| `CrcDetection.FeedLinear` | src/ingress/modbus_rtu.c:17-26 | the register is affine over XOR |
| `CrcDetection.FeedInjective` | src/ingress/modbus_rtu.c:20-24 | the step is invertible: the same bits never merge two registers |
| `CrcDetection.DivisionRow` | src/ingress/modbus_rtu.c:20-24 | one shift is one row of GF(2) long division, in both directions |
| `CrcDetection.DivisionUnique` | src/ingress/modbus_rtu.c:15-27 | quotient and remainder are the only ones |
| `CrcDetection.FeedIsDivision` | src/ingress/modbus_rtu.c:15-27 | the register holds the running remainder |
| `CrcDetection.ChecksumIsRemainder` | src/ingress/modbus_rtu.c:13-28 | the CRC is the remainder of the message polynomial with preset, and no other word is |
| `CrcDetection.AcceptsIffZeroResidue` | src/ingress/modbus_serial.c:135-139 | the check passes exactly when the CRC over the whole frame is zero |
| `CrcDetection.SealedFrameAccepted` | src/ingress/modbus_serial.c:135-139 | data followed by its CRC, low byte first, is always accepted |
| `CrcDetection.AcceptedIffFlipsVanish` | src/ingress/modbus_serial.c:135-139 | whether a corrupted frame passes depends on the flipped bits alone |
| `CrcDetection.UndetectedIffMultiple` | src/ingress/modbus_serial.c:135-139 | it passes if and only if the flipped bits are a multiple of the generator |
| `CrcDetection.BurstDetected` | src/ingress/modbus_serial.c:135-139 | every nonzero error within 16 consecutive transmitted bits makes the receiver reject the frame |
| `CrcDetection.SeventeenBitBurstVanishes` | src/ingress/modbus_serial.c:135-139 | sixteen is the limit: the generator itself goes unseen anywhere in the frame |
| `CrcDetection.FeedParity` | src/ingress/modbus_rtu.c:17-26 | the register's parity follows the parity of the bits shifted in |
| `CrcDetection.ChecksumParity` | src/ingress/modbus_rtu.c:15-27 | a message and its CRC have the same parity |
| `CrcDetection.OddErrorsDetected` | src/ingress/modbus_serial.c:135-139 | any odd number of flipped bits anywhere is rejected |
| `DoubleErrors.PowerReduces` | src/ingress/modbus_rtu.c:20-24 | turning the register obeys x^16 = x^15 + x^2 + 1 at every power of x |
| `DoubleErrors.Frobenius` | src/ingress/modbus_rtu.c:20-24 | on multiples of x + 1 the trinomial's relation x^16 = x^2 + x can be squared any number of times |
| `DoubleErrors.PowerOrder` | src/ingress/modbus_rtu.c:20-24 | k turns bring the register back to 1 if and only if 32767 divides k |
| `DoubleErrors.DoubleErrorUnseenIff` | src/ingress/modbus_serial.c:135-139 | two flipped bits pass the check if and only if their distance is a multiple of 32767 |
| `DoubleErrors.DoubleErrorsDetected` | src/ingress/modbus_serial.c:135-139 | any two flipped bits in a frame of at most 4095 bytes are rejected |
| `ModbusSerial.ReceiveFits` | src/ingress/modbus_serial.c:83-107 | the read loop never exceeds max and only adds behind what is there |
| `ModbusSerial.RetryIgnored` | src/ingress/modbus_serial.c:94-97 | an interrupted read anywhere in the script changes nothing |
| `ModbusSerial.ReceiveEnds` | src/ingress/modbus_serial.c:83-108 | below five bytes silence or end of line hands over what came and an error discards it; the chunk that reaches five ends the loop, cut to the room there is |
| `ModbusSerial.ReadWithTimeout` | src/ingress/modbus_serial.c:77-109 | the buffer holds the concatenated chunks up to the stopping point; nothing past max changes |
| `ModbusSerial.CrcMatches` | src/ingress/modbus_serial.c:135-139 | comparing the two words decides exactly the bit-level check |
| `ModbusSerial.Exchange` | src/ingress/modbus_serial.c:111-142 | a length of at least five exactly when the request went out whole and at least five bytes with a matching CRC came back; -1 otherwise |
| `ModbusSerial.SeenWholeIffShortLead` | src/ingress/modbus_serial.c:103-106 | a reply in pieces is seen whole exactly when all but its last piece is shorter than five bytes |
| `MqttCodec.LengthRoundTrip` | src/egress/mqtt_session.c:42-56 | decoding an encoded length gives it back and leaves what follows, exactly below 128^room |
| `MqttCodec.LengthMinimal` | src/egress/mqtt_session.c:42-56 | no byte string that decodes to the length is shorter |
| `MqttCodec.LengthPrefixShort` | src/egress/mqtt_session.c:42-56 | a proper prefix always asks for more bytes |
| `MqttCodec.EncodeRemainingLength` | src/egress/mqtt_session.c:42-56 | the loop fills the buffer with the encoding and returns its length |
| `MqttCodec.FitsInLengthField` | src/egress/mqtt_session.c:107-110 | the buffer guards keep every packet within the length field |
| `MqttCodec.ConnectBytes` | src/egress/mqtt_session.c:72-86 | CONNECT byte by byte |
| `MqttCodec.PublishBytes` | src/egress/mqtt_session.c:112-120 | PUBLISH byte by byte |
| `MqttCodec.PingBytes` | src/egress/mqtt_session.c:125-129 | PINGREQ is C0 00 |
| `MqttCodec.PacketRoundTrip` | src/egress/mqtt_session.c:58-129 | a packet followed by anything parses back to itself |
| `MqttCodec.CutPacketIncomplete` | src/egress/mqtt_session.c:58-129 | a packet cut anywhere is incomplete, never another packet |
| `MqttCodec.StreamRoundTrip` | src/egress/mqtt_session.c:58-129 | packets back to back and the start of one more decode to exactly those |
| `MqttLink.SendVerdict` | src/egress/mqtt_session.c:19-34 | success means every byte of the packet was added to the connection, failure a proper prefix |
| `MqttLink.SendAddsAccepted` | src/egress/mqtt_session.c:19-34 | sending adds the packet up to the total the kernel takes before its first refusal, through any partial and interrupted writes, and succeeds exactly when that is all of it |
| `MqttLink.SendIgnoresSplits` | src/egress/mqtt_session.c:19-34 | splitting a write in two or interrupting it, anywhere, changes nothing |
| `MqttLink.RefusedExactly` | src/egress/mqtt_session.c:68-110 | PUBLISH is refused exactly when topic and payload exceed 1019 bytes, CONNECT exactly when the client id exceeds 145 |
| `MqttLink.EnsureOutcome` | src/egress/mqtt_session.c:194-218 | a live connection is reused untouched; otherwise a new one gets as much of CONNECT as the kernel takes and is kept exactly when that was all and the broker accepted |
| `MqttLink.PublishOutcome` | src/egress/mqtt_session.c:252-264 | the packet ends the connection's bytes and the connection stays, or no connection is left; which, exactly |
| `MqttLink.PingOutcome` | src/egress/mqtt_session.c:346-356 | a live connection gets C0 00, as far as it takes them, and is closed if not both; otherwise nothing happens |
| `MqttLink.ConfiguredPacketsFit` | src/egress/mqtt_session.c:194-211 | with configured name sizes the guards never refuse a packet |
| `MqttLink.EnsureGood` | src/egress/mqtt_session.c:194-218 | connecting or reusing keeps every stream well formed, and leaves a connection that has its CONNECT |
| `MqttLink.PublishGood` | src/egress/mqtt_session.c:243-284 | so does a publish, however its writes end |
| `MqttLink.PingGood` | src/egress/mqtt_session.c:338-356 | so does a ping |
| `MqttLink.StreamsDecode` | src/egress/mqtt_session.c:19-356 | over every run each connection's bytes decode to one CONNECT first, then whole packets, then nothing or a proper prefix of one packet that may follow, which an open connection does not have |
| `MqttLink.ClosedIsFrozen` | src/egress/mqtt_session.c:184-218 | nothing is ever written again on a connection once it is not the open one |
| `MqttSession.Session.constructor` | src/egress/mqtt_session.c:169-181 | a new session has no connection |
| `MqttSession.Session.WriteAll` | src/egress/mqtt_session.c:19-34 | the buffer is appended up to the total the kernel takes before its first refusal; 0 exactly when that is all of it |
| `MqttSession.FillConnect` | src/egress/mqtt_session.c:75-86 | protocol name, level, flags, keepalive, id length and id, put in place field by field, are the body of CONNECT |
| `MqttSession.FillPublish` | src/egress/mqtt_session.c:115-120 | topic length, topic and payload put in place are the body of PUBLISH |
| `MqttSession.Session.AssembleConnect` | src/egress/mqtt_session.c:58-86 | the 160-byte buffer starts with exactly the CONNECT packet, or the packet is refused because it is longer |
| `MqttSession.Session.AssemblePublish` | src/egress/mqtt_session.c:97-120 | the 1024-byte buffer starts with exactly the PUBLISH packet, or the packet is refused because it is longer |
| `MqttSession.Session.SendPacket` | src/egress/mqtt_session.c:88-122 | writing an assembled packet has the effect of sending it |
| `MqttSession.Session.SendPing` | src/egress/mqtt_session.c:125-129 | the two bytes written are PINGREQ |
| `MqttSession.Session.SendConnect` | src/egress/mqtt_session.c:58-95 | CONNECT with the 16-bit keepalive is sent; success needs the broker's answer too |
| `MqttSession.Session.SendPublish` | src/egress/mqtt_session.c:97-123 | PUBLISH is sent, or refused past 1024 bytes |
| `MqttSession.Session.ShutdownLocked` | src/egress/mqtt_session.c:184-191 | descriptor and flag are reset together; nothing is written |
| `MqttSession.Session.EnsureConnectedLocked` | src/egress/mqtt_session.c:194-218 | the session ends connected on the old or on a new connection, or fully reset |
| `MqttSession.Session.PublishTelemetry` | src/egress/mqtt_session.c:243-264 | the effect of the publish transition; on success the connection ends with a PUBLISH of the point, its JSON text whole or its first 383 bytes, on the telemetry topic |
| `MqttSession.Session.PublishHeartbeat` | src/egress/mqtt_session.c:266-284 | the effect of the publish transition; on success the connection ends with the payload on the heartbeat topic |
| `MqttSession.Session.PingBroker` | src/egress/mqtt_session.c:338-356 | pings only a live connection and resets it on failure |
| `MqttSession.Session.ReplayRow` | src/egress/mqtt_session.c:314-326 | one pass of the loop: the row is marked only if its packet went out whole |
| `MqttSession.Session.ReplayRows` | src/egress/mqtt_session.c:314-327 | the loop stops at the first failed send and counts successful marks |
| `MqttSession.Session.ReplayPending` | src/egress/mqtt_session.c:286-336 | the call's effect on connection and table is one replay round, which without a database only reconnects; a failed fetch changes nothing |
| `Storage.StorageContext.Append` | src/platform/storage.c:127-167 | a successful insert adds one pending row under a new, larger id; every other outcome leaves the table alone |
| `Storage.StorageContext.FetchPending` | src/platform/storage.c:255-295 | the rows array receives the lowest pending ids, at most max, with quality GOOD and no source id |
| `Storage.StorageContext.MarkUploaded` | src/platform/storage.c:297-316 | exactly the row with that id becomes uploaded, or nothing changes |
| `Storage.PendingMembers` | src/platform/storage.c:270-272 | the pending query selects exactly the rows not uploaded |
| `Storage.PendingSorted` | src/platform/storage.c:270-272 | in increasing id order |
| `Storage.PrefixIsLowest` | src/platform/storage.c:270-274 | a limited fetch gets the lowest pending ids |
| `Storage.MarkFirstPending` | src/platform/storage.c:305-311 | marking the first pending row moves the others up |
| `Delivery.StepInv` | src/runtime/app.c:86-125 | every step of worker or monitor keeps all seven delivery invariants |
| `Delivery.MessageCarries` | src/egress/mqtt_session.c:155-167 | the message of a point is its JSON text, whole or its first 383 bytes, on the telemetry topic |
| `Delivery.NoRowMarkedUnpublished` | src/egress/mqtt_session.c:317-322 | in every reachable state each row is pending, was uploaded at start-up, or was itself written in full by one of the threads and its packet decodes from some connection's bytes |
| `Delivery.AtMostTwicePlusFailedMarks` | src/runtime/app.c:118-122 | over every run a row is written at most once live and at most once more than its failed replay marks by replay |
| `Delivery.ReplayOrder` | src/platform/storage.c:270-289 | a replayed id exceeds all earlier ones or repeats one whose mark failed; ids increase strictly exactly when none repeats, always when no mark fails |
| `Delivery.TwiceWithoutFailure` | src/egress/mqtt_session.c:306-312 | a run without any failure that writes a row twice |
| `WireLedger.WireIsAccounted` | src/egress/mqtt_session.c:243-327 | over every run the PUBLISH packets decoded from all connections are, as a multiset, those the delivery logs name |
| `WireLedger.LiveCarriesRecord` | src/egress/mqtt_session.c:243-264 | each id in the live log has a decoded PUBLISH of the text of its stored record |
| `WireLedger.ReplayCarriesRecord` | src/egress/mqtt_session.c:314-322 | each id in the replay log has a decoded PUBLISH of the text of the record the fetch rebuilds |
| `WireLedger.DecodedAtMostTwicePlusFailedMarks` | src/egress/mqtt_session.c:307-329 | a message only one row has is decoded at most twice plus that row's failed replay marks |
| `WireLedger.MarkedRowsAreOnTheWire` | src/egress/mqtt_session.c:317-322 | for any packet, at least as many copies are decoded as there are rows marked since start-up that were written as that packet |
| `Duplicates.BothOnlyIfLoosened` | src/egress/mqtt_session.c:306-322 | a row written by both threads was fetched while the worker held it, or its live mark failed |
| `Duplicates.OnceIfCalm` | src/runtime/app.c:118-122 | if no fetch happens with a row in the worker's hand and live marks succeed, a row is written at most once plus its failed replay marks |
| `Duplicates.DoubledIffDoomed` | src/egress/mqtt_session.c:306-329 | at any point of any run, within the current replay round a row can end up written by both threads if and only if each has written it or has it in hand or in its snapshot, and then without any failure |
| `Replay.RoundIsRun` | src/egress/mqtt_session.c:286-336 | an uninterrupted replay call is a run of the interleaved machine |
| `Replay.ReturnValueIsProgress` | src/egress/mqtt_session.c:293-335 | the returned number is by how much the call lowered the pending count, whatever failed, and at most the batch |
| `Replay.FullRound` | src/egress/mqtt_session.c:299-328 | a round that marks all it fetched published exactly the min(batch, pending) lowest pending ids, in order |
| `Replay.BacklogDrains` | src/egress/mqtt_session.c:299-328 | after k full rounds the first min(k * batch, pending) ids are published and gone; nothing is left exactly when k * batch reaches the backlog |
| `Replay.HealthyRound` | src/egress/mqtt_session.c:299-328 | a reachable broker and succeeding marks make a round full |
| `Replay.HealthyBacklogDrains` | src/egress/mqtt_session.c:299-328 | from any connection state, healthy rounds empty the backlog exactly from ceil(pending / batch) rounds on, each pending id published once in order |
| `Replay.HealthyRoundByConfiguration` | src/egress/mqtt_session.c:299-328 | a healthy round publishes, marks and returns min(n, pending) lowest ids, n the configured batch from 1 to 64, 50 for 0, 64 above |
| `Replay.HealthyRoundsByConfiguration` | src/egress/mqtt_session.c:299-328 | k healthy rounds empty the backlog exactly when pending is at most k times that n |
| `StateEngine.StateEngine.constructor` | src/runtime/state_engine.c:9-18 | INIT, 80 percent charge, alarm ids from one |
| `StateEngine.StateEngine.UpdateSnapshot` | src/runtime/state_engine.c:20-35 | exactly the field the point names takes the point's value |
| `StateEngine.StateEngine.ProcessTelemetry` | src/runtime/state_engine.c:48-123 | new state, result and slots of one call, on all branches |
| `StateEngine.FaultIffOverTemperature` | src/runtime/state_engine.c:66-95 | engine alone, any calls with an alarm slot: FAULT if and only if the temperature snapshot is over a nonnegative limit; with a negative one as soon as INIT is left |
| `StateEngine.InitNeverReentered` | src/runtime/state_engine.c:69-95 | INIT is never entered again |
| `StateEngine.AlarmIdsGapless` | src/runtime/state_engine.c:70-92 | alarm ids are 1, 2, 3, ... |
| `StateEngine.CommandsSafe` | src/runtime/state_engine.c:97-122 | every command is within [-max, 0), keeps the grid at or above the threshold, meets it exactly when unclamped, and comes from a RUNNING engine with charge and temperature in bounds |
| `StateEngine.SnapshotIsLastReading` | src/runtime/state_engine.c:20-66 | after any calls each snapshot field is the value of the last GOOD point with its id, or 80, 0, 0 before one |
| `StateEngine.VerdictOnReadings` | src/runtime/state_engine.c:62-122 | in terms of the last readings: which alarm a call raises, exactly when it commands a discharge, the command field by field, and the new state |
| `StateEngine.NextCallOnReadings` | src/runtime/state_engine.c:48-123 | over any run, the next call's alarm with its id and, as an if-and-only-if on the readings, its command of -min(reading - threshold, max) |
| `StateEngine.NoSlotNoFault` | src/runtime/state_engine.c:68-95 | without an alarm slot no run ends in FAULT |
| `StateEngine.NoSlotCommandsWhileHot` | src/runtime/state_engine.c:68-122 | whatever the limits, if any discharge is allowed, a run without alarm slot that discharges over the temperature limit |
| `StateEngine.NoSlotCoolIffNoDischarge` | src/runtime/state_engine.c:68-122 | all runs without an alarm slot keep commands within the temperature limit if and only if the maximum discharge is not positive |
| `StateEngine.InitIffOnlyLowCharges` | src/runtime/state_engine.c:62-95 | over all runs with an alarm slot the engine is in INIT if and only if every GOOD point was a charge at or below the minimum; with a negative temperature limit, if and only if there was no GOOD point |
| `CommandScheduler.CommandScheduler.SubmitCommand` | src/runtime/command_scheduler.c:22-39 | refused exactly when full; otherwise the command itself, PENDING and with its id or the next, at the end of the queue |
| `CommandScheduler.CommandScheduler.CollectPending` | src/runtime/command_scheduler.c:54-58 | copies exactly the pending commands, in order |
| `CommandScheduler.CommandScheduler.TickQueue` | src/runtime/command_scheduler.c:41-86 | empties the queue and settles what was pending, FAILED exactly where the adapter has a write function that failed; does nothing without an adapter |
| `CommandScheduler.SettlePending` | src/runtime/command_scheduler.c:61-83 | each command ends FAILED exactly when the adapter has a write function and it failed, VERIFIED otherwise, with its message, and otherwise as it was |
| `CommandScheduler.TickSettlesQueue` | src/runtime/command_scheduler.c:54-83 | one tick settles every accepted command not settled before |
| `CommandScheduler.PendingOnlyCounts` | src/runtime/command_scheduler.c:54-58 | what a tick takes up is every pending command as often as it is queued, and nothing else |
| `CommandScheduler.EveryCommandSettledOnce` | src/runtime/command_scheduler.c:22-86 | over any submits and ticks the queue is the accepted commands not yet settled, all pending and at most 32; the others were settled once, in order |
| `CommandScheduler.TickVerdicts` | src/runtime/command_scheduler.c:54-83 | over any run, each command waiting at a tick is VERIFIED exactly when its own write in that tick succeeded, and stays so |
| `CommandScheduler.SubmissionAccepted` | src/runtime/command_scheduler.c:22-39 | over any run, what is accepted is the command submitted, field by field, or nothing exactly when 32 wait |
| `CommandScheduler.IdsIncreaseIffRegular` | src/runtime/command_scheduler.c:31-35 | accepted ids increase exactly when every accepted request had id 0 or one not below the next |
| `WorkerControl.Judge` | src/runtime/app.c:16-21 | nothing but the quality changes, and it is BAD afterwards exactly for a cell temperature over the limit or a point that was BAD before |
| `WorkerControl.Worker.HandlePoint` | src/runtime/app.c:92-116 | engine, submission and tick on the objects have the composed effect |
| `WorkerControl.OverTemperatureUnreachable` | src/runtime/app.c:16-100 | worker, nonnegative limit: no run has a snapshot over the limit, FAULT or BMS_TEMP_HIGH |
| `WorkerControl.FaultReachableIffNegativeLimit` | src/runtime/app.c:16-100 | some run reaches FAULT if and only if the limit is negative |
| `WorkerControl.CommandsFlow` | src/runtime/app.c:94-116 | with an adapter: no refusal, ids gapless from one, every command settled before the next point |
| `WorkerControl.NextItemOnReadings` | src/runtime/app.c:86-105 | over any points, which alarm the next one raises and whether it makes the engine command a discharge, by the last readings that passed the quality rule |
| `WorkerControl.NextItemSettled` | src/runtime/app.c:94-114 | and with an adapter, that command field by field, settled at once, VERIFIED exactly when the write made for this point succeeded |
| `WorkerControl.WithoutAdapterQueueFills` | src/runtime/app.c:106-114 | over all runs without an adapter the first 32 commands issued stay pending and the others are refused |
| `Gateway.PointsConserved` | src/runtime/app.c:37-125 | polled = in hand + dropped + in the ring + processed + just popped; processed = published + failed + in hand; at a stop the ring holds the difference |
| `Gateway.PublishCountersExact` | src/runtime/app.c:118-125 | the success counter is the number of points the worker wrote in full, the failure counter all other processed points but the one in hand |
| `Gateway.TableIsHistory` | src/runtime/app.c:80-90 | the table is what it was at start-up plus the polled, undropped, successfully appended points after the quality rule, in order |
| `Gateway.DeliveryProjects` | src/runtime/app.c:68-181 | every run of the three threads is, on its delivery part, a run of worker and monitor |
| `Gateway.GatewayControlSafe` | src/runtime/app.c:80-116 | under every interleaving of the three threads: never over temperature, no refusal, gapless command ids |
| `Gateway.GatewayDelivers` | src/runtime/app.c:86-175 | under every interleaving: each row pending, uploaded at start-up, or itself written in full and readable from a connection, and the duplicate bound |
| `Gateway.GatewayWire` | src/runtime/app.c:118-175 | under every interleaving the wire holds exactly what the logs name |
| `FineGateway.StepProjects` | src/runtime/app.c:33-181 | one load, store or copy of the ring, or any other step of the three threads, is one step of the gateway machine or none |
| `FineGateway.FineRunsAreGatewayRuns` | src/core/ring.c:38-79 | every run with the ring's single steps is a run of the gateway machine, with the points in the ring as its queue |
| `FineGateway.FinePointsConserved` | src/runtime/app.c:37-125 | conservation of points with the ring's single steps |
| `GatewayApp.App.PushPoints` | src/runtime/app.c:37-47 | of the points polled, the first ones that fit enter the ring in order and are counted; the others are counted as dropped |
| `GatewayApp.App.StoreAndControl` | src/runtime/app.c:86-116 | the point gets a row and the next id only if the insert succeeds, and the control objects take one step |
| `GatewayApp.App.PublishAndMark` | src/runtime/app.c:118-125 | the row is marked only after its packet went out; exactly one of the two counters rises |
| `GatewayApp.WorkerStepsAre` | src/runtime/app.c:86-125 | the worker's three delivery steps, run without interruption, on table and connection |
| `GatewayApp.App.WorkerPass` | src/runtime/app.c:73-125 | one pass takes the oldest point and leaves table, connection and control as the machines' steps do; nothing changes on an empty ring |
| `GatewayApp.App.TimerPass` | src/runtime/app.c:168-177 | one timer callback is a replay round, then a ping, then a heartbeat |
| `GatewayApp.LiveCallback` | src/runtime/app.c:169-177 | on a live connection that takes them, ping bytes then heartbeat packet are added |
| `GatewayApp.CallbackEndsWithBeat` | src/runtime/app.c:169-177 | if the connection is up after the callback the heartbeat is the last thing on it, and it is up whenever the broker can be reached and takes what is written |
| `Gateway.ReplayReportsGood` | src/platform/storage.c:280-287 | the replayed record differs from the stored one exactly when its quality was not GOOD, which an over-temperature reading's never is |

## Left out

* SQLite itself, its write-ahead log and the JSONL audit file: the table is a sequence of rows, each
  statement atomic and able to fail; `storage_pending_telemetry_count`, which only reports, is not
  modelled, nor are the alarm and command tables.
* Sockets, termios, epoll and timers, systemd, libmodbus and thread creation: their answers are
  arguments. A packet counts as published once its bytes were all written to the connection, as in
  the code; whether the broker keeps a QoS 0 message is outside the model.
* A write or read script that ends early stands for a call that never completes, so termination of
  the retry loops under endless EINTR is not claimed.
* IEEE doubles, NaN and the `%.4f` rendering: values are reals, and the JSON text is an arbitrary
  function of the record, cut to its 383 bytes.
* Wrap-around of metrics, drop counter, row ids, alarm ids and command ids: unbounded. The ring's
  32-bit index arithmetic is exact.
* The classes are sequential. Interleaving is in the step machines, which use the same transition
  functions.
* `Gateway` counts a processed point in the same step as its append; the code does so right after.
* The order of replay, ping and heartbeat within a timer callback: any order of them is a run here,
  so the results hold for the callback's own order. The final shutdown of the session by
  `gateway_app_stop` is covered by the shutdown operation in `MqttLink` only.
* NULL arguments of the C functions.
* Configuration loading, logger, metrics file, heartbeat registry, watchdog, command line, adapter
  registry and simulated polls: they carry no invariant worth stating.
- MqttSession.Session.ReplayPending: describes a call no worker step interrupts; `Delivery` has the interleaved version.
- Replay.HealthyBacklogDrains: assumes no new rows between rounds and configured name sizes (topic at most 127 bytes, client id at most 63).
