# Verified model of the sensor gateway

A Dafny 4.11 model of the firmware of an ESP32 sensor gateway, with machine-checked proofs
of what its concurrent parts guarantee together. `dafny verify dfyconfig.toml` checks it.

Three state machines carry the project; each exists twice, as a pure step function about
which theorems over whole runs are proved, and as a class with the source's own variables
whose methods are proved to take exactly those steps.

* **Telemetry.** Producers put readings into a drop-oldest ring buffer. The hub client
  peeks, sends asynchronously and only then removes, throttled by two counters that wrap
  with the message slots and survive reconnects. An insert may fall between any two steps
  of the client, in particular between its peek and its remove. Readings are named by their
  insertion index. `DataBuffer.dfy` (the ring, in place), `Telemetry.dfy` (the machine and
  its invariant), `Delivery.dfy` (the theorems), `HealthyHub.dfy` (what a hub that accepts
  and confirms receives), `HubClient.dfy` (the real variables), `Adc.dfy` (the sampling task
  that decides what is inserted), `EndToEnd.dfy` (from sample to hub).
* **Emergency-light test.** Hub commands, a hardware timer read through a latch register, an
  interrupt feeding a bounded queue that may drop, an event task, and a manager that
  switches the lamp off. `EmergencyLight.dfy` (machine and theorems), `TestController.dfy`
  (the registers).
* **Bluetooth bookkeeping.** Three connection slots, service discovery per profile, and a
  record per peer merged from two notification streams, with the list of recently seen
  devices and the printing of addresses. `Ble.dfy` (the machine), `BleEvents.dfy`,
  `BleSlots.dfy` and `BleReadings.dfy` (the theorems), `BleGateway.dfy` (the real
  variables), `ScanList.dfy`, `AddressText.dfy`. The source compiles this code but does not start it
  (main/ble_azure_gateway_main.c:36); it is modelled as a library of event handlers.

Sizes are symbolic: the ring has n cells (2 to 256), the client m message slots (at least
1), the event queue any depth of at least 1, a timer second any number of ticks of at least
1, the scan list 1 to 255 entries. The source fixes them at 6, 50, 10, 5 000 000 and 20.

## Assumptions

* Each buffer operation is one atomic step, and so is each command, interrupt, turn of a
  task and SDK callback. The source has no locks.
* The timer's interrupt is served in the tick in which the counter reaches the alarm.
* The hub SDK hands out fresh message handles, calls back at most once for a message it
  accepted, from inside DoWork or Destroy, never for one it rejected, and may never call
  back at all. Whether a connection, a message creation or a send succeeds, and when a
  connection aborts, is free input.
* The Bluetooth stack delivers any events in any order; the result of a characteristic
  look-up is free input, and so is which devices are bonded.
* Both `abs` and `char` behave as on the target: `abs` of the least 32-bit integer is itself,
  and bytes print as unsigned.

## Results that a reader of one function would not expect

* One failed or unconfirmed send closes the client's guard for the rest of the run, through
  every reconnect (`FailureIsFinal`), although each new connection reports itself healthy.
* After a send the client removes the oldest record, which is another one than it sent
  exactly if an insert met a full buffer since the peek (`RemovedIsSent`); the count of
  losses is still exactly the count of such inserts (`DroppedAreOverruns`).
* The hub task ends for good if a connection closes with no confirmed message in the current
  batch, or with the batch complete (`ReconnectDecision`).
* Between two moments without a send in hand the hub got every reading that left the buffer
  exactly if nothing overran (`ExactDelivery`); a hub that accepts and confirms lets no
  reading stay in the buffer for ever (`EveryReadingLeaves`).
* A TEST ON is sure of its 60 s exactly if no event is queued and the latch is up to date
  (`FullTestGuaranteed`); repeating it, even after a TEST OFF, does not prolong the test
  (`RepeatKeepsDeadline`).
* Open requests and releases of a Bluetooth slot do not always alternate: a profile keeps
  its peer's address, so a later disconnect of that peer releases again
  (`SecondDisconnectStrays`), or frees the slot of another device that is being opened
  (`LateDisconnectFreesOther`). `OpensAndReleasesAlternate` and `FlagIsHolder` give the exact
  conditions.
* The deadband compares wrapped differences; `ThresholdExact` lists every pair of values for
  which that goes wrong, and `WrappingIsExact` says when a stream is reported as by true
  distances. Below 2^31 mV it always is.

Where comments and code differ the model follows the code: main/ble.c:321-325 announces a
temperature of -30 to 100 degrees, the code returns 0 to 1023, or 1000 for a malformed
value; main/ble.c:348-352 announces a supply of up to 4.0 V, the code returns up to 65535 and
the queue keeps its low eight bits.

## Model

| member | source | states |
|---|---|---|
| DataBuffer.ApplyRefines | main/data_buffer.c:63-96 | each insert or remove acts on the buffered records as on a plain bounded sequence: keep-new drops the oldest of a full buffer, otherwise a full buffer is unchanged, remove takes the oldest |
| DataBuffer.RunRefinesSequence | main/data_buffer.c:18-96 | over any sequence of operations the ring is that sequence, never holds more than n - 1 records, and holds exactly the most recent accepted inserts |
| DataBuffer.RingBuffer.constructor | main/data_buffer.c:18-24 | the statics start as an empty ring |
| DataBuffer.RingBuffer.Peek | main/data_buffer.c:26-32 | a non-empty buffer gives its oldest record |
| DataBuffer.RingBuffer.IsEmpty | main/data_buffer.c:34-37 | true exactly when nothing is buffered |
| DataBuffer.RingBuffer.IsFull | main/data_buffer.c:39-49 | true exactly when n - 1 records are buffered |
| DataBuffer.RingBuffer.Size | main/data_buffer.c:51-56 | the number of records if there is one, the number of cells if there is none |
| DataBuffer.RingBuffer.RemoveData | main/data_buffer.c:83-96 | takes the oldest record out of the history's unread part; an empty buffer is unchanged |
| DataBuffer.RingBuffer.Insert | main/data_buffer.c:63-81 | extends the history, dropping the oldest record of a full buffer if asked to keep the new one |
| DataBuffer.RingBuffer.Execute | main/data_buffer.c:18-96 | after any operations the array holds the reference sequence and the eight-bit itemCount is its length |
| Telemetry.StepKeepsInv | main/iothub_client_sample_mqtt.c:149-314 | every step, producer's or sender's, keeps the window, batch, slot, handle and order invariants |
| Telemetry.RunKeepsInv | main/iothub_client_sample_mqtt.c:161-314 | so does every run |
| Delivery.SentInOrder | main/iothub_client_sample_mqtt.c:226-273 | in every reachable state the accepted readings are strictly increasing: none sent twice, none out of order |
| Delivery.DroppedAreOverruns | main/iothub_client_sample_mqtt.c:226-273 | the readings lost unsent are exactly as many as the inserts that met a full buffer, less one while a sent reading that was evicted still awaits its remove |
| Delivery.EveryReadingAccounted | main/iothub_client_sample_mqtt.c:226-273 | in every phase: a buffered reading is unsent unless it is the one awaiting its remove, and inserted = sent + dropped + buffered and unsent |
| Delivery.WindowConservation | main/iothub_client_sample_mqtt.c:149-159 | across resets and reconnects, slots used = confirmed + unconfirmed + failed + lost, the last three at most one together, and both counters within bounds |
| Delivery.SlotsTakeTurns | main/iothub_client_sample_mqtt.c:229-273 | over a whole run, through all reconnects, attempt j uses slot j modulo m, failed attempts counted |
| Delivery.SlotsHoldTurn | main/iothub_client_sample_mqtt.c:244-260 | the slots used since the last reset hold their own numbers and the handles created for them, in order; a failed creation leaves null |
| Delivery.HandleConservation | main/iothub_client_sample_mqtt.c:244-260 | created handles = destroyed + pending + lost + rejected, none destroyed twice, at most one rejected |
| Delivery.AttemptUsesFreeSlot | main/iothub_client_sample_mqtt.c:229-260 | the slot written is inside the array and no confirmation for it is outstanding |
| Delivery.ConfirmSeesItsMessage | main/iothub_client_sample_mqtt.c:149-159 | a confirmation finds the handle and id its message was sent with, destroys only that handle, and the batch's slots are confirmed in order |
| Delivery.OfferHasReadingAndSlot | main/iothub_client_sample_mqtt.c:226-269 | the sender's peek and remove never meet an empty buffer |
| Delivery.FailureKeepsReading | main/iothub_client_sample_mqtt.c:244-273 | a failed attempt leaves its reading buffered and uses up its slot, whose number stays if no message was created |
| Delivery.FailureIsFinal | main/iothub_client_sample_mqtt.c:226-273 | at most one failure or lost confirmation per run; after it nothing is offered, created or sent, whatever happens |
| Delivery.ConnectionFlag | main/iothub_client_sample_mqtt.c:213-267 | from one connection until the next, and beyond its end, the flag is true exactly if no message has since been refused or failed to be created, counted over the run |
| Delivery.FlagAtFirst | main/iothub_client_sample_mqtt.c:213-267 | before the first connection the flag is false |
| Delivery.ReconnectDecision | main/iothub_client_sample_mqtt.c:290-311 | the outer loop retries exactly when the counter is neither 0 nor m, and m means all slots of the batch were confirmed |
| Delivery.TaskEnds | main/iothub_client_sample_mqtt.c:183-311 | the only steps that end the task |
| Delivery.NoCallbackOnlyCloses | main/iothub_client_sample_mqtt.c:206-209 | a client whose callback cannot be installed is closed, with nothing sent, no slot used and the flag untouched; then the task retries or ends by the counter as it was |
| Delivery.EveryRoundWorks | main/iothub_client_sample_mqtt.c:221-288 | between two tests of the guard lies a DoWork or a new connection, after failed attempts too |
| Delivery.GuardComesFirst | main/iothub_client_sample_mqtt.c:221-288 | a new connection and every round that was not aborted start with the test of the guard |
| Delivery.RemovedIsSent | main/iothub_client_sample_mqtt.c:234-269 | the record removed is the one sent if and only if no insert since the peek found the buffer full |
| Delivery.RaceDropsNext | main/iothub_client_sample_mqtt.c:234-269 | on any full buffer an insert during a send makes the remove drop an unsent reading |
| HealthyHub.ExactDelivery | main/iothub_client_sample_mqtt.c:226-273 | between any two moments without a send in hand, from one where no outdated copy is held, whatever happens: exactly the readings that left the buffer were sent, in order and without a gap, if and only if no insert met a full buffer |
| HealthyHub.RankFalls | main/iothub_client_sample_mqtt.c:221-288 | with nothing refused, lost or aborted, each step takes a reading or does not raise the sender's rank, and the event that helps lowers it |
| HealthyHub.EveryReadingLeaves | main/iothub_client_sample_mqtt.c:221-288 | in every endless fair run on such a hub, with inserts anywhere, every reading ever inserted leaves the buffer, over any number of window wraps |
| HealthyHub.EveryReadingIsSent | main/iothub_client_sample_mqtt.c:221-288 | if moreover no insert ever meets a full buffer, every reading is some day sent, and what is sent is always a run of consecutive readings |
| HealthyHub.DrainingRun | main/iothub_client_sample_mqtt.c:221-288 | there is a run that empties any buffer in order: the one with each message confirmed at once and no insert |
| HubClients.HubClient.constructor | main/iothub_client_sample_mqtt.c:163-179 | the run starts with both counters at zero |
| HubClients.HubClient.Produce | main/adc.c:100 | a producer's insert as a step of the machine |
| HubClients.HubClient.Connect | main/iothub_client_sample_mqtt.c:183-213 | the four outcomes of a connection attempt |
| HubClients.HubClient.Poll | main/iothub_client_sample_mqtt.c:226-232 | the guard and the reset of both counters |
| HubClients.HubClient.Peek | main/iothub_client_sample_mqtt.c:234-238 | the copy is the oldest buffered record |
| HubClients.HubClient.Attempt | main/iothub_client_sample_mqtt.c:244-273 | array, flag and counter as the machine says, and on acceptance the peeked reading goes out even if it has since been evicted |
| HubClients.HubClient.Commit | main/iothub_client_sample_mqtt.c:269-273 | removes the oldest buffered record and counts the slot |
| HubClients.HubClient.Confirm | main/iothub_client_sample_mqtt.c:149-159 | following its slot pointer the callback destroys the handle that was sent and sees its id |
| Delivery.AbortStopsSending | main/iothub_client_sample_mqtt.c:276-311 | from an abort until the next connection is up nothing is created, sent, taken or counted as a slot, and no confirmation is outstanding when the task retries |
| HubClients.HubClient.Close | main/iothub_client_sample_mqtt.c:301-311 | retry or end |
| HubClients.HubClient.Run | main/iothub_client_sample_mqtt.c:161-314 | on the real variables any run ends where the machine's run ends, and what was sent is reading for reading what was inserted |
| Adc.WrappedDistance | main/adc.c:94 | the wrapped difference is the true distance exactly for values less than 2^31 apart |
| Adc.ThresholdExact | main/adc.c:94 | for any threshold the exact pairs of values that the comparison misjudges |
| Adc.Multisample | main/adc.c:67-81 | both averages are the wrapped 32-bit sums over 64 |
| Adc.AverageWithinReadings | main/adc.c:67-81 | 12-bit readings never wrap the sum, and the average lies within their bounds |
| Adc.ReportsTrack | main/adc.c:92-103 | by true distances the last report is always within 5 mV, 10 mV and the status of the sample (for the task's own record see Adc.AdcTask.Run) |
| Adc.HeartbeatWindow | main/adc.c:94-103 | any ten consecutive samples contain a report |
| Adc.LastReportFacts | main/adc.c:94-103 | between two reports nothing is reported, and they are at most ten apart |
| Adc.SteadyStream | main/adc.c:94-103 | a stream inside the deadband is reported at every tenth sample and no other |
| Adc.WrappingIsExact | main/adc.c:94 | the code reports the same samples of a stream as true distances would, if and only if no sample is misjudged against the last report before the heartbeat is due |
| Adc.DecisionIsReference | main/adc.c:61-103 | whatever the uninitialised record holds and whatever is sampled, the code decides as the reference with wrapping distances, the first sample included, and cnt never passes 10 |
| Adc.AdcTask.Pass | main/adc.c:82-103 | one pass on the task's variables and the ring, with the exact size printed; a record queued holds the first channel, twice the second in 32 bits, and the lamp status |
| Adc.AdcTask.Run | main/adc.c:59-107 | the task inserts exactly the reports of that reference, in order; those of true distances if the stream can be trusted; and below 2^31 mV its record is within 5 mV of the first channel, 10 mV of twice the second, and has the status of the last input |
| EndToEnd.WireIsReports | main/adc.c:92-103 | with the sampling task as only producer, under any schedule: what the hub accepts is an in-order part of the task's reports, missing what is still buffered and as many as inserts met a full buffer, and nothing else |
| EmergencyLight.StepKeepsInv | main/timer_group.c:72-214 | every command, tick, task turn keeps the light invariant |
| EmergencyLight.LampOffIsPending | main/timer_group.c:72-113 | lamp on implies timer running, event queued or end-of-test set, although a full queue drops the event; the status read matches the lamp |
| EmergencyLight.TestOffDarkens | main/gpio_ctrl.c:162-166 | TEST OFF switches the lamp and the status off at once, in any state, until the next TEST ON, and touches nothing else |
| EmergencyLight.InterruptAtAlarm | main/timer_group.c:72-113 | only a tick that reaches the alarm pauses the timer; it latches and reports the alarm's value unless the queue is full |
| EmergencyLight.QueueIsFifo | main/timer_group.c:183-214 | over any run the queue is what the interrupts reported less what the event task received, in order |
| EmergencyLight.FirstInterrupt | main/timer_group.c:122-146 | from start-up the first interrupt comes after 3.4179 s of ticks, with the lamp dark |
| EmergencyLight.RankFalls | main/gpio_ctrl.c:155-183 | the rank rises only at TEST ON and strictly falls at the one helpful event |
| EmergencyLight.FairRunTurnsLampOff | main/gpio_ctrl.c:128-183 | every endless fair run without TEST ON reaches a point from which the lamp stays off |
| EmergencyLight.DeadlineOnlyMovesLater | main/timer_group.c:153-166 | TEST ON never moves a pending deadline earlier, nor beyond 60 s of ticks from now |
| EmergencyLight.HandledRenewsLatch | main/timer_group.c:206 | after a handled event a TEST ON runs for the time-out less the ticks since that event |
| EmergencyLight.RepeatKeepsDeadline | main/timer_group.c:153-166 | a later TEST ON leaves the deadline unchanged if no interrupt came and no event was handled in between, whatever commands did, TEST OFF included |
| EmergencyLight.TestRunsForWindow | main/timer_group.c:72-214 | with no event queued the test runs for exactly the time-out less the age of the latch, and then the two tasks switch the lamp off |
| EmergencyLight.StaleEventEndsTest | main/timer_group.c:183-214 | with an event queued the lamp can go off without a tick passing |
| EmergencyLight.FullTestGuaranteed | main/gpio_ctrl.c:42 | the lamp is sure to burn for 60 times the ticks of a second if and only if no event is queued and the latch is up to date |
| TestControllers.TestController.constructor | main/timer_group.c:122-146 | the registers after initialisation |
| TestControllers.TestController.Trigger | main/timer_group.c:153-166 | the alarm, in two halves, is the latched counter plus the time-out |
| TestControllers.TestController.TestButton | main/gpio_ctrl.c:155-167 | output and status follow the command at once; timer and flags as the machine's command steps |
| TestControllers.TestController.ReceiveMessage | main/iothub_client_sample_mqtt.c:94-146 | the exact text TEST ON lights the lamp and starts the timer, TEST OFF darkens it, no other text or unreadable message acts; every message is counted |
| TestControllers.TestController.Isr | main/timer_group.c:72-113 | latch, queue unless full, move the alarm, pause |
| TestControllers.TestController.HandleEvent | main/timer_group.c:183-214 | one turn of the event task |
| TestControllers.TestController.Manage | main/gpio_ctrl.c:176-183 | the manager's turn |
| TestControllers.TestController.ReadStatus | main/gpio_ctrl.c:169-171 | the status read by the sampling task is the lamp's level, and a lit lamp has an end pending |
| TestControllers.TestController.Run | main/timer_group.c:153-214 | on the registers any run ends where the machine's run ends |
| ScanList.LatestIsListed | main/scan_list.c:55-66 | the entries are the last n added, and zero while the list is not full |
| ScanList.NotedIsListed | main/ble.c:755-760 | a device is listed as soon as it has been noted |
| ScanList.ListedWasNoted | main/ble.c:755-760 | nothing is listed but devices noted, and zero |
| ScanList.DisciplineSpaces | main/ble.c:755-760 | under check-then-add two adds of one address are more than n adds apart |
| ScanList.EntriesStayDistinct | main/ble.c:755-760 | so the filled entries stay pairwise distinct forever |
| ScanList.CompareBdAddr | main/scan_list.c:40-53 | 1 exactly for equal addresses |
| ScanList.GapScanList.Add | main/scan_list.c:27-34 | the circular array holds the latest n adds |
| ScanList.GapScanList.Check | main/scan_list.c:55-66 | 1 exactly if among the last n added, or all-zero with fewer than n added |
| ScanList.GapScanList.Note | main/ble.c:755-767 | check, then add if unknown; the device is listed afterwards |
| AddressText.BdAddrToStr | main/scan_list.c:88-102 | the six overlapping writes fill exactly 18 bytes: the text and one final terminator |
| AddressText.ParseIsInverse | main/scan_list.c:88-102 | an independent reader recovers exactly the printed address and accepts nothing else |
| AddressText.PrintingIsInjective | main/scan_list.c:88-102 | different addresses print differently |
| BleSlots.ScanClaimsLowest | main/ble.c:770-831 | a wanted device claims exactly the lowest free slot with one open request, bonded and named alike; otherwise nothing is claimed |
| BleSlots.StepView | main/ble.c:937-966 | through the dispatcher a step acts on each slot on its own |
| BleSlots.OpensAndReleasesAlternate | main/ble.c:436-442 | opens and releases of a slot alternate over a run if and only if no failed open, and no disconnect of its profile's address, ever reaches it while its flag is clear; the flag always tells the last of them |
| BleSlots.FlagIsHolder | main/ble.c:677-685 | throughout a run the flag is set exactly while the device last requested is being opened or connected, if and only if no failed open names another device and no disconnect tells the profile's address and the requested device apart while it is set |
| BleSlots.SecondDisconnectStrays | main/ble.c:677-685 | a run from start-up in which the alternation breaks: a peer comes back in another slot and disconnects |
| BleSlots.LateDisconnectFreesOther | main/ble.c:677-685 | a run from start-up after which a device is connected in a slot whose flag is clear, although the marks alternate |
| BleEvents.HeardIsMeant | main/ble.c:937-966 | after any callbacks a profile's handler has been given exactly the events for every interface or for the one registered last for it, in order |
| BleEvents.ProfileFollowsEvents | main/ble.c:419-690 | from those events alone: peer and connection are the last opened, and each characteristic handle is the latest answer of a completed search while its own service was known |
| BleEvents.ScanFlags | main/ble.c:411-417 | between two starts of the scan one flag tells whether a connection was asked for, the other whether a result came with all slots taken |
| BleReadings.LookupsUseLatestRange | main/ble.c:465-576 | in any step, each profile that a completed search concerns looks up exactly the services found since its peer's last disconnect, in the latest range reported to it; no other event looks anything up |
| BleReadings.ProfilesHoldLatest | main/ble.c:368-404 | for any interleaving of notifications each profile holds its peer's latest decoded ones; a shadowed profile never changes |
| BleReadings.RunQueuesLatest | main/ble.c:368-404 | over any run that keeps peers and characteristics, other callbacks in between: one record for each notification delivered, of the sender's latest temperature, switch and eight-bit supply values, none for unknown peers; and the profiles hold the latest values |
| BleReadings.DecodeRecovers | main/ble.c:326-366 | decoding recovers ten bits of temperature, the switch, and sixteen bits of supply voltage |
| BleReadings.MalformedShows | main/ble.c:326-366 | only a malformed value decodes to switch 2; its temperature and supply are within the range of well-formed ones |
| BleGateways.BleGateway.ScanResult | main/ble.c:738-832 | the two chains of tests on three flags claim the lowest free slot, and the device is noted in the list |
| BleGateways.BleGateway.NotifyCallback | main/ble.c:368-404 | table and ring after a notification, with the exact size printed |
| BleGateways.BleGateway.ProfileEvent | main/ble.c:419-690 | one profile's handler, on the table and its flag |
| BleGateways.BleGateway.GattcCallback | main/ble.c:937-966 | registration and dispatch to every profile the interface concerns |
| BleGateways.BleGateway.Run | main/ble.c:710-966 | on the real variables any sequence of callbacks ends where the machine's run ends, and the ring received exactly the records the machine queued |

## Left out

- The endless loops of the tasks: each pass or program point is a method, and the order of the points is kept by the phase of the machine; `Run` carries out any finite interleaving.
- Interleavings inside one buffer operation or one command: the source takes no locks, so nothing holds at that grain.
- A command arriving between a timer alarm and its interrupt: the source clears the interrupt there, and what the hardware then does is not in the source.
- The interrupt's branches for the second timer and for an unknown source: only the first timer is initialised (main/timer_group.c:222-223).
- Wrap-around of the 64-bit timer counter: counters are unbounded, which at 5 MHz is over a hundred thousand years.
- TestControllers.TestController.Tick: counts one tick at a time; real time and clock drift are not modelled.
- ADC calibration, raw-to-voltage conversion, Wi-Fi, MQTT, Bluetooth stack: their results are inputs.
- HubClients.HubClient.Lose: a message the SDK forgets; the reason is not modelled.
- BleGateways.BleGateway.NotifyCallback: makes no claim about the two voltages of the record, which the source leaves unset, and takes the over-long copy at main/ble.c:379 as copying the six address bytes.
- BleReadings.RunQueuesLatest: speaks of stretches of a run in which no profile's peer and no characteristic handle changes; a stretch starts from whatever values the profiles hold then.
- Uniqueness of devices over slots: the source does not check for a device that already holds one.
- The descriptor look-up after registering for notifications (main/ble.c:578-637): it changes no state.
- Message and JSON text, logging, LED blinking, pairing and security parameters, time of day (main/rtc_time.c), start-up wiring (main/smartconfig.c, main/wifi_azure.c).
