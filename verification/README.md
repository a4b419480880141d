# Bluetooth LE Link Layer: verification model

This project models the Peripheral Link Layer of the CH58x Bluetooth LE stack and proves its protocol properties: acknowledged delivery over a lossy radio, connection-event scheduling with instants, and ownership of Link Layer control procedures. Smaller cores are CRC24, Channel Selection Algorithm #1, the timing PDUs, window widening and the UART divider search.

## How the model is built

Code that updates fields in place is a class whose methods are proved against value functions; the protocol theorems are lemmas about those functions. For the connection runner:

- `Connection.dfy` gives the whole connection as a value (`Link`) with one function per operation, and `Act` for one step of the run loop.
- `Backend.dfy` is the connection object: one pending slot and four queued ACL slots, three control slots, the 29-octet frame buffer, anchors, counters and pending indications. Each method states that its new abstract value is the value function of the old one, as long as the connection stays open.
- `Runs.dfy`, `Delivery.dfy`, `Instants.dfy`, `Coupling.dfy`, `ControlPath.dfy`, `ControlOrder.dfy` and `InForce.dfy` prove the invariants of `Act` and of whole runs. `Progress.dfy` shows that what is queued gets through once the link stops losing packets, `Windows.dfy` that the receive window covers a drifting Central, and `EventLaws.dfy` and `Answers.dfy` fix by literals what single events, PDUs and commands do. The Central of `Delivery.dfy` obeys SN/NESN (section 4.5.9 of Bluetooth Core Vol 6 Part B) and sends any script of PDUs; it logs what it hears from the bytes alone. Every radio event chooses freely whether the Central's packet is lost, corrupted or clean, whether the response goes on air, whether the radio reports that, and whether the Central hears it. The others allow any peer and any packets.

`TwoSlot.dfy` and `TwoSlotLink.dfy` treat the portable two-slot owner in the same way, `Llcp.dfy` and `LlcpHistory.dfy` the procedure manager. Ghost fields only record history: accepted, completed and received data, unwrapped event numbers, and the accepted and applied indications.

Facts about the code that the proofs bring out:

- An update whose instant is the event that carries it is applied at the end of that event without its window offset. In such an event the anchors of section 5.1.1 are met exactly when that offset is zero (`Instants.ImmediateUpdateMeetsAnchorsExactly`); the first event of every connection can be one (`Instants.FirstEventMeetsAnchorsExactly`), with a literal packet in `Instants.OffsetOneMissesAnchors`.
- Giving up a local request leaves its PDU queued. While that PDU is next, an event closes the connection with error 0x1f exactly when it would stage the PDU, when its first transmission is reported, or when it is acknowledged; while another frame is outstanding the connection stays open (`ControlPath.AbandonedRequestIsRefusedExactly`). A Host request that yields to a channel map does this (`ControlPath.YieldedRequestDoomsConnection`), and only given-up procedures can cause it (`ControlOrder.OnlyGivenUpProceduresAreRefused`).
- CONNECT_IND construction does not check its CRC initial value, so the round trip holds exactly below 2^24 (`ConnectInd.ConnectRoundTrip`).
- The comment on the divider search promises the least-error register pair, but the search tries only the latch nearest to the exact one for each divider. Its result is least-error over all pairs exactly when some rounded candidate is as good as both latches next to the exact one for every divider (`Uart.SelectBaud`). At 12 Hz and 1 baud it is not (`Uart.RoundingCanMissTheBestPair`).

## Model

| member | source | states |
|---|---|---|
| Delivery.CentralReceivesHostDataInOrder | crates/ch58x-ble/src/link_layer.rs:912-1007 | In every run over the lossy link, the data fragments among the PDUs the Central heard are a prefix of those the Host queued, and completed packets are all of these but at most the newest |
| Delivery.HostReceivesCentralPdusInOrder | crates/ch58x-ble/src/link_layer.rs:926-1023 | In every run each Central PDU is accepted exactly once and in order, the Central moves on only after that, and the Host gets exactly the data fragments among them |
| Delivery.AcceptedIsCompletedPlusHeld | crates/ch58x-ble/src/link_layer.rs:359-399 | In every run accepted fragments are the completed ones followed by the queue, which never exceeds five |
| Delivery.HostWithinCreditsIsNeverRefused | crates/ch58x-ble/src/link_layer.rs:384-398 | Over whole runs, a Host that sends well-formed packets and respects its five credits has every fragment accepted, unchanged and in order |
| Delivery.CentralReceivesWhatHostSent | crates/ch58x-ble/src/link_layer.rs:359-399 | End to end over the lossy link, the data fragments the Central heard are a prefix of those that a credit-respecting Host sent |
| Delivery.OnlySendingAccepts | crates/ch58x-ble/src/link_layer.rs:359-399 | A packet is accepted exactly when it is well formed, the connection is open and a slot is free; no other action accepts anything |
| Delivery.StepKeepsDelivery | crates/ch58x-ble/src/link_layer.rs:898-1042 | The two-party invariant of sequence bits, queues and logs survives every step, including the one-event lag of acknowledgements and unreported transmissions |
| Delivery.HearKeepsDelivery | crates/ch58x-ble/src/link_layer.rs:929-946 | The Central may accept a frame before the Peripheral knows it was sent, and hearing it again changes nothing it accepted |
| Delivery.AcknowledgeKeepsDelivery | crates/ch58x-ble/src/link_layer.rs:979-1007 | Releasing an owner whose frame the Central has accepted keeps the two-party invariant |
| Delivery.FinishKeepsDelivery | crates/ch58x-ble/src/link_layer.rs:979-1041 | Processing a packet sent before the response was heard keeps the two-party invariant |
| Progress.TwoIdealEventsSendTheNextPdu | crates/ch58x-ble/src/link_layer.rs:912-1007 | From a moment with nothing staged, two events without loss send, complete and (for data) deliver exactly the next queued PDU, control before data, and exactly one Central PDU gets through |
| Progress.EverythingGetsThrough | crates/ch58x-ble/src/link_layer.rs:912-1007 | From any consistent state, two events without loss for every queued PDU and two more send, complete and deliver everything, unless the connection closes on the way |
| Progress.HostDataGetsThrough | crates/ch58x-ble/src/link_layer.rs:912-1007 | With no control PDU queued the connection stays open and all Host data gets through in that many events |
| Progress.StagingTakesTheNextPdu | crates/ch58x-ble/src/link_layer.rs:917-928 | A new frame carries the first control PDU, else the first fragment, else nothing, from the queues alone |
| Runs.EventCarries | crates/ch58x-ble/src/link_layer.rs:898-1042 | Whatever the radio delivers, an event leaves the staged frame equal to the head of its queue and accepts nothing from the Host |
| Runs.ControlPduGrowsControl | crates/ch58x-ble/src/link_layer.rs:1066-1252 | Any control PDU only appends to the two-slot control queue and never touches an outstanding owner |
| Backend.ActiveConnection.New | crates/ch58x-ble/src/link_layer.rs:180-222 | A connection opens exactly for a legal hop and map, with the first anchor one unit plus the window offset after CONNECT_IND |
| Backend.ActiveConnection.QueueHostAcl | crates/ch58x-ble/src/link_layer.rs:359-399 | Slot search and error codes implement a bounded FIFO append with its token |
| Backend.FillingAppends | crates/ch58x-ble/src/link_layer.rs:384-392 | Filling the first empty slot appends to the gap-free queue and keeps it gap-free |
| Backend.ShiftingDropsHead | crates/ch58x-ble/src/link_layer.rs:994-998 | Shifting all slots drops the head and keeps the queue gap-free |
| Backend.ActiveConnection.ReleaseOwner | crates/ch58x-ble/src/link_layer.rs:987-1006 | The acknowledged owner leaves its queue, ACL completes one packet, the frame is freed and SN advances |
| Backend.ActiveConnection.QueueControlWithToken | crates/ch58x-ble/src/link_layer.rs:410-430 | Two live control slots form a FIFO that refuses a third or an oversized PDU |
| Backend.ActiveConnection.QueueRemoteProcedureResponse | crates/ch58x-ble/src/link_layer.rs:456-494 | A response is queued under a started procedure, or rejected with the collision code, or the procedure fails with 0x3a |
| Backend.ActiveConnection.QueueLocalProcedureRequest | crates/ch58x-ble/src/link_layer.rs:543-571 | A request is queued under a started procedure; a full queue fails that procedure |
| Backend.ActiveConnection.PromotePriorityControlIfIdle | crates/ch58x-ble/src/link_layer.rs:632-642 | With the reserved slot empty, as in every valid connection, promotion changes nothing |
| Backend.ActiveConnection.ApplyInstants | crates/ch58x-ble/src/link_layer.rs:326-357 | Due map and update are applied, procedures see the event, an applied update ends the local request, and the Host is to be notified exactly of changed parameters or a local request |
| Backend.ActiveConnection.ScheduleFollowingEvent | crates/ch58x-ble/src/link_layer.rs:311-323 | Counter wraps modulo 65536; the anchor moves one old interval, plus the offset of an update that falls due |
| Backend.ActiveConnection.SkipExpiredEvents | crates/ch58x-ble/src/link_layer.rs:288-302 | On success exactly the expired events were skipped, the window closes no earlier than now, and the Host is notified if one of them requires it; failure needs 65536 expired events or an invalid map |
| Backend.CatchUpFailsOnlyAfterAllEvents | crates/ch58x-ble/src/link_layer.rs:288-302 | From every reachable schedule catching up fails only with 0x08 after 65536 expired events |
| Windows.WindowCoversCentral | crates/ch58x-ble/src/link_layer.rs:268-281 | Whatever both clocks drift within their classes, a longest packet from anywhere in the transmit window ends before the receive window closes |
| Windows.WindowIsTight | crates/ch58x-ble/src/link_layer.rs:268-281 | The receive window closes less than a microsecond after the last such packet |
| Windows.CatchUpSkipsOnlyPastEvents | crates/ch58x-ble/src/link_layer.rs:288-302 | Catching up never skips an event in which the Central may still be sending, and stops at the first that is not past |
| Backend.ActiveConnection.StageFrame | crates/ch58x-ble/src/link_layer.rs:916-928 | Control before ACL before empty, once per outstanding frame; a refused procedure closes the connection |
| Backend.ActiveConnection.BuildTransmitFrame | crates/ch58x-ble/src/link_layer.rs:1044-1064 | The buffer holds header, length and payload of the selected owner |
| Backend.ActiveConnection.RefreshTransmitHeader | crates/ch58x-ble/src/link_layer.rs:57-61 | The frame on air carries the current SN and NESN and is otherwise unchanged |
| Backend.ActiveConnection.HandleControlPdu | crates/ch58x-ble/src/link_layer.rs:1066-1252 | Every opcode branch yields the specified queues, procedures, pending indications and disconnect reason |
| Backend.ActiveConnection.HandleConnectedCommand | crates/ch58x-ble/src/link_layer/hci.rs:201-285 | Disconnect and LE Connection Update are refused by the same guards and otherwise start their local procedure |
| Backend.ActiveConnection.RunConnectionEvent | crates/ch58x-ble/src/link_layer.rs:898-1042 | One event on the updated fields is the specified event, with the same disconnect reason, the channel of the hop and the frame bytes on air |
| Backend.ActiveConnection.RunConnection | crates/ch58x-ble/src/link_layer.rs:820-894 | Every input is served by the step it stands for, a late clock by skipping exactly the expired events; the object stays equal to the run of its value, and it stops early only after a step that closes the connection or when catching up fails |
| Instants.InstantsAreNeverMissed | crates/ch58x-ble/src/link_layer.rs:326-357 | In every run of completed, missed and skipped events each accepted indication is applied exactly once, at the event whose counter is its instant, or is pending at most 32766 events ahead |
| InForce.AppliedIndicationsAreInForce | crates/ch58x-ble/src/link_layer.rs:326-357 | In every run the channel map and the connection parameters in use are those of the last applied indication, or of the CONNECT_IND while there is none |
| Instants.PhaseCountsEvents | crates/ch58x-ble/src/link_layer.rs:311-323 | In every open run the counter and the hop phase are the number of events, modulo 65536 and times hop modulo 37 |
| Instants.ApplyKeepsSchedule | crates/ch58x-ble/src/link_layer.rs:326-357 | Applying instants never fails in a reachable schedule and leaves nothing due |
| Instants.ApplyKeepsClose | crates/ch58x-ble/src/link_layer.rs:268-281 | Applying instants does not move the window close, which already looks at a due update |
| Instants.SkippingMovesClose | crates/ch58x-ble/src/link_layer.rs:268-323 | Each skipped event moves the window close strictly forward, because windows are shorter than intervals and widening is monotone |
| Instants.CatchUpEndsInEveryRun | crates/ch58x-ble/src/link_layer.rs:288-302 | In every reachable state some first number of skipped events reaches any clock value |
| Instants.SkipsAdvanceCounterAndPhase | crates/ch58x-ble/src/link_layer.rs:288-302 | Skipping n events adds n to the counter modulo 65536 and hops n times, whatever map updates fall due |
| Instants.AnchorsFollowTheUpdate | crates/ch58x-ble/src/link_layer.rs:311-323 | Without resynchronization the anchors are j old intervals, the window offset, then new intervals |
| Instants.AnchorFormula | crates/ch58x-ble/src/link_layer.rs:311-323 | That anchor in products: k old intervals, or j old ones, the window offset and k - j new ones |
| Instants.ImmediateUpdateDropsOffset | crates/ch58x-ble/src/link_layer.rs:1024-1037 | A due update applied before synchronizing ignores its window offset: the formula holds exactly when the offset is zero |
| Instants.ImmediateUpdateIsAccepted | crates/ch58x-ble/src/link_layer.rs:1073-1109 | In an idle connection a valid update for the current event is accepted and due at once |
| Instants.ImmediateUpdateMeetsAnchorsExactly | crates/ch58x-ble/src/link_layer.rs:1020-1037 | An event that accepts an update for itself stays open and its later anchors are those of the standard exactly when the window offset is zero |
| Instants.FirstEventMeetsAnchorsExactly | crates/ch58x-ble/src/link_layer.rs:1020-1037 | The first event of every connection can be such a run: with a window offset every later anchor misses |
| Instants.UpdatePacketIsCarried | crates/ble-controller/src/link_layer.rs:835-854 | Any update that parses for instant 0, behind a new control header, is such a packet |
| Instants.OffsetOneMissesAnchors | crates/ch58x-ble/src/link_layer.rs:1020-1037 | In every connection one literal first packet, with window offset 1, makes every later anchor miss |
| Instants.UnsynchronizedEventIsMissed | crates/ch58x-ble/src/link_layer.rs:937-972 | An open event without a valid packet leaves exactly the schedule of a missed window |
| Instants.ParsedRequestsOpen | crates/ch58x-ble/src/link_layer.rs:762-769 | Every CONNECT_IND that parses opens a connection whose schedule satisfies the invariant |
| Instants.WideningMatchesSource | crates/ch58x-ble/src/link_layer.rs:232-240 | The natural-number widening of the schedule is what the saturating 64-bit computation yields |
| Coupling.ProceduresMatchConnection | crates/ch58x-ble/src/link_layer.rs:1066-1252 | In every open run a local parameter request is recorded exactly while its procedure is active, the two sides never both run instant-bearing procedures, and waiting procedures wait for the pending indication, which has not passed |
| Coupling.SlotSettles | crates/ble-controller/src/llcp.rs:381-402 | In a coupled connection an event completes exactly the procedures whose instant it is; none fails because its instant passed |
| Coupling.ControlKeepsCoupled | crates/ch58x-ble/src/link_layer.rs:1066-1252 | Every control PDU that leaves the connection open keeps procedures and connection fields in agreement |
| Coupling.CommandKeepsCoupled | crates/ch58x-ble/src/link_layer/hci.rs:201-285 | The guards of the Host commands suffice for that agreement although starting a local procedure never looks at the remote one |
| EventLaws.EventClosesExactly | crates/ch58x-ble/src/link_layer.rs:898-1042 | The exact reason of every event: 0x1f for a refused control step, 0x16 after our own LL_TERMINATE_IND, the reason of a new control PDU, otherwise none |
| EventLaws.TerminationCloses | crates/ch58x-ble/src/link_layer.rs:1144-1147 | The Central's LL_TERMINATE_IND closes the connection with exactly its reason, or 0x16 if the event also sent ours |
| EventLaws.ControlClosesExactly | crates/ch58x-ble/src/link_layer.rs:1071-1147 | Which control PDUs close, in which state, with which reason, octet by octet |
| EventLaws.IndicationsArePending | crates/ch58x-ble/src/link_layer.rs:1073-1143 | An accepted indication is pending with its parsed fields from then on |
| EventLaws.HeardEventSynchronizes | crates/ch58x-ble/src/link_layer.rs:976-1037 | A valid packet moves the anchor to its start on air, at 8 us an octet, and ends the transmit window |
| EventLaws.NextAnchor | crates/ch58x-ble/src/link_layer.rs:311-323 | The next anchor in units of 1.25 ms |
| EventLaws.OpensAsRequested | crates/ch58x-ble/src/link_layer.rs:180-222 | Anchor, window, hop, map, parameters and tokens of a new connection |
| EventLaws.NotifiesExactly | crates/ch58x-ble/src/link_layer.rs:326-357 | The Host is notified of an update exactly when it changes parameters or answers a local request |
| EventLaws.ExpiryCloses | crates/ch58x-ble/src/link_layer.rs:829-833 | Expired procedures fail with 0x22 and close the connection |
| Answers.EventsAnswer | crates/ch58x-ble/src/link_layer.rs:1020-1022 | In a whole event the control queue grows by exactly the answer to the Central's new PDU |
| Answers.ControlPdusAreAnswered | crates/ch58x-ble/src/link_layer.rs:1171-1250 | The answer to every control PDU, octet by octet: responses, collision and error rejections, and LL_UNKNOWN_RSP |
| Answers.EchoRepeatsTheRequest | crates/ch58x-ble/src/link_layer.rs:1219-1231 | The answer to a parameter request repeats its parameters octet by octet |
| Answers.RequestsAreOwned | crates/ch58x-ble/src/link_layer.rs:456-494 | A request is answered under a remote procedure that owns the queued PDU, or fails with 0x3a if no slot is free |
| Answers.ParamRequestsAreOwned | crates/ch58x-ble/src/link_layer.rs:1206-1231 | The same for parameter requests, which end a local one with 0x23 and expect an update within 40 s |
| Answers.RejectionsEndTheirRequest | crates/ch58x-ble/src/link_layer.rs:1148-1170 | LL_UNKNOWN_RSP and LL_REJECT_EXT_IND end exactly the parameter procedure they name and change nothing else |
| Answers.DisconnectRequestsTermination | crates/ch58x-ble/src/link_layer/hci.rs:201-220 | Statuses, queued LL_TERMINATE_IND and procedure of HCI Disconnect |
| Answers.ConnectionUpdateRequestsParameters | crates/ch58x-ble/src/link_layer/hci.rs:232-285 | Statuses, the 24 octets of the queued request and the procedure of HCI LE Connection Update |
| Answers.AclStatus | crates/ch58x-ble/src/link_layer.rs:359-399 | Error codes of Host ACL data, and the accepted fragment with its LLID and token |
| ControlPath.StagingFailsExactly | crates/ch58x-ble/src/link_layer.rs:600-608 | Planning is refused exactly when a new frame is due and the next control PDU belongs to a procedure that does not wait to transmit |
| ControlPath.ReportFailsExactly | crates/ch58x-ble/src/link_layer.rs:948-955 | The report is refused exactly for the first reported transmission of a control PDU whose procedure does not wait to transmit |
| ControlPath.AcknowledgeFailsExactly | crates/ch58x-ble/src/link_layer.rs:979-986 | An acknowledgement is refused exactly for an outstanding control PDU whose procedure does not wait for one |
| ControlPath.EventRefusesExactly | crates/ch58x-ble/src/link_layer.rs:926-986 | An event closes with 0x1f when one of these three guards holds, and otherwise only if the Central terminates with that reason |
| ControlPath.AbandonedRequestIsRefusedExactly | crates/ch58x-ble/src/link_layer.rs:1116-1129 | After a local request is given up while its PDU is next, an event refuses exactly when it would stage that PDU, sees its first report, or sees its acknowledgement |
| ControlPath.YieldedRequestDoomsConnection | crates/ch58x-ble/src/link_layer.rs:1116-1138 | In every connection an empty PDU, a Host parameter request and an acknowledging channel map lead to an open connection whose next control PDU was given up |
| ControlPath.LiteralRequestDoomsConnection | crates/ch58x-ble/src/link_layer/hci.rs:235-285 | In every connection one literal command and the connection's own channel map lead there |
| ControlPath.MapPacketIsCarried | crates/ble-controller/src/link_layer.rs:1048-1063 | Any channel map that parses, behind a new control header that acknowledges, is such a packet |
| ControlPath.DoomedConnectionCloses | crates/ch58x-ble/src/link_layer.rs:926-928 | Every next event then closes with 0x1f, whatever the radio does |
| ControlOrder.EventAdvances | crates/ch58x-ble/src/link_layer.rs:898-1042 | An event keeps tokens increasing and every queued PDU in step with the phase of its procedure |
| ControlOrder.OnlyGivenUpProceduresAreRefused | crates/ch58x-ble/src/link_layer.rs:600-630 | In every run, however long, that hands out fewer than 2^31 - 3 control tokens, an event refuses a control PDU only when its procedure failed |
| TwoSlot.ConnectionEventTxState.New | crates/ble-controller/src/link_layer.rs:158-165 | At most eight payloads that are their own tokens |
| TwoSlot.ConnectionEventTxState.NewWithOwnerTokens | crates/ble-controller/src/link_layer.rs:167-174 | More than eight tokens are refused; otherwise the FIFO holds exactly the tokens |
| TwoSlot.ConnectionEventTxState.WithEmptyRetry | crates/ble-controller/src/link_layer.rs:180-189 | The FIFO holds the tokens behind an outstanding Empty PDU |
| TwoSlot.ConnectionEventTxState.PreviewSelect | crates/ble-controller/src/link_layer.rs:276-363 | The decision or error is that of the FIFO, and nothing changes |
| TwoSlot.ConnectionEventTxState.Select | crates/ble-controller/src/link_layer.rs:255-270 | Selection refines the FIFO: an acknowledged head is released, the response is what is outstanding or else the head, and a refill never targets the response slot |
| TwoSlot.ConnectionEventTxState.CompleteTransmit | crates/ble-controller/src/link_layer.rs:366-406 | Completing the planned decision never fails and puts it on air; any other decision is refused and changes nothing |
| TwoSlot.ConnectionEventTxState.AbortTransmit | crates/ble-controller/src/link_layer.rs:410-419 | Aborting drops only the plan; a decision that is not planned is refused |
| TwoSlot.ConnectionEventTxState.PlanCommits | crates/ble-controller/src/link_layer.rs:366-406 | In every valid state a planned decision names the outstanding slot or the FIFO head, and its refill is the next payload for the other, empty slot |
| TwoSlot.MoreIsExact | crates/ble-controller/src/link_layer.rs:117-119 | MD is promised exactly when an unacknowledged payload other than the response exists |
| TwoSlot.ConnectionEventTxState.TokensNeverRepeat | crates/ble-controller/src/link_layer.rs:330-343 | Between any two states of the object in one run, a slot repeats a generation only for the same token |
| TwoSlotLink.OwnersReachTheCentral | crates/ble-controller/src/link_layer.rs:255-420 | Over every lossy run no acknowledgement arrives for nothing, the Central accepts the owner tokens in order, at most one ahead of the acknowledged ones, and each of its PDUs is accepted once |
| TwoSlotLink.OwnersGetThrough | crates/ble-controller/src/link_layer.rs:255-420 | From every start, one leg without loss per token and one more bring all tokens to the Central, two more acknowledge them |
| TwoSlot.DecisionNamesPayloads | crates/ble-controller/src/link_layer.rs:276-363 | A decision names the acknowledged payload and the next to send, by their tokens |
| TwoSlotLink.StepPreserves | crates/ble-controller/src/link_layer.rs:442-469 | Observing, selecting, patching the header and completing or aborting keep the two-party invariant |
| TwoSlotLink.ServeLegs | crates/ble-controller/src/link_layer.rs:255-469 | Driven through any legs, the owner and sequence objects stay equal to the run of their values |
| Sequence.DataSequenceState.Observe | crates/ble-controller/src/link_layer.rs:442-458 | Both bits follow SN/NESN and the three observations are reported |
| Sequence.ResponseHeaderBits | crates/ble-controller/src/link_layer.rs:461-469 | A patched header decodes to the state's bits and MD and keeps LLID and reserved bits |
| Llcp.ProcedureManager.StartLocalProcedure | crates/ble-controller/src/llcp.rs:156-165 | A local procedure starts unless a local one is active |
| Llcp.ProcedureManager.StartRemoteProcedure | crates/ble-controller/src/llcp.rs:167-187 | A remote procedure starts unless it collides, with the collision code of the pair |
| Llcp.ProcedureManager.AckTx | crates/ble-controller/src/llcp.rs:248-288 | Exactly the transmitted PDU's acknowledgement moves on to response, instant or completion and arms the deadline |
| Llcp.ProcedureManager.ExpireResponses | crates/ble-controller/src/llcp.rs:354-370 | Both procedures expire exactly at an armed deadline that has been reached |
| Llcp.ProcedureManager.ReachEvent | crates/ble-controller/src/llcp.rs:381-402 | Waiting procedures complete at their instant and fail after it |
| LlcpHistory.LocalCompletionIsEarned | crates/ble-controller/src/llcp.rs:209-402 | Over all call sequences a local procedure is complete only after its exact transmission, acknowledgement, expected opcode and instant, in that order, and the instant is the one it started with or its answer announced |
| LlcpHistory.RefusalChangesNothing | crates/ble-controller/src/llcp.rs:209-352 | A call that reports an error, such as a stale token or wrong opcode, changes nothing |
| LlcpHistory.DeadlinesComeFromAcks | crates/ble-controller/src/llcp.rs:248-379 | Over all call sequences every deadline is the time of an accepted acknowledgement of the PDU that this same procedure had on air plus the timeout, and finished procedures have none |
| LlcpHistory.DeadlineMoves | crates/ble-controller/src/llcp.rs:248-379 | No call but the acknowledgement of the exact PDU sets a deadline; others keep or clear it |
| LlcpHistory.NoEarlyTimeout | crates/ble-controller/src/llcp.rs:354-370 | No procedure times out before such an acknowledgement of its own PDU plus its timeout |
| LlcpHistory.ResponsesAreTimed | crates/ble-controller/src/llcp.rs:248-370 | The converse: over all call sequences a procedure waiting for an answer with a timeout was armed, and a check fails it exactly from the acknowledgement time plus the timeout on |
| LlcpHistory.ExpiryIsExact | crates/ble-controller/src/llcp.rs:354-370 | A check fails exactly the waiting procedures whose deadline is reached |
| LlcpHistory.AcknowledgementMoves | crates/ble-controller/src/llcp.rs:248-288 | An accepted acknowledgement waits for the answer and arms its deadline, waits for the instant, or completes |
| LlcpHistory.AnswersAndTheTimer | crates/ble-controller/src/llcp.rs:290-331 | A plain answer stops the timer; one that announces an instant leaves it running |
| LlcpHistory.InstantsAreClassified | crates/ble-controller/src/llcp.rs:381-402 | An event completes, keeps or fails a waiting procedure by the modulo-65536 distance to its instant |
| LlcpHistory.CollisionCodes | crates/ble-controller/src/link_layer.rs:806-818 | The error code of every pair of colliding procedures |
| Crc24.Crc | crates/ble-controller/src/crc.rs:6-19 | The byte and bit loops feed the transmitted bits to the register |
| Crc24.TapsAreThePolynomial | crates/ble-controller/src/crc.rs:13-15 | The taps are the bits of 0x65b |
| Crc24.ShiftBits | crates/ble-controller/src/crc.rs:10-15 | One step, bit by bit |
| Crc24.OctetOrder | crates/ble-controller/src/crc.rs:9-10 | Octets are fed least significant bit first |
| Crc24.FeedIsLinear | crates/ble-controller/src/crc.rs:8-17 | The register is linear in its initial value and its input |
| Crc24.ShiftIsInjective | crates/ble-controller/src/crc.rs:10-15 | Every shift step is invertible |
| Crc24.BlockIsInjective | crates/ble-controller/src/crc.rs:8-17 | A non-zero block of at most 24 bits never leaves the register at zero |
| Crc24.BurstChangesCrc | crates/ble-controller/src/crc.rs:6-19 | Two equal-length PDUs that differ within 24 consecutive transmitted bits have different CRCs, for every length and initial value |
| ChannelSelection.DataChannelMapIsValid | crates/ble-controller/src/link_layer.rs:1067-1078 | Valid means no reserved bit and at least two set bits |
| ChannelSelection.UsedTable | crates/ble-controller/src/link_layer.rs:1115-1122 | The table is the increasing enumeration of the set bits, as long as their number |
| ChannelSelection.BuildUsed | crates/ble-controller/src/link_layer.rs:1152-1159 | The in-place loop fills that table |
| ChannelSelection.ChannelSelection1.NextChannel | crates/ble-controller/src/link_layer.rs:1132-1141 | One hop of the phase, mapped to an enabled channel |
| ChannelSelection.ChannelSelection1.UpdateMap | crates/ble-controller/src/link_layer.rs:1148-1164 | The map changes exactly when valid and the phase stays |
| ChannelSelection.MappedIsEnabled | crates/ble-controller/src/link_layer.rs:1132-1141 | Every returned channel is enabled |
| ChannelSelection.RemappingIndex | crates/ble-controller/src/link_layer.rs:1132-1141 | A disabled unmapped channel maps to the enabled channel at its value modulo their number |
| ChannelSelection.ConsecutiveChannelsDistinct | crates/ble-controller/src/link_layer.rs:1132-1141 | Any 37 consecutive events have 37 distinct unmapped channels |
| ChannelSelection.EveryEnabledChannelIsUsed | crates/ble-controller/src/link_layer.rs:1132-1141 | With a fixed map every enabled channel is used within 37 events |
| ChannelSelection.PhaseSurvivesMapUpdates | crates/ble-controller/src/link_layer.rs:1143-1164 | The phase is events times hop modulo 37 across any map updates |
| ControlPdus.ConnectionUpdateRoundTrip | crates/ble-controller/src/link_layer.rs:835-854 | An encoded update parses to itself exactly when it is valid and its instant has not passed, otherwise to the specific error |
| ControlPdus.ChannelMapRoundTrip | crates/ble-controller/src/link_layer.rs:1048-1063 | The same for channel maps |
| ControlPdus.UpdateFieldsOnAir | crates/ble-controller/src/link_layer.rs:835-854 | The octets of every field of an accepted update |
| ControlPdus.MapFieldsOnAir | crates/ble-controller/src/link_layer.rs:1048-1063 | The octets of an accepted channel map and its instant |
| ControlPdus.ParamFieldsOnAir | crates/ble-controller/src/link_layer.rs:990-1002 | The octets of every parameter field |
| ControlPdus.ParametersAreValid | crates/ble-controller/src/link_layer.rs:948-987 | The loops accept exactly a duplicate-free prefix of offsets below the interval followed only by absent ones |
| ControlPdus.ParseParams | crates/ble-controller/src/link_layer.rs:920-946 | Parsing yields the little-endian fields, or the specific error |
| ControlPdus.WriteParams | crates/ble-controller/src/link_layer.rs:990-1002 | The buffer holds the encoding |
| ControlPdus.ParamsRoundTrip | crates/ble-controller/src/link_layer.rs:920-1002 | Written parameters parse to themselves exactly when they are valid |
| ControlPdus.ParamsDecodeIsInjective | crates/ble-controller/src/link_layer.rs:920-1002 | No two accepted payloads mean the same parameters |
| ConnectInd.Build | crates/ble-controller/src/advertising.rs:224-273 | The buffer is filled exactly for valid requests and is otherwise untouched |
| ConnectInd.BuiltRequestParses | crates/ble-controller/src/advertising.rs:224-344 | A built request parses to itself with the CRC initial value cut to 24 bits |
| ConnectInd.ConnectRoundTrip | crates/ble-controller/src/advertising.rs:224-344 | Build then parse is the identity exactly when the CRC initial value is below 2^24 |
| ConnectInd.ConnectFieldsOnAir | crates/ble-controller/src/advertising.rs:247-272 | The octets of every CONNECT_IND field |
| ConnectInd.ParsesExactly | crates/ble-controller/src/advertising.rs:293-344 | Parsing accepts exactly the requests to this advertiser with valid fields |
| ConnectInd.ParsedRequestIsSound | crates/ble-controller/src/advertising.rs:293-344 | Whatever parses has valid timing, map and hop |
| Timing.TimingInProducts | crates/ble-controller/src/link_layer.rs:872-891 | The timing rule is that of the source, with the supervision timeout compared to the product of latency and interval |
| Timing.RangeInProducts | crates/ble-controller/src/link_layer.rs:1007-1020 | The same for the requested parameter range |
| Timing.AccuracyClasses | crates/ble-controller/src/link_layer.rs:638-651 | The sleep-clock accuracy classes |
| Timing.WideningIsExactCeiling | crates/ble-controller/src/link_layer.rs:653-665 | No 64-bit step saturates: the result is the drift of both clocks rounded up |
| Timing.WideningMonotoneAndSubadditive | crates/ble-controller/src/link_layer.rs:653-665 | Widening is monotone and subadditive in the elapsed time |
| Uart.SelectBaud | src/uart.rs:100-132 | The result is the least-error candidate with the smallest divider, within half a latch step; none exactly below four clocks per bit or above the largest latch; least-error over all register pairs exactly when rounding the latches loses nothing |
| Uart.LeastByTwoProducts | src/uart.rs:100-132 | While the exact latch needs no divider, an error is least over all register pairs exactly when it reaches the two latches next to the exact one |
| Uart.RoundingCanMissTheBestPair | src/uart.rs:100-132 | At 12 Hz and 1 baud every candidate is off by the whole rate although the pair (1, 1) is exact |
| Uart.NearestRate | src/uart.rs:108-117 | A rounded latch is off by at most half a latch step |
| Uart.CastsAreLossless | src/uart.rs:110-122 | No stored value overflows its 32 bits |

## Left out

- Supervision deadline, HCI Reset and the outer advertising loop: a closed connection is final in the model, and the run loop closes only by procedure timeout or event result.
- Clocks: times are natural microseconds without 64-bit overflow, and the several clock samples of one event are one parameter.
- Notifications: which HCI events are emitted, RSSI and other command opcodes; delivered fragments and completed packets are recorded instead.
- Host transport: fragments handed up are never dropped by a full channel.
- Backend.ActiveConnection.RunConnectionEvent: says nothing of the fields once the connection closes, because the runner then discards the object; the supervision deadline, RSSI and the notifications it sends are not modelled.
- ControlOrder.OnlyGivenUpProceduresAreRefused: control tokens repeat after 2^31, so runs that hand out more are not described.
- Backend.ActiveConnection.SkipExpiredEvents: the ghost traffic parameter only says that the method leaves queues and frame alone.
- Backend.ActiveConnection.ApplyInstants: does not restart the supervision deadline.
- Payload buffers are sequences of at most 27 octets instead of fixed arrays with a length.
- Procedure, two-slot and sequence values are immutable tokens inside the objects; slots and tables of two or 37 entries are sequence fields.
- Access-address rules are a function parameter shared by building and parsing CONNECT_IND.
- The CRC register is 24 booleans instead of the low bits of a 32-bit word.
- Registers, RF front end, radio timing, flash, whitening, encryption headers, trace records, advertising data and scan requests.
- Liveness while the link keeps losing packets, and real-time inter-frame deadlines.
