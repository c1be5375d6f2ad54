# Verification of the profirust protocol core

This project models the PROFIBUS-DP master stack of profirust in Dafny and proves properties of the model:
the FDL token protocol of an active station, the telegram codec with its receive loop, and the DP master with
the life of its peripherals.  The frame formats and the medium access states are those of IEC 61158-4-3
(Type 3); where editions differ, the source code is the reference.

`dafny verify dfyconfig.toml` checks everything.

## How the model is built

Objects that the source updates in place are classes here (`TokenRing`, `FdlActiveStation`, `Phy`,
`Peripheral`, `PeripheralSet`, `DpMaster`, `ParametersBuilder`), with loops where the source has loops.  Next to
each of them there is a datatype for its value and a function for each operation.  Every method is proved to
change the fields exactly as its function says, and the theorems are about the functions: over one call, over
all runs, or over several stations on one bus.  The theorems over one call (PollDecisions, HoldDecisions,
PeripheralDecisions, MasterDecisions, WireFormat) say what happens in bit times, bytes and telegrams and name no
helper of the function that they are about.

| file | what it holds |
|---|---|
| CyclicOrder.dfy | addresses on a circle: successor, predecessor, and the tour over all members of a ring |
| TokenRing.dfy | the list of active stations (LAS) as a bit array, and what a token pass teaches |
| Stabilisation.dfy | the LAS repairs itself from any content |
| Parameters.dfy | baudrates, conversions, timeouts, watchdog factors, the parameter builder |
| Telegrams.dfy, WireFormat.dfy, ErrorDetection.dfy | serialization and parsing, round trip, the bytes on the wire, corrupted bytes |
| Phy.dfy | the receive buffer, the receive loops, independence from chunking |
| Stations.dfy, FdlActiveStation.dfy | the active station as functions and as an object |
| StationInvariant.dfy | what every run of a station keeps |
| StationFaults.dfy, FaultRuns.dfy | which assertions of the station can fail, exactly when, and runs in which they do |
| BusDiscipline.dfy | when and what a station transmits |
| PollDecisions.dfy, HoldDecisions.dfy | what each poll decides, in bit times, telegrams and function codes |
| Discovery.dfy, Membership.dfy | when a new station says that it is ready, and whom it takes for a master, over whole runs |
| Collisions.dfy | when a station gives way to another one with the same address |
| GapSweep.dfy, SilentNeighbours.dfy | the search for newcomers, and the end of a ring whose members vanish |
| Scheduling.dfy, TokenRotation.dfy | which application gets the token, and for how long |
| Bus.dfy | several stations on one lossless bus: what a step is, and that hearing a telegram is a poll of the station |
| TokenBus.dfy, RingStability.dfy | a ring of stations, and exactly when it stays as it is |
| RingRotation.dfy | how long a rotation of the token takes, from runs of the ring |
| Join.dfy, JoinProgress.dfy, JoinStability.dfy | a newcomer: every run is safe, some run gets there, and exactly when it stays |
| Leave.dfy | a station that falls silent |
| Peripheral.dfy, PeripheralDecisions.dfy | one DP slave, and what it is sent and what each reply does, in bytes and bits |
| PeripheralHistory.dfy | what must have happened in its life before it exchanges data |
| PeripheralSet.dfy, DpMaster.dfy, MasterDecisions.dfy | the slots, the master, and what it sends and reports |
| DpCycle.dfy, DpLives.dfy | the fairness of the cycle, and that its peripherals live the lives of PeripheralHistory |

A station value carries a log of what it transmitted, of what happened to the applications and of assertions that
failed; the log is ghost state of the object.  Time is an unbounded number of microseconds.  The environment of
one call is a parameter: the time, whether the PHY is still transmitting, the received bytes, and what each
application would send.

## What the proofs found

Some properties that the source asserts or suggests do not hold for every input.  The model follows the code;
each case is a lemma with the exact condition.

* **The newcomer at the last address is dropped.**  A sweep goes on behind the station that it has found.  When that
  station has the last address below the highest one, the sweep wraps around and asks the least member of the
  ring, which answers `MasterInRing`; `set_next_station` then makes that member the next station and forgets
  everyone in between, the newcomer among them (`LastAddressIsDropped`, a run of the bus).  A ring that a newcomer
  has joined stays as it is in every run if and only if the newcomer does not have that address or there is just
  one other station (`JoinedRingIsStableExactly`).  More generally, a ring whose stations agree stays as it is if
  and only if no sweep in progress is to meet a member of the ring (`StableExactly`).
* **GAP poll to itself.**  `transmit_gap_poll_if_pending` asserts that a station never polls its own address, and
  `await_gap_poll_response` repeats the assertion while the answer is awaited, which is not logged again.  It does
  when the sweep cursor stands right before its own address while another station is next (`SelfPollExactly`,
  `FaultsOfPoll`).  That happens after the station right before it has joined
  (`JoiningPredecessorCausesSelfPoll`; `SelfPollHappens` is a run of a new station), and after a station at the last
  address has joined one that is alone: as long as nobody answers on the way, the sweep gets to the own address
  (`JoinerLeadsToSelfPoll`).  On the bus nobody takes notice of such a poll.
* **Backing off while claiming.**  `do_claim_token` enters ActiveIdle when an unexpected telegram arrives during the
  scan, but the assertion in `transition_active_idle` does not list ClaimToken as a source (`ClaimBackOffHappens`).
* **Short confirmation after a token pass.**  `do_check_token_pass` unwraps a source address that a short
  confirmation does not have (`NoSourceHappens`).  `FaultsOfPoll` shows that these three are the only assertions of
  the station that can fail, and when, in terms of the state before the poll and the received bytes.  Where an
  assertion fails, the model goes on like a build without debug assertions.
* **Two peripherals offline in one call.**  `DpMaster::transmit_telegram` asserts that this cannot happen.  It
  happens exactly when two peripherals that get the turn in this call have exceeded the retry limit
  (`RoomExactly`); replies of the wrong kind lead there (`UnsettledRepliesEndProgram`), and replies that settle their
  request or silence never do (`SettledRepliesLeaveRoom`).
* **A reply is lost when a diagnosis is wanted too late.**  `request_diagnostics` may be called while the reply to
  cyclic data is on its way.  That reply is then taken for a diagnosis and ignored: its inputs are dropped, no event is
  reported, and the next request repeats the frame count bit of the one that was answered (`LateWishLosesReply`).
* **Time conversion.**  The unit test for converting bits to time and back checks loss limits of 4 and 10 bits on
  samples.  At the two highest baudrates up to 5 and 11 bits are lost, and the limits are exceeded exactly when the
  number of bits leaves the remainder 5 modulo 6 or 11 modulo 12; all other limits of the test hold for every number
  of bits (`SampledLimitsExactly`, `MegabitLossExactly`).
* **Start delimiter.**  A corrupted start delimiter is not always noticed: `StartDelimiterErrorExactly` says when a data
  telegram is taken for another one, `EightBytesPassForNone` and `NoBytesPassForEight` what its content must be when
  no delimiter without a checksum is involved.  Every other single corrupted byte is noticed or harmless
  (`SingleByteErrorIsDetected`).
* **Two rotations** are never enough for the LAS of a station that has just begun to listen to become valid, three
  always are; it becomes valid exactly at the third wrap-around (`ValidExactlyAtThirdWrap`).

## Model

| member | source | states |
|---|---|---|
| `CyclicOrder.TourMeetsEachOnce` | src/fdl/token_ring.rs:138-169 | following next stations from any member of a ring meets every member exactly once per round and ends where it began |
| `CyclicOrder.NewcomerSplitsArc` | src/fdl/token_ring.rs:138-169 | a newcomer between a station and its successor becomes the successor of the one and the predecessor of the other, and nobody else's neighbours change |
| `TokenRings.TokenRing.constructor` | src/fdl/token_ring.rs:56-68 | a new ring holds only this station, which is its own neighbour on both sides |
| `TokenRings.TokenRing.Reset` | src/fdl/active.rs:459-462 | the same value as a new ring of this station |
| `TokenRings.TokenRing.VerifyLasFromTokenPass` | src/fdl/token_ring.rs:92-119 | true exactly when both ends of the pass are active and nobody on the cyclic arc between them is |
| `TokenRings.TokenRing.UpdateLasFromTokenPass` | src/fdl/token_ring.rs:121-136 | afterwards only the sender is active on the arc from sender to receiver, the rest of the LAS is as before, and the neighbours are recomputed |
| `TokenRings.TokenRing.UpdateNextPrevious` | src/fdl/token_ring.rs:138-169 | the two bit array scans find the unique cyclic successor and predecessor of this station in the LAS |
| `TokenRings.TokenRing.WitnessTokenPass` | src/fdl/token_ring.rs:171-211 | the in-place four-state discovery has the effect of the function Witness and keeps the neighbours in step with the LAS |
| `TokenRings.TokenRing.ClaimToken` | src/fdl/token_ring.rs:213-218 | declares the LAS valid and changes nothing else |
| `TokenRings.TokenRing.SetNextStation` | src/fdl/token_ring.rs:220-223 | afterwards exactly the given address is the next station |
| `TokenRings.TokenRing.RemoveStation` | src/fdl/token_ring.rs:225-228 | removes exactly the given address and recomputes the neighbours |
| `TokenRings.AgreeingPassTeachesNothing` | src/fdl/token_ring.rs:92-136 | updating the LAS is the identity whenever the verification of the same pass succeeds |
| `TokenRings.LearnThenAgree` | src/fdl/token_ring.rs:92-136 | after an update the LAS agrees with the pass once its receiver is known, and a second update changes nothing |
| `TokenRings.LearnIsLocal` | src/fdl/token_ring.rs:121-136 | an update decides membership on the arc of the pass and leaves every other address alone |
| `TokenRings.OwnPassAddsOnlyThisStation` | src/fdl/token_ring.rs:121-136 | a station's own pass to its next station adds only the station itself to the LAS |
| `TokenRings.SetNextMakesItNext` | src/fdl/token_ring.rs:220-223 | from any LAS, adopting an address makes it the cyclic successor of this station |
| `TokenRings.OperationsKeepWellFormed` | src/fdl/token_ring.rs:171-228 | every operation keeps next and previous station equal to the cyclic neighbours in the LAS |
| `Stabilisation.ThreeRotationsStabilise` | src/fdl/token_ring.rs:171-211 | from any LAS content and any discovery state, three or more clean rotations of any non-empty ring leave the LAS equal to that ring and valid, with the right neighbours |
| `Stabilisation.ValidExactlyAtThirdWrap` | src/fdl/token_ring.rs:171-211 | for a station that has just begun to listen, any ring and any first sender, the LAS is valid exactly from the third wrap-around of the token on |
| `Stabilisation.TwoRotationsAreNotEnough` | src/fdl/token_ring.rs:171-211 | so no ring and no first sender make it valid within two rotations |
| `BusParameters.BitsSurviveTimeConversion` | src/lib.rs:145-152 | converting bits to time and back never gains bits and loses at most the bits of one microsecond, rounded up, for every baudrate and number of bits |
| `BusParameters.MegabitLossExactly` | src/lib.rs:145-152 | at a whole number of megabits, converting there and back loses exactly the bits that do not fill a microsecond |
| `BusParameters.SampledLimitsExactly` | src/lib.rs:169-200 | for every baudrate and every number of bits, the loss exceeds the limit of the unit test if and only if the rate is 6 or 12 megabits and one microsecond lacks a single bit |
| `BusParameters.LowerAddressClaimsFirst` | src/fdl/parameters.rs:283-286 | with equal baudrate and slot time, the claim telegram of the lower address ends before the timeout of any higher address, despite rounding down |
| `BusParameters.SlotCoversSyncPause` | src/fdl/parameters.rs:84-98 | a slot is never shorter than the synchronization pause |
| `BusParameters.SlotLimitsByRate` | src/fdl/parameters.rs:83-98 | the least slot time of every baudrate is that of the documented table, which goes by the rate |
| `BusParameters.TimeoutBitsFit` | src/fdl/parameters.rs:283-286 | the bit count of the token timeout fits into 32 bits |
| `BusParameters.WatchdogFactors` | src/fdl/parameters.rs:101-119 | the search succeeds exactly up to 255 * 255 units of 10 ms, returns the least first factor whose partner fits into a byte, and overshoots the timeout by less than that factor |
| `BusParameters.ParametersBuilder.constructor` | src/fdl/parameters.rs:130-150 | the defaults are consistent for every address up to 125 and every baudrate |
| `BusParameters.ParametersBuilder.SlotBits` | src/fdl/parameters.rs:156-167 | keeps the parameters consistent |
| `BusParameters.ParametersBuilder.HighestStationAddress` | src/fdl/parameters.rs:171-182 | also sets the rotation time and keeps the parameters consistent |
| `BusParameters.ParametersBuilder.TokenRotationBits` | src/fdl/parameters.rs:186-193 | keeps the parameters consistent |
| `BusParameters.ParametersBuilder.WatchdogTimeout` | src/fdl/parameters.rs:235-240 | between 10 ms and 650 s the unwrap cannot fail, and the factors are the least that cover the timeout |
| `Telegrams.FunctionCodeRoundTrip` | src/fdl/telegram.rs:220-246 | every function code survives encoding into its byte and back |
| `Telegrams.Serialize` | src/fdl/telegram.rs:278-342 | the cursor writes exactly the encoded telegram to the front of the buffer, returns its length, and leaves the rest of the buffer alone |
| `Telegrams.Encode` | src/fdl/telegram.rs:344-353 | the encoding of every telegram that fits has the announced length, at most 255 bytes |
| `Telegrams.ParseFrame` | src/fdl/telegram.rs:390-479 | stays in bounds for every position of the boundaries, is incomplete exactly when the buffer is too short for the length, and yields addresses below 128 |
| `Telegrams.RoundTrip` | src/fdl/telegram.rs:365-479 | an encoded telegram followed by any bytes parses to itself and its exact length if and only if its addresses are below 128 |
| `Telegrams.PrefixIsIncomplete` | src/fdl/telegram.rs:608-623 | no strict prefix of an encoded telegram parses to anything but incomplete |
| `Telegrams.Parse` | src/fdl/telegram.rs:608-623 | on any bytes, parsing stays in bounds and consumes between one byte and the whole buffer on success |
| `Telegrams.IncompleteIsShort` | src/fdl/telegram.rs:365-479 | a buffer that is still incomplete has at most 260 bytes |
| `WireFormat.CodesOnTheWire` | src/fdl/telegram.rs:220-246 | every function code has the byte that the tables of IEC 61158-4-3 give its request or response and its frame count bit |
| `WireFormat.FramesOnTheWire` | src/fdl/telegram.rs:278-342 | every data telegram is the delimiter of the format for its length, its content with the extension bits, the sum of the content modulo 256, and 0x16 |
| `WireFormat.StatusOnTheWire` | src/fdl/telegram.rs:706-741 | the six bytes of every status request and every status answer; the samples of the unit tests (src/fdl/telegram.rs:765-820) are two of them |
| `ErrorDetection.SingleByteErrorIsDetected` | src/fdl/telegram.rs:370-464 | replacing any one byte behind the start delimiter makes the parser reject the frame, but for the repeated start delimiter, where the same telegram is read |
| `ErrorDetection.UncheckedStartDelimiter` | src/fdl/telegram.rs:608-623 | a start delimiter turned into the short confirmation or the token is always believed, and one turned into no start delimiter never |
| `ErrorDetection.StartDelimiterErrorExactly` | src/fdl/telegram.rs:365-479 | for every data telegram and every other first byte, whole telegrams come out exactly in those two cases, or when a format without a length byte passes for another one |
| `ErrorDetection.EightBytesPassForNone` | src/fdl/telegram.rs:390-479 | the format with eight bytes passes for the one without exactly when it has no access points and its data begins with what would be checksum and end delimiter |
| `ErrorDetection.NoBytesPassForEight` | src/fdl/telegram.rs:390-479 | the format without data passes for the one with eight bytes exactly when the bytes behind it end with the right checksum and end delimiter |
| `PhysicalLayer.Phy.Drop` | src/phy/serial.rs:250-261 | the shift-down loop leaves exactly the bytes behind the dropped ones |
| `PhysicalLayer.Phy.ReceiveTelegram` | src/phy/mod.rs:124-142 | hands out the first telegram and consumes exactly its bytes, everything when it is invalid, nothing when it is incomplete |
| `PhysicalLayer.Phy.ReceiveAllTelegrams` | src/phy/mod.rs:162-189 | the loop terminates, hands out every complete telegram in order with the right last flag, and leaves the incomplete rest |
| `PhysicalLayer.Phy.PollTransmission` | src/phy/serial.rs:158-186 | when a transmission ends, receiving starts over with an empty buffer |
| `PhysicalLayer.Phy.Transmit` | src/phy/serial.rs:188-235 | accepts a telegram only while nothing is being transmitted, and its bytes stand at the front of the buffer |
| `PhysicalLayer.ChunkingDoesNotMatter` | src/phy/mod.rs:162-189 | however the encoding of a list of telegrams is cut into chunks, receiving after each chunk hands out exactly that list in order and leaves the buffer empty |
| `PhysicalLayer.BufferCannotStall` | src/phy/serial.rs:250-261 | after every receive pass at least 252 bytes of the buffer are free |
| `PhysicalLayer.OneThenTheRest` | src/phy/mod.rs:124-189 | receiving one telegram and later all others hands out the same telegrams and leaves the same bytes as receiving all at once, for every buffer |
| `PhysicalLayer.GarbageDropsTheRest` | src/phy/mod.rs:162-189 | telegrams in front of a byte that begins none are handed out, none of them as the last one, and everything from that byte on is dropped |
| `FdlActiveStations.FdlActiveStation.Poll` | src/fdl/active.rs:1461-1514 | one call changes the object exactly as the function Poll says, also when more bytes arrive between counting and receiving, and never starts a transmission during another one |
| `FdlActiveStations.FdlActiveStation.constructor` | src/fdl/active.rs:423-441 | a new station is offline, satisfies the invariant and knows only itself |
| `FdlActiveStations.FdlActiveStation.SetOnline` | src/fdl/active.rs:455-494 | only the connectivity changes |
| `FdlActiveStations.FdlActiveStation.SetOffline` | src/fdl/active.rs:455-478 | forgets everything but the parameters |
| `FdlActiveStations.FdlActiveStation.MarkActivity` | src/fdl/active.rs:567-570 | the last activity never moves back |
| `FdlActiveStations.FdlActiveStation.MarkReceived` | src/fdl/active.rs:623-626 | no bytes are pending afterwards and the last activity is now or later |
| `FdlActiveStations.FdlActiveStation.WaitSynchronizationPause` | src/fdl/active.rs:595-601 | waits exactly while 33 bit times since the last activity are not over; an unknown activity counts as now |
| `FdlActiveStations.FdlActiveStation.CheckSlotExpired` | src/fdl/active.rs:629-649 | expired exactly when more than a slot has passed since the last activity |
| `FdlActiveStations.FdlActiveStation.TransmitTelegram` | src/fdl/active.rs:604-612 | needs a free PHY and hands it the encoded telegram; the last activity becomes its end at 11 bits per byte |
| `FdlActiveStations.FdlActiveStation.TransmitGapPollIfPending` | src/fdl/active.rs:725-743 | polls exactly the address of the sweep, and nothing while waiting |
| `FdlActiveStations.FdlActiveStation.AwaitGapPollAnswer` | src/fdl/active.rs:745-794 | adopts the polled station exactly when it answers that it wants the token |
| `FdlActiveStations.FdlActiveStation.HandleLostToken` | src/fdl/active.rs:654-674 | starts to claim the token exactly when the bus has been silent for the timeout |
| `FdlActiveStations.FdlActiveStation.DoListenToken` | src/fdl/active.rs:800-895 | on a silent bus the token is claimed; a waiting asker is answered after the pause, as ready only if it is the predecessor in a valid LAS; otherwise every telegram of the batch is treated in order, also behind one that takes the station offline |
| `FdlActiveStations.FdlActiveStation.ListenToTelegram` | src/fdl/active.rs:843-894 | the whole new state for every telegram heard while listening, also after the station has gone offline within the batch |
| `FdlActiveStations.FdlActiveStation.HandleReceivedTelegram` | src/fdl/active.rs:897-983 | the whole new state for every telegram in every batch position: collisions count only back to back, a token for this station is taken from the predecessor or from an unknown sender the second time, and only when it is the last telegram |
| `FdlActiveStations.FdlActiveStation.HandleReceivedToken` | src/fdl/active.rs:937-969 | the token of another station is witnessed, taken, taken as an unknown sender's repeated offer, or remembered |
| `FdlActiveStations.FdlActiveStation.DoActiveIdle` | src/fdl/active.rs:986-1020 | as while listening, but every asker is answered as in the ring, and the loop over the batch stops acting once the station has left the state |
| `FdlActiveStations.FdlActiveStation.DoClaimToken` | src/fdl/active.rs:1023-1103 | two claims, then the scan of the GAP, with the next scan in the same poll when a slot expires |
| `FdlActiveStations.FdlActiveStation.SendClaimToken` | src/fdl/active.rs:1032-1055 | after the pause, a token to itself makes the LAS valid and starts the sweep at the own address |
| `FdlActiveStations.FdlActiveStation.ScanGap` | src/fdl/active.rs:1056-1080 | one step of the scan: the next poll, or the token is passed on when the sweep has ended |
| `FdlActiveStations.FdlActiveStation.ScheduleNextApplication` | src/fdl/active.rs:1126-1135 | reports a completed cycle exactly when the first application asked in this hold is due again |
| `FdlActiveStations.FdlActiveStation.AppTransmitTelegram` | src/fdl/active.rs:1106-1124 | waits for a reply exactly when the telegram expects one, and for that of its destination |
| `FdlActiveStations.FdlActiveStation.AppsTransmitTelegram` | src/fdl/active.rs:1138-1161 | the loop asks the applications in turn from the one that is due until one transmits or all have declined since the token came, and transmits at most once |
| `FdlActiveStations.FdlActiveStation.StartTokenHold` | src/fdl/active.rs:1172-1182 | once per token, the end of the hold is the previous arrival plus the rotation time, less the time of a GAP poll while sweeping |
| `FdlActiveStations.FdlActiveStation.DoUseToken` | src/fdl/active.rs:1164-1199 | the end of the hold is computed once per token from the previous arrival; late, one high priority cycle is still allowed |
| `FdlActiveStations.FdlActiveStation.DoAwaitDataResponse` | src/fdl/active.rs:1201-1266 | a valid reply or an expired slot goes to the application that asked, anything else ends the hold; after an expired slot the token is used on in the same poll |
| `FdlActiveStations.FdlActiveStation.DoPassToken` | src/fdl/active.rs:1269-1321 | advances the GAP sweep or the count of rotations, then polls the GAP or passes the token, and a station that is alone takes its own token |
| `FdlActiveStations.FdlActiveStation.SendTokenTelegram` | src/fdl/active.rs:1303-1320 | the token goes to the next station known before the pass, which is witnessed; a station that is alone keeps it |
| `FdlActiveStations.FdlActiveStation.DoAwaitStatusResponse` | src/fdl/active.rs:1324-1355 | after an answer or an expired slot the token is passed, in the latter case in the same poll |
| `FdlActiveStations.FdlActiveStation.DoCheckTokenPass` | src/fdl/active.rs:1358-1422 | after an expired slot the next attempt, or the removal of the silent station, in the same poll; otherwise the first telegram leads to ActiveIdle and is treated there |
| `StationInvariant.NewStationIsReady` | src/fdl/active.rs:423-441 | a new station satisfies the invariant |
| `StationInvariant.PollKeeps` | src/fdl/active.rs:172-384 | every poll with any input keeps the invariant: offline means state Offline, every ring state but the first claim has a valid LAS, an awaited GAP answer belongs to the polled address, the neighbours are right; every transition on the way starts from a state in the asserted table (the preconditions of the transition functions), and every accessor meets its own variant |
| `StationInvariant.Run` | src/fdl/active.rs:1461-1514 | so does every run of polls and of going online and offline |
| `StationFaults.FaultsOfPoll` | src/fdl/active.rs:725-743 | in every poll each assertion holds but for three, and each of these fails exactly under its condition on the state before the poll, the time and the received bytes |
| `FaultRuns.SelfPollHappens` | src/fdl/active.rs:725-731 | for all parameters with another address to poll, a run from a new station in which the first assertion fails |
| `FaultRuns.ClaimBackOffHappens` | src/fdl/active.rs:1093-1099 | the same for the second one |
| `FaultRuns.NoSourceHappens` | src/fdl/active.rs:1403-1411 | for all parameters with two addresses above the own one, a run from a new station in which the third assertion fails |
| `PollDecisions.TransmittingWaits` | src/fdl/active.rs:578-593 | while the PHY transmits, or the own telegram has not ended by the clock, a poll changes nothing but the clock |
| `PollDecisions.OnlineStationListens` | src/fdl/active.rs:1487-1491 | the first poll of a station that went online is that of a listener with no asker and no collision |
| `PollDecisions.BytesCountOnce` | src/fdl/active.rs:614-621 | a poll that sends nothing and finds no complete telegram counts silence from now exactly when more bytes are pending than before, and remembers their number, so bytes that stay in the buffer count as activity once |
| `PollDecisions.ClaimsExactly` | src/fdl/active.rs:654-674 | over `Poll`: without the token a station enters ClaimToken if and only if the bus has been silent for the time of slot bits times (6 + 2 * address), and it then sends the token to itself at once |
| `PollDecisions.NothingBeforeTimeout` | src/fdl/parameters.rs:283-286 | over every run of polls on a silent bus that ends before that timeout, a listener sends nothing |
| `PollDecisions.LowerAddressClaimsAlone` | src/fdl/parameters.rs:283-286 | of two machines with equal baudrate, slot and last activity, the one with the lower address claims at its timeout, and no run of polls of the other one before the end of that claim sends anything |
| `PollDecisions.ListenerAnswersExactly` | src/fdl/active.rs:804-841 | over `Poll`: a listener answers its asker exactly after more than 33 bit times, with `MasterWithoutToken` if and only if its LAS is valid and the asker is its previous station, otherwise with `MasterNotReady`, and it enters the ring if and only if its LAS is valid |
| `PollDecisions.IdleAnswersExactly` | src/fdl/active.rs:986-1010 | over `Poll`: in the ring every asker is answered with `MasterInRing` after the pause |
| `PollDecisions.OwesAnswerExactly` | src/fdl/active.rs:843-983 | a single telegram that is no token leaves the LAS alone and makes the station owe an answer if and only if it is an FDL status request to this station, and then to its sender |
| `PollDecisions.TakesTokenExactly` | src/fdl/active.rs:937-969 | a single token is taken if and only if it is for this station and its sender is the previous station or has tried right before; a stranger is remembered and teaches nothing, from every other pass the LAS learns exactly the arc |
| `PollDecisions.OnlyLastTelegramGivesToken` | src/fdl/active.rs:897-983 | whatever bytes arrive, a station gets the token only by a token of another station for it that is the last telegram with nothing behind it |
| `PollDecisions.AdoptsExactly` | src/fdl/active.rs:745-794 | over `Poll`, after a GAP poll in the ring or in the scan: the LAS changes if and only if the first telegram is data of the polled address to this station with the function code `Response(MasterWithoutToken, Ok)` or `Response(MasterInRing, Ok)`; then the polled address is next and everyone in between is forgotten |
| `PollDecisions.AnswerEndsPoll` | src/fdl/active.rs:745-794 | a response of the polled station to this one ends the GAP poll, every other telegram makes the station give up the token, and nothing is sent in either case |
| `PollDecisions.SlaveIsNotAdopted` | src/fdl/active.rs:764-768 | the answer of a slave in the GAP leaves the LAS alone |
| `PollDecisions.RetriesExactly` | src/fdl/active.rs:1358-1397 | over `Poll`: an offer is repeated if and only if the bus has been silent for more than a slot, twice to the same station; then exactly that station leaves the LAS and the next one is offered the token as a first attempt |
| `HoldDecisions.UsesExactly` | src/fdl/active.rs:1106-1198 | over `Poll`: after the pause the token is released if the hold time is over and a cycle has been done; otherwise the applications are asked in turn, for high priority only if and only if the time is over, until one transmits or the first one is due again; a reply is awaited exactly from the receiver of a request that wants one |
| `HoldDecisions.ReplyExactly` | src/fdl/active.rs:1214-1246 | over `Poll`: the application gets a reply if and only if the first telegram is a short confirmation, or a response with the awaited source and this station as destination; after any other telegram the station is in the ring without the token, and no application hears of it |
| `HoldDecisions.NoReplyExactly` | src/fdl/active.rs:1248-1260 | the application is told of a missing reply if and only if the bus has been silent for more than a slot, and the token is used on in the same poll |
| `HoldDecisions.ReplyComesFromReceiver` | src/fdl/active.rs:1106-1246 | over every run of a new station, the last telegram before a reply wants one, and the reply is handed on if and only if it is a short confirmation or comes from the receiver of that telegram |
| `HoldDecisions.PassesExactly` | src/fdl/active.rs:1269-1321 | over `Poll`: when the count of rotations is above the limit the sweep begins, a sweep in progress goes on, and either one address is asked for its status or the token goes to the next station, or to this one when it is alone |
| `HoldDecisions.ClaimsTwice` | src/fdl/active.rs:1032-1055 | each of the two claims is sent after the pause, makes the LAS valid, and the scan begins behind the own address |
| `HoldDecisions.ScansExactly` | src/fdl/active.rs:1056-1079 | the scan asks the next address of the sweep, and passes the token without another GAP step when there is none |
| `HoldDecisions.SilenceEndsPoll` | src/fdl/active.rs:1324-1345 | when no telegram follows a GAP poll, the station goes on as if it had not asked if and only if more than a slot has passed |
| `Discovery.ReadyExactlyAtThirdWrap` | src/fdl/active.rs:804-894 | a listener that is polled with the passes of any ring and then asked by a member answers `MasterWithoutToken` if and only if the token has wrapped around three times and its predecessor has asked, and enters the ring, with the ring as its LAS, if and only if the token has wrapped around three times |
| `Discovery.NeverReadyBeforeThirdWrap` | src/fdl/token_ring.rs:171-211 | over every run of a new station, whatever it receives, with less than three wrap-arounds heard and no claim of its own everything it has ever sent is `MasterNotReady` |
| `Membership.MembersHaveSpoken` | src/fdl/active.rs:745-983 | over every run, whoever is new in the LAS has passed the token or has answered as a master ready for the token or in the ring |
| `Membership.TokenGoesToMasters` | src/fdl/active.rs:1269-1421 | so in every run of a new station the token only ever goes to such a station, and never to a slave |
| `BusDiscipline.PollIsDisciplined` | src/fdl/active.rs:567-649 | each poll transmits at most one telegram, at the time of the poll, with a free PHY and more than 33 bit times after the last known activity, which covers the own previous telegram |
| `BusDiscipline.OwnTransmissionsAreSpaced` | src/fdl/active.rs:592-612 | over every run online, each transmission begins more than 33 bit times after the end of the previous one |
| `BusDiscipline.RetryIsImmediate` | src/fdl/active.rs:1365-1398 | after an expired slot the token is offered again in the same poll |
| `BusDiscipline.WithoutTokenOnlyAnswers` | src/fdl/active.rs:800-1020 | without the token a station sends nothing but a status answer to the waiting asker, or the claim of a lost token |
| `BusDiscipline.AskerHasAsked` | src/fdl/active.rs:880-890 | whoever waits for a status answer after a poll did so before it, or its request to this station was the last telegram of the batch |
| `BusDiscipline.AnswersFollowRequests` | src/fdl/active.rs:809-890 | over every run online, each status answer goes to a station whose request has arrived before |
| `Collisions.LeavesRingExactlyOnCollision` | src/fdl/active.rs:913-935 | over any batch, a station in the ring goes back to listening if and only if it witnesses two tokens in its own name with no other station's token between them |
| `Collisions.GoesOfflineExactlyOnCollision` | src/fdl/active.rs:846-871 | over any batch, a listening station goes offline if and only if it has heard two telegrams in its own name since it began to listen |
| `GapSweep.SweepVisitsTheGap` | src/fdl/active.rs:698-723 | with an unchanged next station a sweep visits exactly the addresses strictly between this and the next station, each once and in cyclic order, and then ends |
| `GapSweep.SelfPollExactly` | src/fdl/active.rs:698-731 | a sweep polls the own address if and only if its cursor stands right before it and another station is next |
| `GapSweep.SweepEndsAtJoiner` | src/fdl/active.rs:698-723 | after the polled station was adopted the sweep ends if and only if that station is neither right before this one nor the last address above it |
| `GapSweep.JoinerLeadsToSelfPoll` | src/fdl/active.rs:698-731 | in those two cases the sweep goes on and, as long as no answer changes the next station, polls the station itself |
| `GapSweep.ClearSweepPollsNobody` | src/fdl/active.rs:698-723 | what is left of a sweep, from any cursor, meets exactly the addresses on the arc from its next poll to the next station |
| `GapSweep.GapStepsGetTo` | src/fdl/active.rs:698-723 | from any GAP state, with an unchanged next station, every address of the GAP is polled after finitely many steps |
| `GapSweep.JoiningPredecessorCausesSelfPoll` | src/fdl/active.rs:745-782 | when the station right before this one asks for the token, the next GAP poll, whenever it comes, is sent to the own address and fails the assertion |
| `SilentNeighbours.SilentNeighboursAreDropped` | src/fdl/active.rs:1365-1397 | whenever the station is polled: with k silent members the m-th poll that is due offers the token to the m-th receiver, each member gets exactly three offers in cyclic order and is removed, and exactly after 3k+1 tokens the station has the token in a ring of its own |
| `SilentNeighbours.SilentPollSends` | src/fdl/active.rs:1269-1321 | a poll after the pause or an expired slot retries or drops, and transmits, at once; any other poll changes nothing |
| `Scheduling.UsingKeepsTurns` | src/fdl/active.rs:1126-1199 | using the token keeps the round-robin order, and when the token is released before the hold time is over every application has declined exactly once since it was taken |
| `Scheduling.RunKeepsTurns` | src/fdl/active.rs:1126-1266 | over every run online, application cycles complete in strict round-robin order across holds, and every reply and timeout goes to the application that sent the request right before |
| `Scheduling.NewStationKeepsTurns` | src/fdl/active.rs:1126-1266 | so every run of a new station serves its applications in turn |
| `Scheduling.RoundHasNoRepetition` | src/fdl/active.rs:1126-1135 | no application declines twice within one hold |
| `TokenRotation.WholeHoldFollowsTheRule` | src/fdl/active.rs:1164-1199 | over all polls of a hold, every telegram but the first begins before the rotation time since the previous arrival of the token is over |
| `TokenRotation.RotationIsBounded` | src/fdl/active.rs:1172-1193 | if every station lets go of the token at most one cycle after the rotation time since its last arrival, every rotation of n stations takes at most TTR + n cycles |
| `RingRotation.HoldGoesOn` | src/fdl/active.rs:1164-1266 | a poll during a hold stays in the same hold with its telegram noted, or lets go of the token remembering its arrival |
| `RingRotation.LedgerFollowsRule` | src/fdl/active.rs:1164-1199 | over every run of a steady ring, the holds go around the ring, the arrival that a station remembers is its own of one rotation before, and only the first telegram of a hold begins later than a rotation time after that |
| `RingRotation.RotationOnBusIsBounded` | src/fdl/active.rs:1172-1193 | over every run of a steady ring of n stations, given the length of a cycle and the latency of a poll, every rotation of the token takes at most TTR and n cycles with their latency |
| `Buses.HearingIsPolling` | src/fdl/active.rs:1461-1514 | hearing a telegram on the model bus is what the next poll does when its encoded bytes have arrived |
| `Buses.ReceivingIsPolling` | src/fdl/active.rs:1461-1514 | so is receiving one while listening or awaiting a status answer |
| `Buses.IdlePollWaits` | src/fdl/active.rs:1461-1514 | polling a station without the token while nothing has arrived and no timeout has expired changes nothing but its clock |
| `TokenBus.LoneStationIsSteady` | src/fdl/active.rs:1312-1314 | a station that has the token and knows nobody else is a steady ring of one |
| `TokenBus.HolderPolls` | src/fdl/active.rs:1164-1355 | a polled holder transmits at most one telegram: its own pass to its successor, the next GAP poll of its sweep, or an application's; and keeps or hands over the token accordingly |
| `TokenBus.StepStaysClear` | src/fdl/active.rs:698-743 | a sweep that is clear of some stations asks none of them and stays clear of them |
| `TokenBus.StepKeepsSteady` | src/fdl/active.rs:897-971 | every step of the bus keeps exactly one token holder, every LAS equal to the ring and every sweep clear of it |
| `TokenBus.StableRing` | src/fdl/active.rs:897-971 | over every run of a ring of n stations (n = 1 and n = 2 included), with all stations polled in any order, there is exactly one holder, as many places around the ring as there were passes, and no LAS changes |
| `RingStability.UnclearRing` | src/fdl/active.rs:745-782 | from any ring in agreement with a sweep that is to meet a member there is a run in which a station with such a sweep asks the first member on its way and forgets everyone in between |
| `RingStability.StableExactly` | src/fdl/active.rs:745-1020 | a ring in agreement keeps every LAS in every run if and only if no sweep in progress is to meet a member |
| `Joining.NewcomerAnswers` | src/fdl/active.rs:809-840 | the listener asked by its predecessor answers that it is ready for the token, and enters the ring |
| `Joining.NewcomerRefusesOthers` | src/fdl/active.rs:809-840 | asked by any other station it answers that it is not ready, but enters the ring as well |
| `Joining.HolderAdopts` | src/fdl/active.rs:762-774 | the answer makes the holder's LAS the ring with the newcomer, and the newcomer its next station, at every position of the newcomer |
| `Joining.SuccessorHearsHandover` | src/fdl/active.rs:945-968 | the newcomer's successor takes its token at the latest when it is offered for the second time |
| `Joining.HandoverTakesTwoTokens` | src/fdl/active.rs:937-968 | any station in ActiveIdle takes a token at the latest when the same sender offers it twice in a row |
| `Joining.JoinStepAdvances` | src/fdl/active.rs:762-968 | every step of a bus with a newcomer leads from one phase of joining to the same or the next one |
| `Joining.TimelyPollAdvances` | src/fdl/active.rs:1303-1397 | a poll after the pause, or after an expired slot, takes the newcomer to the next phase |
| `Joining.JoinIsSafe` | src/fdl/active.rs:762-968 | over every run until the newcomer has joined, at every position, no station is dropped from any LAS, there is never a second token, and in the end all stations agree on the ring with the newcomer |
| `JoinProgress.ListenerJoins` | src/fdl/active.rs:698-968 | wherever sweeps and token stand, there is a run in which the listener is found by the sweep of its predecessor and joins |
| `JoinStability.JoinedRingIsStableExactly` | src/fdl/active.rs:698-782 | after that, every run keeps every LAS if and only if the newcomer is not at the last address below the highest one or joined a single station |
| `JoinStability.LastAddressIsDropped` | src/fdl/active.rs:762-774 | otherwise there is a run in which the least member answers and the newcomer is dropped: the LAS of its predecessor is the old ring again, with the least member next |
| `Joining.SteadyRingCanBeJoined` | src/fdl/active.rs:800-840 | any steady ring and any listener that knows it are where joining begins, unless the sweep of another station than its predecessor is still to meet the listener |
| `Joining.TwoStationsCanMeet` | src/fdl/active.rs:800-840 | a station alone with its token and a new station that has witnessed three rotations of that ring are such a pair |
| `Leaving.ThirdAttemptRedirects` | src/fdl/active.rs:1383-1397 | after the third attempt exactly the silent station leaves the LAS, and the token goes to the station behind it, or to the station itself when nobody is left |
| `Leaving.RedirectTeachesLoss` | src/fdl/token_ring.rs:121-136 | whoever witnesses that pass drops exactly the lost station, and keeps its next station |
| `Leaving.SuccessorHearsRedirect` | src/fdl/active.rs:945-968 | the station behind the lost one takes the token of the unknown sender at the latest when it is offered again |
| `Leaving.LossStepAdvances` | src/fdl/active.rs:1303-1421 | every step of a bus with a lost station leads from one phase of the loss to the same or the next one |
| `Leaving.LossIsSafe` | src/fdl/active.rs:1303-1421 | over every run after a station fell silent with the token, nobody else is dropped from any LAS, there is never a second token, and in the end the bus is a steady ring of the remaining stations |
| `Leaving.ExpiredOfferAdvances` | src/fdl/active.rs:1365-1397 | each poll after an expired slot is the next attempt, and the third one redirects the token |
| `Leaving.ExpiredRedirectCloses` | src/fdl/active.rs:1365-1397 | the next expired slot hands the redirected token over |
| `Leaving.SilentHolderBeginsLoss` | src/fdl/active.rs:1303-1321 | any steady ring whose holder falls silent before it transmits, while its predecessor still checks the pass, is where the loss begins |
| `Peripherals.Peripheral.TransmitTelegram` | src/dp/peripheral.rs:336-474 | the object takes its turn exactly as TakeTurn says, changing only state and retry count |
| `Peripherals.Peripheral.constructor` | src/dp/peripheral.rs:225-239 | a new peripheral is offline, has the first frame count bit and no unanswered request |
| `Peripherals.Peripheral.RequestDiagnostics` | src/dp/peripheral.rs:330-332 | changes nothing but the wish for a diagnosis |
| `Peripherals.Peripheral.DiagnosticsRequest` | src/dp/peripheral.rs:647-663 | an empty request to the diagnosis access point with the present frame count bit |
| `Peripherals.Peripheral.ReceiveInputs` | src/dp/peripheral.rs:571-626 | the whole new state for every reply to cyclic data |
| `Peripherals.TurnKeepsPeripheral` | src/dp/peripheral.rs:466-474 | a turn changes only state and retry count, which never exceeds the limit by more than one |
| `Peripherals.ReplyKeepsPeripheral` | src/dp/peripheral.rs:476-645 | a reply never adds to the retry count and leaves address, options, outputs and the size of the inputs alone |
| `Peripherals.Peripheral.HandleDiagnosticsResponse` | src/dp/peripheral.rs:665-737 | accepts exactly the well-formed diagnosis telegrams, stores their content and their extended diagnosis as far as the buffer holds it, and cycles the frame count bit |
| `Peripherals.Peripheral.ReceiveReply` | src/dp/peripheral.rs:476-645 | the object treats every reply exactly as HearReply says |
| `Peripherals.RequestOf` | src/dp/peripheral.rs:348-465 | every request fits into a telegram, expects an answer from the peripheral, goes to the access point of its state and carries its frame count bit, and the outputs, nothing, the user parameters behind seven bytes, or the configuration, by access point |
| `Peripherals.InputsAreReported` | src/dp/peripheral.rs:559-634 | the inputs change only together with the event that reports them, only to the data of an accepted reply of the right length, and the state is then DataExchange |
| `PeripheralDecisions.DiagnosisByBytes` | src/dp/peripheral.rs:665-737 | a diagnosis is data from access point 60 to 62 with at least six bytes; identity, master and the five flags that matter are read off its bytes and bits |
| `PeripheralDecisions.TurnExactly` | src/dp/peripheral.rs:348-474 | a peripheral is given up exactly above the retry limit; otherwise it is sent what is due: the outputs without access points, or between 62 and 60, 61 or 62 an empty request, the parameters, or the configuration; it is sent nothing exactly when it was silent the turn before or parameters or configuration are unknown |
| `PeripheralDecisions.ParametersAreReadable` | src/dp/peripheral.rs:379-401 | from the parameters the slave reads the lock, synchronization and watchdog bits, the factors at bytes 1 and 2, the response time, the identity big-endian at bytes 4 and 5, the groups, and the user parameters from byte 7 on |
| `PeripheralDecisions.OnlineExactly` | src/dp/peripheral.rs:484-493 | exactly a diagnosis brings a peripheral online, and its content is stored |
| `PeripheralDecisions.ConfirmedExactly` | src/dp/peripheral.rs:494-521 | exactly the short confirmation ends parameterization and configuration |
| `PeripheralDecisions.ValidatedExactly` | src/dp/peripheral.rs:522-558 | the bits of the diagnosis decide, in this order: parameter fault, configuration fault, parameters required, ready exactly when not said otherwise |
| `PeripheralDecisions.ExchangedExactly` | src/dp/peripheral.rs:559-643 | the inputs are taken and reported if and only if a response with one of three states, or a short confirmation, has exactly their size; the diagnosis is wanted exactly after an answer of high priority, and validation follows exactly a disabled access point |
| `PeripheralHistory.ExchangeHasHistory` | src/dp/peripheral.rs:476-645 | in every life a peripheral that exchanges data has come online and not been dropped since, then confirmed its parameters, then its configuration, then reported no fault and readiness, and not refused cyclic data since |
| `PeripheralHistory.OfflineExactlyAfterLimit` | src/dp/peripheral.rs:336-358 | the Offline event comes exactly after limit + 1 requests since the last settling reply or skipped turn, and each request carries the frame count bit determined by the number of accepted replies |
| `PeripheralHistory.StepKeepsLife` | src/dp/peripheral.rs:466-645 | at any time the frame count bit, the retry count and the outstanding request are what the trace of requests and replies says |
| `PeripheralHistory.FcbTellsRepeatFromNext` | src/fdl/telegram.rs:159-166 | after an accepted reply the bit is valid and has the other value |
| `PeripheralHistory.RequestsCarryLatestOutputs` | src/dp/peripheral.rs:348-465 | over every life of a new peripheral, each telegram it is sent carries the outputs written last before it, or the initial ones, or it is an empty diagnosis request, the parameters, or the configuration |
| `PeripheralHistory.InputsAreLatest` | src/dp/peripheral.rs:559-634 | over every life, the inputs are those of the last reply that was reported as an exchange of data |
| `PeripheralHistory.LateWishLosesReply` | src/dp/peripheral.rs:330-332 | at any time in a life, a wish for a diagnosis while cyclic data is awaited makes the reply be ignored, and the next request carries the same frame count bit |
| `PeripheralSets.PeripheralSet.Add` | src/dp/peripheral_set.rs:48-74 | the peripheral goes into the first free slot or a new last one; there is no handle exactly when all slots are taken and no more can be added |
| `PeripheralSets.PeripheralSet.GetAtIndexMut` | src/dp/peripheral_set.rs:118-137 | finds the first occupied slot at or after the index |
| `PeripheralSets.PeripheralSet.GetNextIndex` | src/dp/peripheral_set.rs:139-147 | finds the second occupied slot at or after the index |
| `PeripheralSets.FirstFrom` | src/dp/peripheral_set.rs:118-137 | the result is occupied and every slot before it from the index on is free |
| `PeripheralSets.OccupiedBelowIsSorted` | src/dp/peripheral_set.rs:118-147 | the list of occupied slots has each of them exactly once in ascending order |
| `DpMasters.DpMaster.IncrementCycleState` | src/dp/master.rs:222-239 | ends the turn of the current slot and reports a completed cycle exactly when no occupied slot follows |
| `DpMasters.DpMaster.constructor` | src/dp/master.rs:126-145 | a new master is in Stop at the first slot and has no events |
| `DpMasters.DpMaster.EnterOperate` | src/dp/master.rs:187-220 | a global control telegram is due at once |
| `DpMasters.DpMaster.TakeLastEvents` | src/dp/master.rs:177-179 | hands out the events once |
| `DpMasters.DpMaster.TransmitTelegram` | src/dp/master.rs:241-358 | nothing in Stop, the global control telegram when it is due and low priority is allowed, otherwise the turn goes around; the events of the last call are replaced |
| `DpMasters.DpMaster.VisitPeripherals` | src/dp/master.rs:298-357 | for a non-empty set the loop over the slots terminates, with the peripherals, the cycle and the events that the recursion Visit gives |
| `DpMasters.DpMaster.ReceiveReply` | src/dp/master.rs:360-388 | the reply goes to the current peripheral and to no other, its turn ends, and its event is reported |
| `MasterDecisions.AskedExactly` | src/dp/master.rs:248-296 | nothing in Stop; otherwise exactly when low priority is allowed and the slaves were not told within 50 slots they are told, by a telegram to 127 from access point 62 to 58 with two zero bytes; else the peripherals get the turn |
| `MasterDecisions.VisitExactly` | src/dp/master.rs:298-357 | the first peripheral from the present slot on that has something to send is sent it and all before it keep quiet; nothing is sent only if all up to the last slot keep quiet, and then the cycle is reported as completed |
| `MasterDecisions.ToldExactly` | src/dp/master.rs:360-388 | after a reply only the peripheral in turn has changed, its event is reported with its slot and address, and the cycle is completed if and only if no later slot is occupied |
| `DpCycles.EveryCycleIsFair` | src/dp/master.rs:222-388 | over every run, between two reports of a completed cycle every peripheral's turn ends exactly once, in slot order, and an awaited reply is always one the master can take |
| `DpCycles.StepKeepsRunning` | src/dp/master.rs:241-388 | every step keeps that, and keeps the current peripheral the one whose reply is awaited |
| `DpCycles.RoomExactly` | src/dp/master.rs:329-338 | the assertion about the second event fails exactly when two peripherals with the turn in this call have exceeded the limit |
| `DpCycles.OfflineIsReported` | src/dp/master.rs:298-357 | the event of a call is that of the peripheral that went offline in it, and there is none if nobody did |
| `DpCycles.SettledRepliesLeaveRoom` | src/dp/master.rs:329-338 | as long as every reply settles its request or is absent, the assertion holds in every run |
| `DpCycles.UnsettledRepliesEndProgram` | src/dp/master.rs:329-338 | for every retry limit, a run from a new master with two peripherals that come online and then answer with the wrong kind of reply in which the assertion fails |
| `DpLives.StepIsLived` | src/dp/master.rs:241-388 | every turn, reply and user call of a run of the master goes into the life of one peripheral, which then is the one in its slot; a telegram that was sent is the latest entry of the life in turn |
| `DpLives.PeripheralsLive` | src/dp/master.rs:241-388 | in every run of a new master each peripheral has lived one of the lives of PeripheralHistory, and an awaited reply is awaited in the life of the peripheral in turn |
| `DpLives.ExchangingPeripheralIsSetUp` | src/dp/master.rs:241-388 | so in every run of the master a peripheral that exchanges data has come online, confirmed parameters and configuration and been found ready, in this order |

## Left out

* Passive connectivity and the Stop and Clear states of the DP master beyond refusing to transmit in Stop: entering
  them is not implemented in the source (src/fdl/active.rs:463-468, src/dp/master.rs:193-195).
* Device access of the PHYs (serial port, Linux, RP2040) and the simulator: only the receive buffer of
  src/phy/serial.rs is modelled; src/phy/rp2040.rs drops more than it was asked to and has no stream property.
* gsd-parser and gsdtool: text grammar and terminal user interface.
* The iterator over extended diagnosis blocks (src/dp/diagnostics.rs), the live list and the scanner: short iterators
  and a bit array with easy properties only.
* Logging and the debug measurement features.  The unwrap in a log call of `do_check_token_pass` counts as an
  assertion that can fail.
* Overflow of times: instants and durations are unbounded here.
* Changing the list of applications while online, and calls of `reset_address` or `add` while a request is
  outstanding; the source documents the first as unsupported.
* What applications compute: their answers are inputs.  The DP master is modelled on its own and is one such
  application.
* The bus is lossless, and stations are polled in time: a telegram is heard as a batch of its own, and whoever waits is
  not polled after its slot or token timeout has expired, except for the repeated offer of the token.  Collisions on
  the bus, noise, and a holder that falls silent after its predecessor has stopped checking (the token is then
  claimed anew) are not steps of these models; a single station is proved for all inputs.
- TokenBus.StableRing: requires that the holder's applications ask no member for its FDL status, that no GAP poll finds a station that wants to join (joining is the subject of Join.dfy), and that no sweep in progress is to meet a member of the ring; without the last one the ring does not stay as it is (`StableExactly`).
- Joining.SteadyRingCanBeJoined: requires that no sweep of another station than the predecessor is still to meet the newcomer, which only a sweep that has left its own GAP can do; asked by such a station the newcomer enters the ring without being adopted (`NewcomerRefusesOthers`, `RefusedHolderGoesOn`), and what follows is not a phase of this model.
- JoinProgress.ListenerJoins: says that there is a run, in which whoever has the token is polled late; how often stations are polled is up to the host.
- Scheduling.RunKeepsTurns: is stated for runs in which the station stays online; going offline starts over with the first application.
- BusDiscipline.OwnTransmissionsAreSpaced: is stated for runs in which the station stays online; going offline forgets the last activity on the bus.
- RingRotation.RotationOnBusIsBounded: takes the length of a message cycle and the latency of the polls as given bounds, because they depend on slaves and on the host; rotations count from the first pass of the run.
- DpMasters.DpMaster.TransmitTelegram: requires at least one peripheral when the call gives turns; with none the loop of the source does not end.
- DpMasters.DpMaster.ReceiveReply: requires the reply to come from the current peripheral, which every run guarantees (`EveryCycleIsFair`); the source panics otherwise.
- PeripheralHistory.ExchangeHasHistory: does not cover `reset_address`, which starts a new life.
- Peripherals.RequestOf: requires user parameters of at most 237, a configuration of at most 244 and outputs of at most 246 bytes; longer ones make the serializer panic.
