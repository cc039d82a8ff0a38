# A verified model of the gsml3parser link layer

This project models the stateful core of gsml3parser, a GSM layer-3 library, and proves what that core is for:

* **The LAPDm link entity** (GSM 04.06 sections 5.3 to 5.5). `Entity.dfy` gives every API call and every received
  frame as a pure step. `EntityClass.dfy` is the object with its mutable fields and byte queue, each method proved
  to perform exactly that step. `SingleEntity.dfy` proves what holds of one entity against an arbitrary peer, over
  every run; `Answers.dfy` and `Contention.dfy` write down, as the protocol has it, what the peer hears and what
  layer 3 is told in every state, and prove it of that step and of runs.
* **Two entities joined by lossy FIFO channels** (`Window`, `Link`, `Establishment`, `Delivery`, `Guards`,
  `Progress`, `LinkControl`, `Release`, `SingleRequest`, `Wire`, `Boundary`). The main theorem, `Delivery.InOrderDelivery`, says that over every interleaving of
  calls, deliveries, losses and timer ticks, from before the establishment handshake on, each side delivers whole
  messages in order, exactly once and unaltered. `Wire` carries it over to channels of octets. `Progress` is the
  other half: whatever a run has lost, in either direction or both, once T200 expires on each side that still has a
  segment unacknowledged, plain delivery brings every accepted message across. `LinkControl` says the same of
  establishment and release. `Boundary` gives concrete runs that
  show where the guarantees end.
* **The frame codec**, the octets drawn bit by bit as its reference, and the independent builders of the Go binding
  (`Codec`, `Layout`, `GoBuilders`).
* **The bit reader and bit writer**, whose load and store strategies are all proved to read and write one plain
  string of bits (`Bits`, `BitReader`, `BitWriter`, `BitRoundTrip`).
* **The arena allocator, shared-handler ownership and TDMA frame numbers** (`Arena`, `FlatHandler`, `FrameNumber`).

`dafny verify dfyconfig.toml` checks everything.

The unbounded counters behind the modulo-8 ones are the lengths of the history kept in `EntityInvariants.History`:
messages accepted, segments sent for the first time, segments accepted, messages delivered, all since the last
establishment. `Establishment.Permitted` fixes the setting of the two-entity theorems: one initiator, one link. The
initiator may call for the link as often as it likes and repeat its request at will; no request reaches a responder
that has already had a link and released it. `Boundary.LateRequestAfterReleaseLosesData` shows that this last
condition cannot be dropped.

## Where the code and its documentation disagree

The model follows the code.

* src/lapdm_frame.cpp:82 speaks of the length as bits 5:2; the code uses six bits, 7:2.
* bindings/go/lapdmmini.go:39 gives the M bit the value 1; the code at lines 125-128 sets 0x02.
* include/gsml3parser/gsm_common.h:38 calls the hyperframe 2^21 frames; the constant is 2048 * 26 * 51.
* include/gsml3parser/lapdm_entity.h:222-226 says the establishment flag is cleared on any release. A UA or DM that
  answers our DISC, and `open()`, leave it set: `SingleEntity.ReleaseClearsFlag` has the exact condition and
  `SingleEntity.StaleFlagIsReachable` a run.
* include/gsml3parser/bitreader.h:128-130 says a short peek is right-aligned; the code shifts it left by the
  shortfall (`BitReading.BitReader.PeekField`).
* include/gsml3parser/bitwriter.h:36-37 says the top bits of the value are written; the code writes the low ones.
* include/gsml3parser/gsm_common.h:71 promises +1 for v1 > v2 and -1 for v1 < v2. The code compares on the circle:
  `FrameNumber.CompareIsPlainOrder` shows that it gives the plain order exactly when the numbers are at most half a
  hyperframe apart. Nor is the result an order: `FrameNumber.CompareIsNotTransitive` has three numbers in a circle,
  `FrameNumber.LaterChains` the exact condition for two forward steps to be one.
* The arena promises the requested alignment; its fast path aligns the offset and not the address.
  `ArenaModel.AlignedExactly` has the exact condition and `ArenaModel.OveralignedRequest` an input that fails.

Release agreement (a confirmed release means that the peer is down) is false in general: the UA answering a repeated
SABME can outlive the handshake and later confirm a release the peer never heard of. `Release.ReleaseAgreement`
proves it to hold if and only if no final UA, final DM or DISC is in flight at the start, and
`Boundary.RepeatedRequestBreaksAgreement` reaches a failing state by an ordinary handshake without loss. For a
condition that the initiator can see, `SingleRequest.SingleRequestAgrees` proves agreement on every link that came up
with a single SABME on the wire.

## Model

| member | source | states |
|---|---|---|
| `Delivery.InOrderDelivery` | src/lapdm_entity.cpp:110-212 | main theorem: over every permitted run from two released or two freshly established entities, what each side delivers is a prefix of what the other accepted, and all of it once the sender is idle; an unacknowledged segment always has T200 armed with that I-frame pending |
| `Delivery.ExactSequenceNumbers` | src/lapdm_entity.cpp:319-370 | over every permitted run the modulo-8 tests are exact on an established side: acknowledged <= accepted <= sent <= acknowledged + 1, V(A) and V(S) are those counts mod 8, N(S) in flight is the accepted count or one less, N(R) in flight is nondecreasing between acknowledged and accepted |
| `Delivery.LateRequestIsHarmless` | src/lapdm_entity.cpp:492-522 | over every permitted run a SABME reaching an established responder, however late or repeated, resets no counter, drops no data and reports nothing |
| `Delivery.NextInv` | src/lapdm_entity.cpp:447-747 | every permitted event keeps both histories, the window and the handshake in step |
| `Delivery.NextGuarded` | src/lapdm_entity.cpp:254-330 | every permitted event keeps "unacknowledged segment implies T200 armed and I-frame pending" on both sides |
| `Progress.RecoversFromLoss` | src/lapdm_entity.cpp:181-286 | after any permitted run, whatever it lost in either direction, that leaves both sides established with no DISC in flight: T200 runs on each side with a segment unacknowledged, and once it expires there, within N200, enough rounds of plain delivery leave the channels empty, everything acknowledged and every message accepted on either side delivered at the other; messages respect the reassembly limit and N201 suits the receiver |
| `Progress.TransferWithoutLoss` | src/lapdm_entity.cpp:110-135 | from two freshly established sides, under any interleaving of messages and UI frames sent by both, deliveries and ticks within the budget, enough rounds of plain delivery bring every message accepted on either side across |
| `Progress.Drains` | src/lapdm_entity.cpp:649-718 | on a flowing link enough rounds of delivery, bounded by the work left, empty both channels and deliver everything both ways |
| `Progress.QuietMeansDelivered` | src/lapdm_entity.cpp:319-330 | on a flowing link, whatever the schedule was, empty channels mean that everything accepted on either side has been delivered and acknowledged |
| `Progress.NextFlows` | src/lapdm_entity.cpp:649-747 | every delivery and every ordinary call, on either side, keeps something in flight for each unacknowledged segment that will move it on |
| `Progress.Heads` | src/lapdm_entity.cpp:649-747 | hearing one frame keeps both directions moving and strictly shrinks a bound on the deliveries to come, REJ, polls and new segments included |
| `Progress.ExpiryMoves` | src/lapdm_entity.cpp:262-272 | the repetition sent on an expiry sets a stalled direction moving, whether the segment or its acknowledgement was lost |
| `LinkControl.EstablishmentRecovers` | src/lapdm_entity.cpp:137-159 | after a call for a link between two released sides and any deliveries, losses and ticks within the budget: each layer 3 has been told of the link exactly once its side came up, the peer with the caller's information; one more expiry at a waiting caller and plain delivery bring both sides up |
| `LinkControl.RunAsking` | src/lapdm_entity.cpp:447-541 | over every such run only repetitions of the request and their answers are in flight, and nothing else is reported |
| `LinkControl.ReleaseCompletes` | src/lapdm_entity.cpp:161-173 | a release asked for on an established link, whatever data traffic is in flight, takes both sides down under plain delivery and is confirmed to the caller exactly once |
| `LinkControl.ReleaseRecovers` | src/lapdm_entity.cpp:592-640 | after any permitted run that leaves the initiator waiting for its release, whatever was lost, one expiry within the budget and plain delivery take both sides down, a peer already down included |
| `LinkControl.ReleaseByResponder` | src/lapdm_entity.cpp:161-173 | the same when the responder asks |
| `LinkControl.PlainRelease` | src/lapdm_entity.cpp:543-640 | with nothing else in flight: DISC, UA, RELEASE_INDICATION at the peer, RELEASE_CONFIRM at the caller, both sides cleared |
| `LinkControl.AnyShrinks` | src/lapdm_entity.cpp:427-747 | in any state, hearing a frame other than SABME strictly shrinks the bound on what is left to deliver |
| `Guards.NoSpuriousRelease` | src/lapdm_entity.cpp:673-681 | in either direction of every permitted run, an in-sequence I-frame never trips the N201 or reassembly guard when messages respect the limit and the receiver's N201 is not the smaller one |
| `Establishment.InitiatorKeeps` | src/lapdm_entity.cpp:137-159 | no action of the initiator puts a SABME behind a frame of an established link, and it starts its own link at most once |
| `Establishment.ResponderKeeps` | src/lapdm_entity.cpp:447-527 | while a SABME may still arrive, an established responder keeps its establishment window open |
| `LinkSystem.ReceiveSynced` | src/lapdm_entity.cpp:649-747 | delivering the oldest frame to an entity keeps both directions of the window exact, whatever the frame |
| `LinkSystem.CallSynced` | src/lapdm_entity.cpp:69-212 | every API call keeps both directions of the window exact |
| `Window.CountersExact` | src/lapdm_entity.cpp:319-330 | the window invariant gives the ordered unbounded counters behind V(A), V(R) and V(S) |
| `Window.SendNew` | src/lapdm_entity.cpp:407-423 | a first transmission with nothing outstanding keeps the window invariant |
| `Window.SendAgain` | src/lapdm_entity.cpp:262-272 | repeating the latest segment keeps the window invariant |
| `Window.TakeAck` | src/lapdm_entity.cpp:319-330 | taking the oldest N(R) keeps the window invariant, whether or not it acknowledges |
| `Window.Accept` | src/lapdm_entity.cpp:664-671 | accepting the awaited segment keeps the window invariant |
| `Window.Drop` | src/lapdm_entity.cpp:76-79 | losing any frame keeps the window invariant |
| `Release.ReleaseAgreement` | src/lapdm_entity.cpp:529-640 | between two established sides with no SABME in flight, every run in which neither side starts a new link, open() and local releases included, agrees on the release if and only if no final UA, final DM or DISC is already in flight |
| `SingleRequest.SingleRequestAgrees` | src/lapdm_entity.cpp:137-173 | over every permitted run from two released sides with a single SABME on the wire, whenever both sides are established, every release confirmed from then on finds the peer down |
| `SingleRequest.NextOnce` | src/lapdm_entity.cpp:447-640 | with a single SABME, every permitted event keeps: at most one final frame answers the handshake, only before the initiator's link, and a final frame from the initiator means that it is down for good |
| `Release.StrayToA` | src/lapdm_entity.cpp:543-548 | for any state with a stray confirming frame, the run in which it falsely confirms a release |
| `Boundary.RepeatedRequestBreaksAgreement` | src/lapdm_entity.cpp:262-286 | a SABME repeated by T200 leads, without any loss, to a link on which release agreement fails |
| `Boundary.LateRequestAfterReleaseLosesData` | src/lapdm_entity.cpp:455-480 | a late SABME reaching a responder after its release opens a one-sided link on which a message is acknowledged but never delivered |
| `Wire.PerformFits` | src/lapdm_entity.cpp:238-245 | with N201 <= 63 an entity only ever sends frames that the octets can carry |
| `Wire.RunRefines` | src/lapdm_entity.cpp:76-101 | channels of octets, encoded on sending and decoded on receipt, run in lockstep with channels of frames |
| `Wire.InOrderDeliveryOnOctets` | src/lapdm_entity.cpp:76-135 | the delivery theorem on octet channels |
| `Wire.InOrderOnEveryChannel` | src/lapdm_entity.cpp:31-45 | every pair of the library's channel profiles meets the hypotheses of that theorem |
| `SingleEntity.ReachableStates` | src/lapdm_entity.cpp:137-317 | over every run against any peer: released states are fully cleared, AwaitingEstablish exactly when a SABME is pending, AwaitingRelease exactly when a DISC is pending, both with T200 armed within its period, RC <= N200 + 1, reassembly within its limit |
| `SingleEntity.ReachableConsistent` | src/lapdm_entity.cpp:69-212 | the same invariant is kept from any consistent state by any sequence of actions |
| `EntityInvariants.PerformConsistent` | src/lapdm_entity.cpp:427-747 | each single call or received frame keeps the state invariant |
| `EntityInvariants.TrackInv` | src/lapdm_entity.cpp:346-423 | each action keeps V(S), V(R), the queue, the reassembly buffer and the pending I-frame equal to what the link's history determines |
| `SingleEntity.StopAndWaitOverRuns` | src/lapdm_entity.cpp:346-370 | over every run against any peer: an action emits at most one I-frame; outside a tick it is the next segment of the accepted messages with N(S) its index mod 8, emitted with V(S) = V(A); on a tick it repeats the latest segment with P = 1 and the current V(R) |
| `SingleEntity.StopAndWait` | src/lapdm_entity.cpp:262-272 | the same for one action from any state that satisfies the invariant |
| `SingleEntity.Conservation` | src/lapdm_entity.cpp:123-135 | over every run: octets sent first plus octets still queued are the accepted messages; octets accepted are the delivered messages plus the partial one |
| `SingleEntity.RetransmissionBudget` | src/lapdm_entity.cpp:181-212 | for any tick sizes, each of the first N200 + 1 - RC expiries repeats the pending frame once and changes only RC and the timer; the next releases the link with one error indication |
| `SingleEntity.SilentPeerReleases` | src/lapdm_entity.cpp:208-211 | an armed entity that hears nothing ends in LinkReleased after exactly N200 + 1 - RC retransmissions |
| `SingleEntity.EveryTickExpires` | src/lapdm_entity.cpp:182-189 | ticks of at least a full period expire one after the other until the budget is spent |
| `SingleEntity.TicksAddUp` | src/lapdm_entity.cpp:184-189 | ticks whose sum is short of what T200 has left do nothing but take that sum off it |
| `SingleEntity.ExpiresWhenDue` | src/lapdm_entity.cpp:184-189 | the tick with which the sum reaches it, and no earlier one, is the expiry |
| `SingleEntity.GivenUpInTime` | src/lapdm_entity.cpp:31-45 | an unanswered command is given up exactly N200 + 2 periods after the call: 22.5 s, 25.2 s, 32.4 s and 27.9 s on the four channel profiles |
| `SingleEntity.CommandRepeatedVerbatim` | src/lapdm_entity.cpp:151-158 | a SABME or DISC call puts one command on the line, spelled out; over every run in which the entity keeps waiting, whatever it hears and is asked, every command it sends is that very frame, information included |
| `SingleEntity.CommandRepeatedOnExpiry` | src/lapdm_entity.cpp:262-286 | with no input, each expiry within the budget sends exactly the frame of the call again |
| `SingleEntity.ReleaseClearsFlag` | include/gsml3parser/lapdm_entity.h:222-227 | a release leaves the establishment flag set exactly when it was set and the release came by open() or by UA/DM answering our DISC |
| `SingleEntity.StaleFlagIsReachable` | src/lapdm_entity.cpp:543-548 | a run from the constructor that reaches LinkReleased with the flag set |
| `Answers.AnswerToI` | src/lapdm_entity.cpp:649-698 | every I-frame on a link is answered, F mirroring P: RR with the new V(R) when awaited, REJ when not; the last segment hands the whole message up; only an awaited frame over N201 or 4096 octets ends the link, unanswered, with an error report |
| `Answers.FinalsMatchPolls` | src/lapdm_entity.cpp:649-747 | over every run against any peer, as many final supervisory frames are sent as polls are heard |
| `Answers.OneFinalPerPoll` | src/lapdm_entity.cpp:649-747 | the same for one action: one final frame or none |
| `Answers.AnswerToReady` | src/lapdm_entity.cpp:708-745 | RR and REJ on a link: N(R) is processed, then RR with F = 1 answers a polled RR command or REJ response and nothing else |
| `Answers.UnexpectedS` | src/lapdm_entity.cpp:720-740 | RNR in any state and a polled REJ command end in Unused, cleared, with DM F = 1 and an error report |
| `Answers.IdleS` | src/lapdm_entity.cpp:702-712 | off the link an RR or REJ only closes the establishment window |
| `Answers.AckStopsTimer` | src/lapdm_entity.cpp:319-330 | an acknowledgement of everything stops T200 and clears RC, or starts both afresh for the next segment; any other touches neither |
| `Answers.AnswerToDISC` | src/lapdm_entity.cpp:592-640 | the reply, F mirroring P, the report and the next state for DISC in all six states |
| `Answers.AnswerToUA` | src/lapdm_entity.cpp:529-553 | a final UA confirms establishment or release to a side that waits for it and is ignored elsewhere |
| `Answers.AnswerToDM` | src/lapdm_entity.cpp:555-590 | a final DM confirms a release; on a link or during establishment it restarts T200 and is reported |
| `Answers.AnswerToSABME` | src/lapdm_entity.cpp:447-514 | the reply and its echo, the report, the clearing and the next state for SABME in all states but contention resolution |
| `Answers.Ignored` | src/lapdm_entity.cpp:84-87 | a frame for another SAPI, and SABME, UA or DM with P/F = 0, change nothing and are not answered |
| `Answers.UnitDataCrosses` | src/lapdm_entity.cpp:642-645 | the octets of a UI frame reach layer 3 of a peer on that SAPI, in any state, and no other; up to 63 of them survive the octets |
| `Answers.AddressedOverRuns` | src/lapdm_entity.cpp:69-74 | from one open() to the next, every frame of every run carries its SAPI, its C/R bit on commands and 0 on responses, and EA |
| `Answers.Calls` | src/lapdm_entity.cpp:110-179 | which calls are accepted, which error the others get, and that a refused call does nothing |
| `Answers.FreshBudget` | src/lapdm_entity.cpp:254-260 | whatever a call sends for the first time starts with RC = 0 and a whole T200 period |
| `Contention.ContentionDecides` | src/lapdm_entity.cpp:515-522 | over every run that stays in contention resolution, another SABME settles it if and only if it carries information with the same octet sum modulo 2^32 as the one that opened it; that one is echoed, any other changes nothing and is not answered |
| `Contention.RequestOpens` | src/lapdm_entity.cpp:455-474 | a SABME with information on a released SAPI 0 opens a contention, is echoed and reported |
| `Contention.SecondRequest` | src/lapdm_entity.cpp:515-522 | the whole outcome of a further SABME |
| `Contention.SameRequestSettles` | src/lapdm_entity.cpp:515-522 | the request that opened a contention settles it when it is repeated |
| `Contention.ChecksumIsSum` | src/lapdm_entity.cpp:338-344 | the checksum is the octet sum modulo 2^32 |
| `Segmentation.SegmentsShape` | src/lapdm_entity.cpp:351-356 | ceil(len / N201) segments, all but the last full with M = 1, the last non-empty with M = 0 |
| `Segmentation.SegmentsPayload` | src/lapdm_entity.cpp:356-370 | segmentation drops, repeats and reorders no octet |
| `Segmentation.CutTakesFirst` | src/lapdm_entity.cpp:346-370 | cutting lazily from the queue yields the segments of all queued messages in order |
| `Segmentation.FeedSegments` | src/lapdm_entity.cpp:683-694 | feeding the segments of a message to the receiver completes exactly that message |
| `Segmentation.AssembleInvertsSegmentation` | src/lapdm_entity.cpp:673-694 | reassembly inverts segmentation for every list of messages and every N201 >= 1 |
| `Segmentation.AssemblePrefix` | src/lapdm_entity.cpp:683-694 | any prefix of the segments reassembles to a prefix of the messages |
| `TxQueue.UnsentPush` | src/lapdm_entity.cpp:128-131 | appending to the byte queue and its end offsets appends one message to what is unsent and keeps the ends strictly increasing |
| `TxQueue.UnsentCut` | src/lapdm_entity.cpp:351-369 | advancing the read position takes exactly one segment off the unsent messages |
| `TxQueue.UnsentBytes` | include/gsml3parser/lapdm_entity.h:268-281 | the unsent messages are exactly the buffer from the read position on |
| `EntityClass.LAPDmEntity.constructor` | src/lapdm_entity.cpp:63-65 | a new entity is Unused with everything cleared |
| `EntityClass.LAPDmEntity.Open` | src/lapdm_entity.cpp:69-74 | refines the open step; nothing is sent or reported |
| `EntityClass.LAPDmEntity.ReceiveFrame` | src/lapdm_entity.cpp:76-101 | octets that do not decode change nothing; a decoded frame is counted and performs the receive step |
| `EntityClass.LAPDmEntity.SendUI` | src/lapdm_entity.cpp:103-108 | one UI frame on the requested SAPI, no state change |
| `EntityClass.LAPDmEntity.SendData` | src/lapdm_entity.cpp:110-135 | refines the send step on the byte queue, with the right error for a link that is down or empty data |
| `EntityClass.LAPDmEntity.SendSABME` | src/lapdm_entity.cpp:137-159 | refines the establish step in every state |
| `EntityClass.LAPDmEntity.SendDISC` | src/lapdm_entity.cpp:161-173 | refines the release step in every state |
| `EntityClass.LAPDmEntity.HardRelease` | src/lapdm_entity.cpp:175-179 | refines the local release step |
| `EntityClass.LAPDmEntity.TickT200` | src/lapdm_entity.cpp:181-212 | refines the timer step; the result says whether T200 expired, and the statistics count the retransmission |
| `EntityClass.LAPDmEntity.HasOutstandingFrame` | src/lapdm_entity.cpp:226-228 | true exactly while the next accepted message would wait instead of going out at once |
| `EntityClass.LAPDmEntity.ResetStats` | src/lapdm_entity.cpp:230-234 | clears the three statistics and nothing else |
| `EntityClass.LAPDmEntity.SendFrame` | src/lapdm_entity.cpp:238-252 | hands the encoding of the frame to layer 1 and counts it |
| `EntityClass.EveryFrameCounted` | src/lapdm_entity.cpp:247-252 | the count of frames sent and the octet strings handed to layer 1 never drift apart, and those are the encodings, in order |
| `EntityClass.LAPDmEntity.DeliverL3` | src/lapdm_entity.cpp:332-336 | hands one primitive to layer 3 |
| `EntityClass.LAPDmEntity.SaveForRetransmission` | src/lapdm_entity.cpp:254-260 | sends, marks the frame pending, clears RC and arms T200 |
| `EntityClass.LAPDmEntity.RetransmitPending` | src/lapdm_entity.cpp:262-286 | sends again the frame that the abstract pending value describes, which `SingleEntity.CommandRepeatedVerbatim` and `SingleEntity.StopAndWaitOverRuns` show to be the one first sent |
| `EntityClass.LAPDmEntity.ClearCounters` | src/lapdm_entity.cpp:288-300 | refines the clearing of counters, timer, buffers and pending frame |
| `EntityClass.LAPDmEntity.ReleaseAbnormally` | src/lapdm_entity.cpp:306-317 | refines the abnormal release, with or without DM |
| `EntityClass.LAPDmEntity.Acknowledge` | src/lapdm_entity.cpp:319-330 | refines the processing of N(R) |
| `EntityClass.LAPDmEntity.ComputeChecksum` | src/lapdm_entity.cpp:338-344 | the loop computes the octet sum modulo 2^32 |
| `EntityClass.LAPDmEntity.TrySendNextSegment` | src/lapdm_entity.cpp:346-370 | on the byte queue, refines the cutting and sending of the next segment |
| `EntityClass.LAPDmEntity.Advance` | src/lapdm_entity.cpp:357-369 | moves the read position past one segment; the unsent messages lose exactly that segment, and a drained buffer is emptied |
| `EntityClass.LAPDmEntity.BuildIFrame` | src/lapdm_entity.cpp:407-423 | sends the segment with N(S) = V(S) and P = 0, advances V(S) and remembers the segment |
| `EntityClass.LAPDmEntity.HandleU` | src/lapdm_entity.cpp:427-445 | refines the dispatch of unnumbered frames |
| `EntityClass.LAPDmEntity.HandleSABME` | src/lapdm_entity.cpp:447-527 | refines the SABME step in all six states, pinned by `Answers.AnswerToSABME` and `Contention.ContentionDecides` |
| `EntityClass.LAPDmEntity.StartLink` | src/lapdm_entity.cpp:455-480 | refines the SABME step in LinkReleased |
| `EntityClass.LAPDmEntity.HandleUA` | src/lapdm_entity.cpp:529-553 | refines the UA step |
| `EntityClass.LAPDmEntity.HandleDM` | src/lapdm_entity.cpp:555-590 | refines the DM step |
| `EntityClass.LAPDmEntity.HandleDISC` | src/lapdm_entity.cpp:592-640 | refines the DISC step in all six states, pinned by `Answers.AnswerToDISC` |
| `EntityClass.LAPDmEntity.EndLink` | src/lapdm_entity.cpp:609-633 | clears the link, enters LinkReleased and reports the given primitive |
| `EntityClass.LAPDmEntity.HandleI` | src/lapdm_entity.cpp:649-698 | refines the I-frame step: acknowledgement, sequence check, guards, reassembly, answer |
| `EntityClass.LAPDmEntity.HandleS` | src/lapdm_entity.cpp:702-747 | refines the S-frame step for all four function codes |
| `EntityClass.LAPDmEntity.HandleReady` | src/lapdm_entity.cpp:708-745 | refines the S-frame step for RR and REJ |
| `EntityClass.LAPDmEntity.Answer` | src/lapdm_entity.cpp:714-743 | refines the answer to a polled RR or REJ, command and response |
| `EntityClass.LAPDmEntity.Sequence` | src/lapdm_entity.cpp:664-668 | refines the N(S) check, REJ on a mismatch |
| `EntityClass.LAPDmEntity.Accept` | src/lapdm_entity.cpp:670-698 | refines the acceptance of an in-sequence segment, guards included, pinned by `Answers.AnswerToI` |
| `EntityClass.LAPDmEntity.CloseWindow` | src/lapdm_entity.cpp:652-657 | ends the establishment window and contention resolution |
| `Codec.MatchUControl` | src/lapdm_frame.cpp:40-47 | the table scan finds the row and column of the octet, or -1 when it is in no cell |
| `Codec.FindU` | src/lapdm_frame.cpp:30-36 | the position found holds the octet; -1 means the table does not hold it |
| `Codec.ControlRoundTrip` | include/gsml3parser/lapdm_frame.h:99-146 | decoding an encoded control field gives the field back, in all three formats; `Layout.ControlLayout` fixes the bits |
| `Codec.ControlOctetRoundTrip` | src/lapdm_frame.cpp:103-146 | encoding a decoded control octet gives the octet back |
| `Codec.DecodeEncode` | src/lapdm_frame.cpp:55-200 | decode(encode(f)) = f if and only if f is well formed |
| `Codec.EncodeDecode` | src/lapdm_frame.cpp:55-149 | encode(decode(b)) = b for an accepted string if and only if its SAPI bits are 0 or 3 |
| `Codec.EncodeInjective` | src/lapdm_frame.cpp:165-200 | different well-formed frames never share octets |
| `Layout.FrameLayout` | include/gsml3parser/lapdm_frame.h:73-165 | the encoder puts out exactly the octets drawn bit by bit: SAPI, C/R, EA; N(R), P/F and N(S), the S code or the U modifier; six length bits, M, 1 |
| `Layout.ControlLayout` | src/lapdm_frame.cpp:30-53 | the control octet of every I, S and U frame type with either P/F value |
| `Layout.LayoutDecodes` | src/lapdm_frame.cpp:55-149 | the drawn octets of every well-formed frame decode to that frame |
| `Layout.RefusedOctets` | src/lapdm_frame.cpp:55-97 | octets are reported truncated exactly when they are too short for a header or for the length they announce |
| `Codec.EncodeToBuffer` | src/lapdm_frame.cpp:165-200 | writes exactly the encoding at the front of the buffer and nothing behind it; a short buffer is left untouched |
| `Codec.EncodeFrame` | src/lapdm_frame.cpp:158-163 | the allocating variant returns the same octets |
| `GoBuilders.NumberedBuildersDecode` | bindings/go/lapdmmini.go:107-131 | the octets of IFrame and RRFrame decode to the fields they were given, on every SAPI |
| `GoBuilders.UnnumberedBuildersDecode` | bindings/go/lapdmmini.go:52-105 | the octets of UIFrame, UAFrame, SABMEFrame, DMFrame and DISCFrame decode to the fields they were given |
| `GoBuilders.BuildersAgreeWithEncoder` | bindings/go/lapdmmini.go:52-131 | on SAPI 0 and 3 all seven builders produce the very octets of the library's encoder |
| `Bits.NumberConcat` | include/gsml3parser/bitreader.h:48-51 | the value of two adjacent bit strings is the first shifted by the length of the second, plus the second |
| `Bits.ExtractMiddle` | include/gsml3parser/bitreader.h:75-84 | shifting right and masking yields exactly the bits in the middle |
| `BitReading.LoadN` | include/gsml3parser/bitreader.h:39-53 | loads the octets that exist, capped by the total, as one big-endian number without wrap-around |
| `BitReading.FieldInOctets` | include/gsml3parser/bitreader.h:91-106 | a field inside loaded octets is found by one shift and one mask |
| `BitReading.BitReader.Window` | include/gsml3parser/bitreader.h:73-120 | all four load strategies give the MSB-first value of the same bits |
| `BitReading.BitReader.Wide` | include/gsml3parser/bitreader.h:107-119 | the 40-bit window of two loads gives that value too |
| `BitReading.BitReader.Shifted` | include/gsml3parser/bitreader.h:77-106 | the three short strategies, aligned, near and at the tail, give that value from at most four octets |
| `BitReading.BitReader.RemainingBytes` | include/gsml3parser/bitreader.h:259-261 | the least number of octets that hold what remains |
| `BitReading.BitReader.ReadField` | include/gsml3parser/bitreader.h:63-126 | succeeds exactly when the width fits a word and the bits remain, returns their value and moves past them; a failure moves nothing and names the right error |
| `BitReading.BitReader.PeekField` | include/gsml3parser/bitreader.h:133-186 | the same value without moving; past the end, the remaining bits shifted left by the shortfall |
| `BitReading.BitReader.AlignToOctet` | include/gsml3parser/bitreader.h:200-207 | moves to the next octet boundary, capped by the total |
| `BitReading.BitReader.ReadBytes` | include/gsml3parser/bitreader.h:209-256 | on success the octets are those of successive 8-bit fields from any bit offset; on whole-octet readers it succeeds exactly when the bits remain |
| `BitReading.BitReader.ReadMisaligned` | include/gsml3parser/bitreader.h:224-252 | the misaligned loop, fast path and single fields mixed, terminates with the same octets or fails exactly when bits are missing |
| `BitReading.TakeLoaded` | include/gsml3parser/bitreader.h:235-244 | one load yields up to three misaligned octets |
| `BitReading.BitReader.TakeSome` | include/gsml3parser/bitreader.h:227-250 | one round takes at least one octet unless fewer than eight bits remain, and touches nothing else |
| `BitReading.BitReader.TakeOne` | include/gsml3parser/bitreader.h:245-249 | the single-field path takes the same octet |
| `BitReading.CopyAligned` | include/gsml3parser/bitreader.h:218-222 | the aligned copy gives the octets of successive 8-bit fields |
| `BitWriting.PutBits` | include/gsml3parser/bitwriter.h:47-50 | setting or clearing one bit changes that bit and no other |
| `BitWriting.BitWriter.PutBit` | include/gsml3parser/bitwriter.h:44-51 | one bit of the string is overwritten and the position advances by one |
| `BitWriting.BitWriter.WriteField` | include/gsml3parser/bitwriter.h:40-53 | overwrites exactly the next bits with the low bits of the value, MSB first, as far as the buffer reaches |
| `BitWriting.BitWriter.WriteBytes` | include/gsml3parser/bitwriter.h:65-76 | bulk copy and per-octet path have the same effect on the bit string |
| `BitWriting.BitWriter.CopyIn` | include/gsml3parser/bitwriter.h:68-72 | the bulk copy overwrites exactly the bits of the octets copied |
| `BitWriting.BitWriter.AlignToOctet` | include/gsml3parser/bitwriter.h:79-85 | writes zeros up to the octet boundary |
| `BitRoundTrip.WriteAll` | include/gsml3parser/bitwriter.h:40-85 | a list of fields, octet runs and alignments overwrites exactly its own bits |
| `BitRoundTrip.ReadAll` | include/gsml3parser/bitreader.h:63-256 | reading with the same widths where those bits stand returns each value modulo 2^width and each run unchanged |
| `BitRoundTrip.RoundTrip` | include/gsml3parser/bitwriter.h:40-85 | write then read returns every item, for every list that fits the buffer |
| `ArenaModel.PowerOfTwoTest` | src/arena.cpp:32-34 | the bit test accepts exactly the powers of two |
| `ArenaModel.MaskTrickRoundsUp` | src/arena.cpp:54-54 | for every power of two the mask trick gives the least multiple that is not smaller |
| `ArenaModel.AllocateSound` | src/arena.cpp:47-86 | an allocation keeps regions and blocks apart, regions inside blocks and the used count exact |
| `ArenaModel.ArenaRun` | src/arena.cpp:47-105 | over every run since construction or reset: regions pairwise disjoint, each inside a live block, used is their total and at most the capacity |
| `ArenaModel.RunSound` | src/arena.cpp:63-67 | over every run earlier regions stay handed out and no block moves or changes size |
| `ArenaModel.AlignedExactly` | src/arena.cpp:52-84 | the address is aligned if and only if a new block was opened or the current block's base is aligned |
| `ArenaModel.AlignedOverRuns` | src/arena.cpp:52-84 | when every block starts at a multiple of a, every request of every run whose alignment divides a is aligned |
| `ArenaModel.ServeCosts` | src/arena.cpp:52-60 | a request served from the current block takes off what is left exactly its bytes and less than one alignment of padding |
| `ArenaModel.NewBlockHasHeadroom` | src/arena.cpp:63-85 | a new block has its documented size and room for the same request again |
| `ArenaModel.RefusedExactly` | src/arena.cpp:48-49 | null is returned exactly for no bytes or an alignment that is no power of two, and then nothing changes |
| `ArenaModel.OveralignedRequest` | src/arena.cpp:54-59 | a request whose answer is not aligned |
| `ArenaModel.Arena.AllocateBytes` | src/arena.cpp:47-86 | refines the allocation step, null results included |
| `ArenaModel.Arena.Reset` | src/arena.cpp:88-91 | drops every block and clears the used count |
| `ArenaModel.Arena.constructor` | src/arena.cpp:38-45 | one empty block of the requested capacity |
| `ArenaModel.Arena.Remaining` | src/arena.cpp:93-97 | a request of alignment 1 is served from the current block if and only if its size is at most the result |
| `ArenaModel.Arena.Capacity` | src/arena.cpp:99-105 | the loop sums the sizes of all blocks |
| `FlatHandlers.StepOwned` | include/gsml3parser/flat_handler.h:149-223 | every operation keeps ownership exact: one holder per shared handler, one handler per holder, counts equal to holders, nothing freed twice |
| `FlatHandlers.OwnershipOverRuns` | include/gsml3parser/flat_handler.h:149-223 | the same over every run, and what is freed stays freed |
| `FlatHandlers.FreedAtZero` | include/gsml3parser/flat_handler.h:107-110 | a step frees a callable exactly when it leaves it without a holder |
| `FlatHandlers.NothingLeaks` | include/gsml3parser/flat_handler.h:186-199 | when no handler is left, no holder and no callable is, and every callable ever made was freed exactly once |
| `FlatHandlers.TargetsFollow` | include/gsml3parser/flat_handler.h:121-125 | a copy and a move refer to what their source referred to, a moved-from and a released handler to nothing, and no other handler is affected |
| `FlatHandlers.Handlers.Make` | include/gsml3parser/flat_handler.h:268-275 | refines the making of a shared handler, and ownership stays exact |
| `FlatHandlers.Handlers.CopyConstruct` | include/gsml3parser/flat_handler.h:149-152 | refines the copy constructor, and ownership stays exact |
| `FlatHandlers.Handlers.MoveConstruct` | include/gsml3parser/flat_handler.h:154-158 | refines the move constructor, and ownership stays exact |
| `FlatHandlers.Handlers.AssignCopy` | include/gsml3parser/flat_handler.h:160-173 | refines copy assignment, self-assignment included, and ownership stays exact |
| `FlatHandlers.Handlers.AssignMove` | include/gsml3parser/flat_handler.h:175-184 | refines move assignment, self-assignment included, and ownership stays exact |
| `FlatHandlers.Handlers.ReleaseHandler` | include/gsml3parser/flat_handler.h:195-199 | refines the explicit release, which leaves an empty handler, and ownership stays exact |
| `FlatHandlers.Handlers.DestroyHandler` | include/gsml3parser/flat_handler.h:186-188 | refines the destructor, and ownership stays exact |
| `FlatHandlers.Handlers.AcquireShared` | include/gsml3parser/flat_handler.h:99-102 | a fresh holder joins the holders of the same callable, with one more reference |
| `FlatHandlers.Handlers.ReleaseHeld` | include/gsml3parser/flat_handler.h:220-222 | deletes the holder of a shared handler and drops its reference, freeing the callable at zero |
| `FrameNumber.MultiframesDetermine` | include/gsml3parser/gsm_common.h:58-60 | T2 and T3 agree exactly when the frame numbers are congruent modulo 26 * 51 |
| `FrameNumber.ReducedTriple` | include/gsml3parser/gsm_common.h:57-61 | (T1', T2, T3) agree exactly when the frame numbers are congruent modulo 32 * 26 * 51 |
| `FrameNumber.FullTriple` | include/gsml3parser/gsm_common.h:39-61 | (T1, T2, T3) agree exactly when the frame numbers are congruent modulo the hyperframe |
| `FrameNumber.CountersRecover` | include/gsml3parser/gsm_common.h:57-60 | fn mod hyperframe = 1326 T1 + 51 ((T3 - T2) mod 26) + T3 |
| `FrameNumber.DeltaOnCircle` | src/gsm_common.cpp:104-117 | on frame numbers in range, FNDelta is congruent to the difference, within half a hyperframe, zero only for equal numbers and antisymmetric, and so is FNCompare |
| `FrameNumber.DeltaOfStep` | src/gsm_common.cpp:104-117 | a step of less than half a hyperframe, across the wrap or not, is recovered as that step |
| `FrameNumber.CompareIsPlainOrder` | include/gsml3parser/gsm_common.h:71-72 | FNCompare is the plain order of two frame numbers in range if and only if they are at most half a hyperframe apart; beyond that it is the reverse |
| `FrameNumber.LaterChains` | src/gsm_common.cpp:104-117 | two forward steps compare as one forward step if and only if together they stay below half a hyperframe, or reach exactly half of it without passing the wrap |
| `FrameNumber.CompareIsNotTransitive` | src/gsm_common.cpp:112-117 | three frame numbers that each compare later than the one before, in a circle |

## Left out

- A second establishment: the two-entity theorems cover one initiator and one link. Simultaneous SABME from both sides and re-establishment (src/lapdm_entity.cpp:507-511) are modelled as steps and covered by the single-entity theorems only.
- Data progress while a DISC is in flight or after the N200 budget is spent: the link then ends, as `LinkControl` and `SingleEntity.RetransmissionBudget` describe.
- Release towards a peer in Unused, and with a SABME still in flight: the first ignores DISC, the second may open a new link.
- The relative order of layer 1 and layer 3 callbacks within one call; callbacks that re-enter the entity; null callbacks.
- The entity's scalar fields are grouped into records (`Counters`, `Slot`, `T200`, `Buffer`, `Log`), and the reusable encode buffer is a fresh one for each frame.
- Fixed-width overflow of statistics, of RC (N200 below 2^32 - 1 is taken for granted) and of buffer sizes; negative tick lengths; heap exhaustion.
- UI and SABME payloads over 63 octets: they are encoded as the code does, with a wrapped length, and excluded only from the octet-level delivery theorem.
- Bit strings longer than 2^32 octets, where the reader's 32-bit indices would truncate; a null buffer behind a moved reader.
- Moving arena objects; the addresses of new blocks are a parameter, as is the promise that live blocks do not overlap.
- Handlers built directly from the trampoline's address, invoking a handler, and the atomicity of the reference count.
- Frame numbers below zero.
- The hex parser and printer, the message classes and parse tables, the visitor and dispatcher, character tables and stream operators: finite tables or single loops.
- The C API, the bindings other than the Go frame builders, the procedure orchestrator, timers, channel pool and framers.
