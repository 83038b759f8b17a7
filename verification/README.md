# Kaivuri: models and proofs

Dafny models of the stateful, concurrent and arithmetic parts of the Kaivuri excavator stack, with the
properties they are relied on for. Everything is proved for all inputs, all interleavings and runs of any
length; where a promise fails for some input, that input is given and the exact condition is proved.

| part | modules |
|---|---|
| Recorder: a control thread and a disk thread over one ring | `SpscRing`, `TakeRecorder`, `RecordingProtocol`, `RecordingSafety`, `RecordingPushes`, `RecordingState`, `RecordingTheorems`, `RecordingCommits`, `RecordingSessions`, `RecordingLoss`, `RawCapture`, `CaptureRuns`, `PidTelemetry`, `PidJoins`, `FrameQueue` |
| Shared-memory publication | `StreamBridge`, `StreamBridgeReads`, `StreamBridgeWrap`, `FrameStore`, `FrameReads` |
| Drive chain, from the policy's plan to the valves | `PlanSupervisor`, `PlanMargin`, `WireEncoder`, `FloatCast`, `Wire`, `Safety`, `ControlTheorems`, `ControlLoop`, `DriveChain`, `DriveRuns`, `JointGuard`, `ValvePulse`, `ValveCalls`, `PulseOutput` |
| IMU stream | `ImuScanner`, `ImuParser`, `ImuSamples`, `ImuFeed` |
| Kernels | `ResizeTaps`, `Resize`, `ResizePasses`, `Pid`, `PidObjects`, `CoverageGrid`, `Coverage`, `PolicyRuntime`, `PolicyTrace`, `PolicyPrompts`, `StatePrompt`, `FrameHistory` |
| Shared | `Arithmetic`, `Bytes` |

Conventions. Objects that the code updates in place are classes whose methods are proved equal to
specification functions on their state; results about runs are lemmas about those functions. Code shared
by two threads or processes is a machine whose actions are single loads, stores, compare-and-swaps or
word copies, and the results hold for every sequence of enabled actions. Doubles are real numbers, 4-byte
floats on a wire are bit patterns with their exact value (`Bytes.Value`), integers wrap only where the
width matters. History (every record ever queued, every frame ever published) is kept beside the state
so that results can speak of it; no modelled step reads it.

Promises that turned out to be conditional:

- A committed take can lack a push. A push made while the state is Failed is refused without being
  counted, and `rotate` never looks at the state, so a rotate called in Failed can still commit the take
  queued meanwhile (`RecordingLoss.CommittedTakeCanLackARefusedPush`). A push call in a committed take's
  interval is in the take exactly when it did not read Failed (`RecordingTheorems.CommittedTakeIsLossless`),
  and callers that do not rotate in Failed lose nothing (`RecordingTheorems.NoRotateInFailedNoLoss`).
- With exactly 2^32 publishes during one copy the Pico bridge hands out a frame that was never published
  (`StreamBridgeWrap.WrappedCopyIsTorn`); with fewer it never does.
- A plan that the supervisor decides to send can run out on its way. No fit plan does within a latency
  exactly when the latency is at most the end margin (`PlanMargin.NoneRunsOutIff`), whose default is zero: a
  new supervisor takes and sends a plan that is over two nanoseconds later (`PlanMargin.DefaultMarginCanRunOut`).
  Single rows, like the centered hold, never run out (`PlanMargin.SingleRowsLast`). Over whole drives that is
  the only thing that can go wrong (`DriveRuns.KeptUpStaysArmed`).
- A constant line of pixels keeps its value exactly when the rounding of the weight sum stays below half a
  unit (`Resize.LineIsKeptIff`), which every shrink by at most 8223 meets (`Resize.SmallShrinkIsModerate`);
  shrinking 2^25 pixels to one makes every line black (`Resize.HugeShrinkIsBlack`).
- A preserved gain change is bumpless exactly when the new integral gain is not zero or there was nothing
  to keep (`Pid.BumplessIff`).
- The checked collector options do not rule out a joint without a working bin
  (`CoverageGrid.WorkingRangeCanBeEmpty`), for which the code's clamp is undefined. There is a working bin
  exactly when no bin boundary lies within the rounding slack of both ends of the working range
  (`CoverageGrid.AxisWorksIff`); with one for every joint every run is defined
  (`Coverage.WorkingGridIsDefined`), otherwise two samples can reach the clamp (`Coverage.OtherGridsAreNot`).
- The pruned frame history answers like the unpruned one for times from the last push on; for an earlier
  time it can have forgotten the answer (`FrameHistory.EarlierPickCanDiffer`), which shows exactly when the
  closest entry of all is a forgotten one within the tolerance (`FrameHistory.PruningShowsIff`).
- A prompt whose positions the rotary tables do not reach throws after its rows and masks are uploaded, with
  the old prompt still current; setting the old one again uploads nothing, and inferences go on with the other
  rows (`PolicyRuntime.TornPromptShows`). No calls ever end like that exactly when the tables reach the longest
  prompt of the bundle (`PolicyRuntime.NeverTornIff`).
- A plan up to 10 ms ahead is taken and sent by the supervisor, but the controller, which reads its clock before
  it receives, can find it further ahead and latch a fault (`DriveChain.AheadFaults`). Exactly the plans ahead
  by no more than 10 ms less the lag of that clock are always decoded (`DriveChain.AlwaysDecodedIff`).

## Model

| member | source | states |
|---|---|---|
| RecordingTheorems.CommittedTakeIsLossless | native_stack/src/mlp_record.cpp:395-473 | in every interleaving, exceptions included, a committed take is exactly the accepted records between its Start and its Finish, in order, with the two duplicate suppressions; a push call of the interval is missing only if it read Failed, and only under a Finish queued by a rotate called in Failed |
| RecordingTheorems.NoRotateInFailedNoLoss | native_stack/src/mlp_record.cpp:505-529 | in runs whose rotate calls never find Failed, every push call in a committed take's interval was accepted |
| RecordingLoss.CommittedTakeCanLackARefusedPush | native_stack/src/mlp_record.cpp:505-529 | a run that commits a take with one push of its interval refused and nothing counted as dropped |
| RecordingCommits.GoodTakeIsCommitted | native_stack/src/mlp_record.cpp:395-473 | in every run, whatever the producer does meanwhile: a take whose Start and next control record, a Finish, are handled without an exception is saved, exactly as its interval of the log reads, if that Finish asks for it, the drop counter is still that of its Start and a drive row and a packet with a nonzero sequence were queued between; if one of these is missing nothing is saved |
| RecordingCommits.FinishCommitsIff | native_stack/src/mlp_record.cpp:395-428 | the two steps that handle the Finish of an open take add exactly that take, or nothing, under the same condition on the log |
| RecordingSessions.WholeRecording | native_stack/src/mlp_record.cpp:488-543 | from any state with both threads idle, the queue empty and nothing being recorded, whatever failed before, there is a run of a start, any given data records and a finish in which all of them are queued and none dropped, the state ends Idle, and a take of exactly these records is committed if the finish asks for it and there is a drive row and a packet with a nonzero sequence, and nothing otherwise |
| RecordingSessions.RotatedRecording | native_stack/src/mlp_record.cpp:488-543 | and one with a rotate between in which the records before it become a take of their own, under the same condition, and those after it are in the next one |
| RecordingCommits.QueuedIffRoom | native_stack/src/mlp_record.cpp:148-159 | a record is queued exactly if, by the tail its push read, fewer records than the ring holds are queued, for data four less, and a data record is counted as dropped exactly if it is not |
| RecordingTheorems.QuietStateIsTheLastRequest | native_stack/src/mlp_record.cpp:488-543 | with both threads idle, and nothing refused and nothing thrown since the last start, rotate or finish stored its state, the state is what that request asked for, although the transition check and the swap are separate steps and whatever failed before |
| RecordingTheorems.ControlPushesFit | native_stack/src/mlp_record.cpp:148-159 | a control record finds no room only behind at least four other control records |
| RecordingTheorems.InvOverRuns | native_stack/src/mlp_record.cpp:442-543 | the joint invariant of both threads holds after every run |
| RecordingSafety.RoomyKept | native_stack/src/mlp_record.cpp:148-159 | every step keeps occupancy at most capacity - 4 plus the control records queued |
| RecordingSafety.WriterInvKept | native_stack/src/mlp_record.cpp:442-473 | every step keeps the open take equal to the records after its Start, and every committed take equal to its interval with equal drop counters at both ends |
| RecordingPushes.DropsInvKept | native_stack/src/mlp_record.cpp:505-513 | a push refused for a full queue separates the drop counters of all records queued before it from those after it |
| RecordingPushes.RefusalsInvKept | native_stack/src/mlp_record.cpp:488-543 | every step keeps the explanation of each refused push inside an interval without drops: it read Failed, and the interval ends by a rotate |
| RecordingState.PhaseInvKept | native_stack/src/mlp_record.cpp:214-218 | every step keeps the state in line with the latest request once the disk thread is through with it |
| RecordingState.TicketNamesRequest | native_stack/src/mlp_record.cpp:453-461 | a record the disk thread took out that carries the current transition number is the latest request itself, so a stale Finish cannot pass for it |
| TakeRecorder.TakeHoldsItsRecords | native_stack/src/mlp_record.cpp:221-238 | the running fields of the disk thread compute all drive rows and every packet and block that differs from its predecessor |
| TakeRecorder.AdvancingPacketsAreAllKept | native_stack/src/mlp_record.cpp:221-226 | packets whose sequence changes every time are all kept |
| TakeRecorder.OnlyRepeatedPacketsAreLeftOut | native_stack/src/mlp_record.cpp:221-226 | no two kept packets side by side have the same sequence, and at any time the last one kept has the sequence seen last |
| TakeRecorder.OnlyRepeatedBlocksAreLeftOut | native_stack/src/mlp_record.cpp:227-238 | the same of blocks and their ids |
| TakeRecorder.TakeWriter.Close | native_stack/src/mlp_record.cpp:395-428 | closing commits the take if and only if it is open, asked to complete, the drop counter is that of its Start, and there is at least one row and one packet; it is closed in any case |
| TakeRecorder.TakeWriter.Fail | native_stack/src/mlp_record.cpp:429-441 | an exception abandons the open take without committing it |
| TakeRecorder.TakeWriter.Begin | native_stack/src/mlp_record.cpp:160-220 | a Start closes an open take as incomplete and opens an empty one marked with its drop counter |
| TakeRecorder.TakeWriter.WriteRecord | native_stack/src/mlp_record.cpp:462-469 | a data record changes only the open take, by one suppressed write |
| TakeRecorder.TakeWriter.Drain | native_stack/src/mlp_record.cpp:442-473 | draining the records of a take leaves exactly its rows, fresh packets and fresh blocks |
| SpscRing.TakenIsPushed | native_stack/src/mlp_record.cpp:148-154 | with word-by-word copies on both sides and wrapping 64-bit counters, what is taken is what was pushed, whole and in order |
| SpscRing.RoomIsExact | native_stack/src/mlp_record.cpp:149-152 | the wrapped subtraction refuses exactly when that many records are queued |
| SpscRing.PushGetsThrough | native_stack/src/mlp_record.cpp:148-154 | a push goes through word by word, and its record is queued exactly if fewer than the capacity less the reserve are |
| SpscRing.TakeGetsThrough | native_stack/src/mlp_record.cpp:148-154 | a take finds a record exactly if one is queued, and gets the oldest one |
| SpscRing.SlotIgnoresWrap | native_stack/src/mlp_record.cpp:142-153 | for the accepted capacities the slot of a wrapped counter is the slot of the true count |
| CaptureRuns.CommittedPacketsAreOfOneEpoch | native_stack/src/mlp_record.cpp:559-586 | in every run of a capture and its recorder, whatever both threads and the answers do, a committed take holds every packet queued in its interval, none suppressed, and all of one parser epoch |
| CaptureRuns.InvOverRuns | native_stack/src/mlp_record.cpp:488-586 | every step of the capture, its calls and the disk thread keeps every stretch between control records of one epoch and free of repeats, in step with the capture unless it is rotating |
| RawCapture.Capture.Packet | native_stack/src/mlp_record.cpp:559-586 | for every answer: which calls of the recorder a sample makes, in order and with which record, and the new state; a packet is pushed under its own epoch, behind a rotation if that is new, and a refusal ends the recording |
| RawCapture.Capture.Begin | native_stack/src/mlp_main.cpp:80-93 | a started recording takes the epoch of the current sample and forgets the last packet; a refused one changes nothing |
| PidTelemetry.RowsGetTheirOwnTelemetry | native_stack/src/pid_main.cpp:382-385 | in every interleaving, with any pushes refused and takes abandoned, every drive row is joined with the frame of its own tick and take never reports missing or mismatched telemetry |
| PidTelemetry.WantedIsThere | native_stack/src/pid_record.cpp:52-63 | while a record is being joined its frame is still in the ring and no newer one is in front |
| PidJoins.EveryRecordGetsItsRow | native_stack/src/pid_main.cpp:382-385 | in every run without an abandoned take the drive records fetched have one row each, in order |
| PidJoins.RowsHaveWhatWasPushed | native_stack/src/pid_record.cpp:42-63 | in every run the telemetry of a row is, whole, a frame that was pushed |
| PidJoins.TickGetsThrough | native_stack/src/pid_record.cpp:42-63 | with room for a frame and nothing left to fetch, a frame of a newer tick and its drive record can go through both threads, and end as one more row of that tick and frame |
| FrameQueue.Queue.Push | native_stack/src/pid_record.cpp:42-51 | appends unless the ring is full |
| FrameQueue.Queue.Take | native_stack/src/pid_record.cpp:52-63 | discards older frames, returns the frame of the tick, or reports a missing or a newer one and leaves the newer one |
| StreamBridge.ReturnedFramesArePublishedFrames | pico_imu_reader/main.c:543-577 | with both copies word by word in any order, every frame handed out is one published frame unless 2^32 publishes completed during its copy, and frame numbers strictly increase |
| StreamBridge.RetryOnlyUnderOverlap | pico_imu_reader/main.c:561-577 | an attempt during which the publisher was resting throughout succeeds; that attempts are made and come to their end is `StreamBridgeReads` |
| StreamBridge.InvOverRuns | pico_imu_reader/main.c:543-577 | the last complete frame sits untouched in its slot in every run |
| StreamBridgeReads.ReadsGiveTheLatestFrame | pico_imu_reader/main.c:561-577 | in any bridge a run can lead to, with the publisher resting: reader actions alone hand out the last published frame, word for word and once, as soon as a call comes to its end, and nothing if there is no news; news is a frame number that is neither a whole number of turns nor a whole number of turns after the one handed out last |
| StreamBridgeReads.NewsIsServed | pico_imu_reader/main.c:561-577 | with news there is a call, of reader actions alone, that hands the last frame out |
| StreamBridgeReads.PublishCompletes | pico_imu_reader/main.c:543-560 | from rest, publisher actions alone add any frame of the right width to the published ones |
| StreamBridgeWrap.WrappedCopyIsTorn | pico_imu_reader/main.c:571-575 | a run with exactly 2^32 publishes during a copy that hands out a frame never published |
| FrameStore.SnapshotsAreWholeFrames | native_stack/src/frame_store.cpp:107-161 | with the writer and any reader dying at any step, header and pixels of every successful read are those of one publish call, the last one completed; when reads succeed is `FrameReads` |
| FrameStore.DeathIsRecovered | native_stack/src/frame_store.cpp:35-43 | after a holder died the next reader gets the lock with the frame invalidated, and loses no completed publish from the history |
| FrameStore.InvOverRuns | native_stack/src/frame_store.cpp:35-161 | the mapping shows nothing or the last complete frame whenever the lock is free, in every run |
| FrameReads.UndisturbedRead | native_stack/src/frame_store.cpp:131-161 | in any store a run can lead to whose lock is free: a read that is not disturbed answers with header and, if wanted, pixels of the last published frame when one is shown and fits, is refused exactly when one is shown, pixels are wanted and the room is below its byte count, and finds nothing exactly when none is shown |
| FrameReads.ReadCompletes | native_stack/src/frame_store.cpp:131-161 | and every such read can come to its end by its own steps |
| FrameReads.PublishCompletes | native_stack/src/frame_store.cpp:107-130 | a valid frame, up to one that fills the store, offered while the lock is free can be published by the writer's own steps, and the free store then shows all of it |
| WireEncoder.Encode | native_stack/src/pi05_policy.cpp:294-319 | writes the packet of the plan with its rate and rows cast to 4-byte floats in place, and refuses exactly drives without 1 to 128 rows or with a value outside [-1, 1] after the cast |
| FloatCast.UnitRowsAreGood | native_stack/src/pi05_policy.cpp:277-313 | rows in [-1, 1], as make_plan leaves them, stay in it under any cast to the nearest float, so that the encoder never refuses them |
| FloatCast.SomeCastRounds | native_stack/src/pi05_policy.cpp:309 | a cast to the nearest float exists, so the premise of the results about casts can be met |
| Wire.DecodePacket | native_stack/src/core.cpp:515-552 | the check-by-check decoder accepts exactly the bytes of admissible messages and yields their meaning |
| Wire.ReadHeader | native_stack/src/core.cpp:515-543 | the header checks in order: frame, flags, send time, rate, observation, start, horizon, with a start of zero meaning now |
| Wire.DecodedExactly | native_stack/src/core.cpp:515-552 | bytes decode to a packet if and only if they are the bytes of an admissible message with that meaning |
| Wire.UnpackedOfPacked | native_stack/src/pi05_policy.cpp:294-319 | reading back what was packed gives the message |
| Wire.PackedOfUnpacked | native_stack/src/core.cpp:515-543 | packing what was read gives the bytes: no byte of a framed packet is ignored |
| Wire.PackedIsInjective | native_stack/src/pi05_policy.cpp:294-319 | different messages have different bytes |
| Bytes.FromLEOfLE | native_stack/src/core.cpp:44-48 | little-endian fields read back as written |
| Bytes.LEOfFromLE | native_stack/src/core.cpp:44-48 | and are written back as read |
| PlanSupervisor.SentPlanIsFit | native_stack/src/pi05_policy.cpp:325-362 | in every run, what is decided to be sent is the centered hold, or an offered plan that is well shaped, not too old and not within the end margin of its end |
| PlanSupervisor.GoingOnIsFit | native_stack/src/pi05_policy.cpp:344-362 | every decision other than Stop, sending or not, found the hold or a plan still fit |
| PlanSupervisor.ObservationsAdvance | native_stack/src/pi05_policy.cpp:333-342 | between two holds accepted observation times strictly increase, and the newest is the current plan's |
| PlanSupervisor.StopIsPermanent | native_stack/src/pi05_policy.cpp:344-362 | once stopped, always stopped with the same reason: no plan is taken, nothing is sent |
| PlanSupervisor.EndIsClose | native_stack/src/pi05_policy.cpp:259-263 | the rounded end is within half a nanosecond of the real one |
| PlanSupervisor.AcceptedIff | native_stack/src/pi05_policy.cpp:325-343 | an offer is accepted if and only if the supervisor has not stopped, the plan is fit, and it is newer than the current one unless the hold is being kept; it then is the pending plan |
| PlanSupervisor.GoingOnIff | native_stack/src/pi05_policy.cpp:344-362 | a decision is not Stop if and only if nothing stopped it before and the hold is within its timeout, or the plan's observation is no older than allowed and its end further away than the margin |
| PlanSupervisor.SendIff | native_stack/src/pi05_policy.cpp:355-362 | a decision that is not Stop sends if and only if the plan is new or the last one was sent a renewal time ago or more |
| PlanSupervisor.Supervisor.OfferPlan | native_stack/src/pi05_policy.cpp:325-343 | the object is `Judge` and `AfterOffer`: each refusal reason in order, and a refusal changes nothing |
| PlanSupervisor.Supervisor.NextDecision | native_stack/src/pi05_policy.cpp:344-362 | the object is `Decide` and `AfterNext`: which of the four stop rules applies, otherwise send when pending or due in unsigned 64-bit time |
| PlanSupervisor.Supervisor.StartHold | native_stack/src/pi05_policy.cpp:320-324 | replaces the plan by one centered row and restarts the first-plan timeout |
| PlanSupervisor.Supervisor.MarkSent | native_stack/include/kaivuri/pi05_policy.hpp:113-116 | a sent plan is no longer pending and is renewed from now on |
| PlanMargin.NoneRunsOutIff | native_stack/src/pi05_policy.cpp:337-354 | no plan fit to be decided on is over within a latency if and only if the latency is at most the end margin |
| PlanMargin.DefaultMarginCanRunOut | native_stack/include/kaivuri/pi05_policy.hpp:101 | with a margin of zero a run of a new supervisor decides to send a plan that is over two nanoseconds later |
| PlanMargin.SingleRowsLast | native_stack/src/core.cpp:629-634 | a single row never runs out, whatever the margin |
| DriveChain.SentIsDecoded | native_stack/src/core.cpp:515-552 | every packet of a plan the producer may decide on, first or renewal, is decoded as exactly its plan if it arrives within the transport time by a controller clock at most the skew behind its stamp, for any cast to the nearest float |
| DriveChain.AlwaysDecodedIff | native_stack/src/pi05_policy.cpp:330-332 | of the well-made plans the supervisor finds fit, exactly those with first row and observation at most 10 ms less the skew ahead of the decision are decoded however late they are stamped and whatever the controller's clock then says |
| DriveChain.AheadFaults | native_stack/src/control_main.cpp:354-357 | a run of a new supervisor that takes a plan 10 ms ahead and decides to send it, and a clock that is behind, by which its packet is fresh and refused, which latches a fault |
| DriveChain.DecidedIsFit | native_stack/src/pi05_policy.cpp:454-476 | every plan a run of the producer decides to send is the hold or a well-made offered plan that is still fit, and not ahead if it was not when offered |
| DriveChain.TickKeepsDriving | native_stack/src/core.cpp:619-634 | a tick within the lease and within poll and transport of the last decision that vouched for the plan drives it, or finds it exhausted and decays for that reason, which an ample margin rules out |
| DriveRuns.KeptUpStaysArmed | native_stack/src/pi05_policy.cpp:449-500 | in every run of producer, link, controller and other clients in which decisions are at most poll apart and none is Stop, every offered plan is well made and not ahead, packets arrive within the transport time, the controller's clock is at most the skew behind, every tick is healthy and nobody else sends an accepted Disarm or Estop: the producer stays owner of an armed core that drives the packet taken last; the one exception is a plan run out, and none with margin for poll, transport and cast |
| DriveRuns.NoTickFindsItLate | native_stack/src/core.cpp:619-634 | no tick of such a run finds the lease expired, from renewal + poll + transport + skew within the lease, or the observation stale, from maximum age + poll + transport within its limit; with an ample margin none finds the plan exhausted |
| DriveRuns.FirstPacketEngages | native_stack/src/pi05_policy.cpp:454-476 | whatever the producer did before, with well-made plans not ahead, the first packet it sends that an armed core takes from the owner is the start of such a run |
| DriveRuns.AcceptedSettingsFit | native_stack/src/inference_pi05.cpp:207-210 | every renewal and observation age the producer accepts fits the default limits of the controller with 50 ms for poll and transport and a clock 10 ms behind, the defaults with 100 ms |
| DriveRuns.InvOverRuns | native_stack/src/control_main.cpp:315-351 | packets on their way are vouched for, each decided in time after the one before, with rising sequence numbers the controller has not seen |
| Safety.ControlCore.ReceivePacket | native_stack/src/core.cpp:572-603 | the object is `Receive`, the function of all run results: Disarm and Estop act in every state, a drive only outside Fault and Decaying, an uncentered or unhealthy one disarms or faults, and only a held centered one arms |
| Safety.ControlCore.TickAt | native_stack/src/core.cpp:619-654 | the object is `Tick`: staleness, health and arming lease first, then lease and chunk of an armed plan, then the decay; new state and commands both; an armed core with health, lease and plan in order outputs the plan's straight lines, its first row before them and its last one after them |
| Safety.ControlCore.Halt | native_stack/src/core.cpp:559-565 | stops motion and pump and drops the plan, whatever the state |
| Safety.ControlCore.IsCentered | native_stack/src/core.cpp:583-587 | true exactly for one row with every command within 0.01 |
| ControlTheorems.TickIsIdempotent | native_stack/src/control_main.cpp:404-424 | ticking twice at one instant is ticking once |
| ControlTheorems.DecayOnlyFades | native_stack/src/core.cpp:635-652 | from decay on, over any packets but Disarm, outputs are non-increasing multiples of the last armed command, the pump is off, and from the decay time on the core is in Fault and the outputs are zero |
| ControlTheorems.ExpiryStartsDecay | native_stack/src/core.cpp:629-640 | a healthy tick that finds the lease or the chunk run out starts the decay from the last armed command |
| ControlTheorems.FaultIsFinal | native_stack/src/core.cpp:572-578 | only Disarm leaves Fault |
| ControlTheorems.EvaluateStaysInRange | native_stack/src/core.cpp:604-618 | interpolation never leaves [-1, 1], and disabled joints stay at zero |
| ControlTheorems.EvaluateHitsRows | native_stack/src/core.cpp:604-618 | at the time of a row the command is that row |
| Safety.EvaluateFollows | native_stack/src/core.cpp:604-618 | the first row up to its time, the last one from its time on, between two rows the straight line, and zero for disabled joints |
| Safety.EvaluateOnTheLine | native_stack/src/core.cpp:604-618 | for every k with a next row and f in [0, 1], at t0 + (k + f) / fps an enabled joint is (1 - f) times row k plus f times row k + 1 |
| ControlTheorems.HoldArms | native_stack/src/core.cpp:572-603 | from Disarmed, an arming packet, then any healthy ticks within the lease and arming packets, then an arming packet at least the arming time after the first arms the core, with that packet's plan and pump |
| ControlTheorems.TickArmedIff | native_stack/src/core.cpp:619-634 | a tick leaves the core armed if and only if it was, is healthy, within the lease, with the observation not too old and the last row not past; and arming if and only if it was, is healthy and within the lease |
| ControlTheorems.TickFaultIff | native_stack/src/core.cpp:619-654 | and in Fault if and only if it was, or the observation of an armed plan is too old, or it was active without health, or a decay is over |
| ControlTheorems.ReceiveArmedIff | native_stack/src/core.cpp:566-603 | a packet leaves the core armed if and only if it was and the packet is a status or a healthy drive with the deadman set, or it was arming long enough and the packet is a healthy, centered arming drive |
| ControlTheorems.ReceiveFaultIff | native_stack/src/core.cpp:566-603 | and in Fault if and only if it is an Estop, or the core was in Fault and it is no Disarm, or it is a drive with the deadman set in bad health and the core is not decaying |
| ControlTheorems.DecayIsLinear | native_stack/src/core.cpp:641-652 | while decaying the output goes down linearly from the last armed command to nothing at the decay time |
| ControlTheorems.ArmedTakesDrives | native_stack/src/core.cpp:572-603 | an armed healthy core takes every drive with the deadman set, centered or not, and disarms without it |
| ControlLoop.OwnershipOverRuns | native_stack/src/control_main.cpp:245-352 | in every run, while arming, armed or decaying a connected client owns the core, in arming and armed the plan is the owner's, and each connection's processed sequence numbers strictly increase |
| ControlLoop.ArmedOnlyAfterAHold | native_stack/src/core.cpp:582-599 | the core becomes armed only at the end of a hold of at least the arming time in which nothing happened but healthy ticks within the lease and centered, armed packets of one owner |
| ControlLoop.ArmingIsAHold | native_stack/src/core.cpp:582-599 | whenever the core is arming such a hold of its owner is under way since the recorded start |
| ControlLoop.ClientArms | native_stack/src/control_main.cpp:315-351 | from power-on a client that connects and sends two arming packets with rising numbers, the arming time apart, owns an armed core that drives the second one |
| ControlLoop.ExpiryBeatsRenewal | native_stack/src/control_main.cpp:404-424 | a renewal in the iteration that finds the lease or the chunk run out comes too late: not armed, pump off, output the last command or zero |
| ControlLoop.ServingNeverRearms | native_stack/src/control_main.cpp:404-424 | messages at the instant of an expiring tick cannot arm the core again |
| ControlLoop.Server.HandleMessage | native_stack/src/control_main.cpp:315-351 | one received message: end of connection, undecodable, replayed, or handled |
| ControlLoop.Server.Serve | native_stack/src/control_main.cpp:315-352 | at most eight messages of one client in order, ending early at a closed connection |
| ControlLoop.Server.Close | native_stack/src/control_main.cpp:245-251 | a lost owner is a fault and frees the lease |
| ControlLoop.Server.AcceptAll | native_stack/src/control_main.cpp:406-420 | at most eight new connections take free slots and touch neither core nor owner |
| ControlLoop.Server.Iterate | native_stack/src/control_main.cpp:354-424 | an iteration is its faults, a tick, connections, messages and a tick again at the same instant, and outputs what that last tick does |
| ValvePulse.ExcessGrowsSlowly | native_stack/src/core.cpp:374-389 | in a ramped call the excess beyond the deadband edge grows on either side by at most the ramp limit times the time since the last call, capped at 50 ms |
| ValvePulse.RampedRunIsSlow | native_stack/src/core.cpp:374-390 | over a run the excess is at most that of the start plus the ramp limit times the time the run took |
| ValvePulse.RunStaysContained | native_stack/src/core.cpp:362-390 | the remembered pulse stays in range over every run |
| ValvePulse.TargetIsMonotone | native_stack/src/core.cpp:364-373 | more command never means a pulse nearer to the center |
| ValvePulse.TargetInRange | native_stack/src/core.cpp:364-373 | the target is in range and outside the deadband on the command's side |
| ValvePulse.GuardedNeverReverses | native_stack/src/ik_collection.cpp:233-252 | a guarded pulse is in range and never on the other side of the center, whatever the old ramp state and dither |
| ValvePulse.LimitedIsTheTarget | native_stack/src/ik_collection.cpp:240-248 | a limited call jumps to its target without ramp, dither or memory |
| ValvePulse.MovesIff | native_stack/src/core.cpp:364-373 | the target leaves the center if and only if the command is beyond the deadzone, and to the side of its direction |
| ValvePulse.FullCommandIsTheEnd | native_stack/src/core.cpp:364-373 | full command is the end of the range on its side |
| ValvePulse.TargetIsOnTheCurve | native_stack/src/core.cpp:364-373 | beyond the deadzone the command's share of the rest goes through the power curve, and the pulse is that part of the way from the deadband edge to the end of the range on its side |
| ValvePulse.RampGoesForTheTarget | native_stack/src/core.cpp:374-389 | a ramped pulse is its target, or has gone all of the allowed step towards it |
| ValvePulse.WaveSwings | native_stack/src/core.cpp:391-404 | away from the ends of the range the dither moves the pulse by the amplitude times the wave |
| ValvePulse.AmplitudeInRange | native_stack/src/core.cpp:391-400 | the dither amplitude is the full one without a taper, zero inside the deadband with one, and full a taper beyond it |
| ValvePulse.AmplitudeIsLinear | native_stack/src/core.cpp:392-398 | within the taper the amplitude grows linearly with the distance from the deadband edge |
| ValveCalls.SendPulse | native_stack/src/core.cpp:362-404 | the object is `Base`, `Pulse` and `After`, and every pulse is in range |
| ValveCalls.SendGuarded | native_stack/src/ik_collection.cpp:233-252 | the object is `GuardedPulse`: a zero command centers and restarts the ramp, a limited or reversed one forgets it |
| PulseOutput.WritePulses | native_stack/src/control_main.cpp:424-440 | unless armed or decaying every valve is at its center with a restarted ramp, unless armed the pump idles, every pulse is in range, and no other channel changes |
| JointGuard.StopsIff | native_stack/src/ik_collection.cpp:210-223 | a guarded command is zero exactly for no command, or with no room left before the margin on its side |
| JointGuard.StopsAheadIff | native_stack/src/ik_collection.cpp:210-223 | a command towards a limit is stopped if and only if the joint, going on for the look-ahead at the speed it has that way, reaches the margin |
| JointGuard.FadesLinearly | native_stack/src/ik_collection.cpp:210-223 | within the taper the command fades linearly with the room that is left when the look-ahead is over |
| JointGuard.NeverDrivesOut | native_stack/src/ik_collection.cpp:214-223 | a joint at or past a margin is never driven further out on that side, whatever its speed |
| JointGuard.UnchangedIff | native_stack/src/ik_collection.cpp:218-224 | a command passes unchanged exactly with a full taper of room, or when it is zero |
| JointGuard.ReturningIsFree | native_stack/src/ik_collection.cpp:213-223 | leaving a limit is never slowed by that limit, however far out the joint is |
| JointGuard.NeverAmplifies | native_stack/src/ik_collection.cpp:211-223 | the guarded command keeps the sign, is never larger and at most one |
| JointGuard.NearerIsSlower | native_stack/src/ik_collection.cpp:218-222 | the nearer the limit, the smaller the scale |
| JointGuard.Apply | native_stack/src/ik_collection.cpp:203-232 | all joints are guarded alike: command, scale and predicted position of each, limited says what changed, the reason is inward recovery exactly when some joint is outside its margins, and unusable inputs give zeros |
| ImuScanner.ChunkingIsInvisible | native_stack/src/core.cpp:414-423 | feeding any chunks one after the other scans like the whole stream at once |
| ImuScanner.ScanInParts | native_stack/src/core.cpp:424-466 | scanning a stream cut anywhere is scanning the first part, then its rest with the second |
| ImuScanner.ScanCoversTheStream | native_stack/src/core.cpp:424-466 | skipped bytes, rejected bytes, frames and the rest make up the stream; frames are well formed and at most 315 bytes are left |
| ImuScanner.FramesGetThrough | native_stack/src/core.cpp:424-466 | well-formed frames back to back are delivered exactly, with no error and nothing left |
| ImuScanner.NoiseIsSkipped | native_stack/src/core.cpp:426-429 | bytes without a marker in front of a frame are skipped without an error |
| ImuParser.DeviceTimesAdvance | native_stack/src/core.cpp:468-513 | delivered samples are congruent to their 32-bit stamps, epochs never go back, and within an epoch device times strictly increase |
| ImuParser.ReadSensor | native_stack/src/core.cpp:472-485 | a sensor's floats go to quaternion and rates, and are good exactly when all are finite and the squared norm is within bounds |
| ImuSamples.SentIsDelivered | native_stack/src/core.cpp:468-513 | a sample frame of any kind, count, stamp and floats is delivered once, with quaternions and rates as they were put in, if and only if the expected sensors are there, every float is finite, every quaternion near length one and the stamp the first one or 1 us to 1 s after the one before |
| ImuSamples.FloatIsAt | native_stack/src/core.cpp:468-485 | the k-th float of such a frame is the k-th one put in |
| ImuSamples.SampleIsWellFormed | native_stack/src/core.cpp:424-443 | such a frame is one the scanner lets through, with its kind, count and stamp |
| ImuSamples.BlockedIff | native_stack/src/core.cpp:444-463 | over any stream the firmware counts as blocked if and only if a control message 5 to 8 or a status with a wrong count or without the ready bit came and no ready status of all expected sensors since |
| ImuSamples.GoodSampleIsTheLast | native_stack/src/core.cpp:444-513 | over any stream a sample that shows as valid is the last one delivered, and of the current epoch |
| ImuFeed.Parser.Feed | native_stack/src/core.cpp:414-423 | however a stream is cut into calls, counters, samples and left-over bytes are those of the scan of the whole stream |
| ImuFeed.Parser.FeedByte | native_stack/src/core.cpp:416-421 | one more byte keeps that, and the full-buffer branch is never taken |
| ImuFeed.Parser.ParseSample | native_stack/src/core.cpp:468-513 | the object is `Sampled`: a sample is delivered exactly when its content is good and its stamp is 1 us to 1 s after the last one, otherwise counted invalid, a bad stamp also ending the epoch |
| ImuFeed.Parser.EndStream | native_stack/src/core.cpp:444-463 | the object is `Reset`: control blocks, status unblocks only the expected healthy count, configuration restarts the clock, and all end the epoch |
| ImuFeed.Parser.Peek | native_stack/src/core.cpp:424-443 | the front of the buffer is told apart with a wrapping 16-bit sum |
| Resize.ResizedWithin | native_stack/src/pi05_policy.cpp:105-131 | for every axis with few enough input positions per output, every output pixel lies between the darkest and the brightest input pixel |
| Resize.ConstantStays | native_stack/src/pi05_policy.cpp:105-131 | and a constant image stays that constant |
| Resize.SmallShrinkIsModerate | native_stack/src/pi05_policy.cpp:45-56 | every enlargement and every shrink by at most 8223 has few enough |
| Resize.LineIsKeptIff | native_stack/src/pi05_policy.cpp:57-71 | for any sizes at all, exactly when a constant line keeps its value at an output position |
| Resize.HugeShrinkIsBlack | native_stack/src/pi05_policy.cpp:57-71 | one output over 2^25 inputs: every weight rounds to zero and every line becomes black |
| Resize.ResizedIsMonotone | native_stack/src/pi05_policy.cpp:105-131 | brightening pixels never darkens an output pixel |
| Resize.ConstantIsKeptIff | native_stack/src/pi05_policy.cpp:72-76 | for any weights at all, exactly when a constant run keeps its value |
| Resize.SameSizeIsTheSame | native_stack/src/pi05_policy.cpp:105-131 | resizing an image to its own size gives the image |
| Resize.SumFitsInt32 | native_stack/src/pi05_policy.cpp:114-119 | with balanced weights no partial sum or product overflows 32 bits for up to 8437952 taps |
| ResizePasses.BlendRun | native_stack/src/pi05_policy.cpp:114-119 | the loop over strided memory computes the weighted pixel, and for runs of up to that many taps its running sum and products are 32-bit integers throughout |
| ResizeTaps.Axis.TentsArePositive | native_stack/src/pi05_policy.cpp:51-61 | the weight sum is at least one half for every output position and any sizes |
| ResizeTaps.Axis.RunFits | native_stack/src/pi05_policy.cpp:49-56 | each run is inside the input and within its padded row |
| ResizeTaps.WeightsAreBalanced | native_stack/src/pi05_policy.cpp:61-67 | fixed-point weights are non-negative and sum to 2^22 within half a unit per tap |
| ResizeTaps.WeightIsItsShare | native_stack/src/pi05_policy.cpp:49-67 | every fixed-point weight is within half a unit of its share of 2^22, by the tent over the distance between the middles of input and output position |
| ResizeTaps.RunHasAllTheWeight | native_stack/src/pi05_policy.cpp:49-61 | no input position outside the run of an output position has any weight |
| ResizeTaps.HatIsLinear | native_stack/src/pi05_policy.cpp:57-61 | within the support the weight falls linearly with the distance from the center |
| ResizeTaps.NeighboursShare | native_stack/src/pi05_policy.cpp:57-61 | in an enlargement two neighbours share the whole weight linearly, which is bilinear interpolation |
| ResizeTaps.Taps.constructor | native_stack/src/pi05_policy.cpp:45-71 | the padded table holds the run of every output position |
| ResizePasses.PilBilinear | native_stack/src/pi05_policy.cpp:105-131 | the two passes over flat memory with stride and pixel step compute `Resized`, about which the image results are proved; malformed sizes are refused |
| ResizePasses.BlendAlong | native_stack/src/pi05_policy.cpp:114-119 | the inner loop over strided memory computes the weighted pixel of a line, for rows and for columns |
| Pid.ContainedOverRuns | native_stack/src/ik_collection.cpp:149-187 | over any run of computations, gain changes and resets the output stays within the limit and the integral within limit / ki |
| Pid.BumplessIff | native_stack/src/ik_collection.cpp:149-159 | a preserved gain change keeps the integral part of the output exactly when the new integral gain is not zero or there was nothing to keep |
| Pid.IntegralHeldIff | native_stack/src/ik_collection.cpp:164-187 | the integral stays as it is if and only if the unlimited output, the headroom left by the excitation, or a block stands in the way on the side of the error; otherwise it winds on |
| Pid.SameOutputs | reference/modules/pid.py:74-135 | with no excitation, no blocks and symmetric limits the port and the reference give the same outputs over any inputs |
| Pid.SameDecision | reference/modules/pid.py:118-128 | the two anti-windup rules are the same rule |
| PidObjects.Controller.Update | native_stack/src/ik_collection.cpp:164-187 | the object is `Compute`, the function of the run results; a negative period changes nothing |
| PidObjects.Controller.Configure | native_stack/src/ik_collection.cpp:149-159 | the object is `Configured`; negative gains change nothing |
| PidObjects.PIDController.Update | reference/modules/pid.py:74-135 | the reference object is `RefCompute`, with which the port is compared |
| CoverageGrid.IndexIsInjective | native_stack/src/ik_collection.cpp:333-343 | different bins have different cell numbers |
| CoverageGrid.CellsInRange | native_stack/src/ik_collection.cpp:333-347 | on every accepted grid every pose has its cell in range, and its working cell in the working box if every joint has a working bin |
| CoverageGrid.WorkingBoxIsSmall | native_stack/src/ik_collection.cpp:292-298 | the working box of any accepted grid, empty ones included, has at most as many cells as the product of its sides |
| CoverageGrid.SizeGrid | native_stack/src/ik_collection.cpp:282-298 | the grid is accepted exactly when every range is wide enough and no product of bins is too large, and then working bins are among the bins |
| CoverageGrid.AxisIsSound | native_stack/src/ik_collection.cpp:284-297 | checked options give some bins, with the working bins among them |
| CoverageGrid.AxisWorksIff | native_stack/src/ik_collection.cpp:293-296 | a joint has a working bin if and only if no bin boundary lies within the rounding slack of both ends of its working range |
| CoverageGrid.WorkingRangeCanBeEmpty | native_stack/src/ik_collection.cpp:284-297 | options that pass the checks and leave a joint without a working bin |
| CoverageGrid.GridIndex | native_stack/src/ik_collection.cpp:333-343 | the loop computes the mixed-radix cell number of the clamped bins |
| CoverageGrid.BinHoldsIff | native_stack/src/ik_collection.cpp:333-343 | a position falls in a bin if and only if it lies between the bin's edges, the end bins taking the rest |
| Coverage.InvOverRuns | native_stack/src/ik_collection.cpp:458-492 | after any defined run on any accepted grid visited cells are the cells with time in them, moving time is part of each cell's time, all counted time is in some cell, and visited working cells do not exceed the working cells |
| Coverage.MovingCountsIff | native_stack/src/ik_collection.cpp:469-482 | time goes to the earlier pose's cell alone, and as moving if and only if some joint made a degree per second |
| Coverage.SteadyRunCountsAll | native_stack/src/ik_collection.cpp:448-472 | of a run of usable samples inside the limits, with rising times and no gap, all the time from first to last is in the cells |
| Coverage.WorkingGridIsDefined | native_stack/src/ik_collection.cpp:333-343 | with a working bin for every joint every run is defined |
| Coverage.OtherGridsAreNot | native_stack/src/ik_collection.cpp:333-343 | without one, two samples in the middle of the working range reach the undefined clamp |
| Coverage.RandomCollection.Observe | native_stack/src/ik_collection.cpp:448-496 | the object is `Step`: time counts only between two usable samples inside the limits without a clock gap, anything else restarts |
| Coverage.RandomCollection.Tick | native_stack/src/ik_collection.cpp:469-488 | the arrays are `Count`: time, moving time, first visits and first working visits of the earlier pose's cells |
| PolicyRuntime.Runtime.Infer | native_stack/src/pi05_runtime.cpp:668-695 | the result is the composition of the engines on these images, this noise and the uploaded rows and tables, whatever earlier runs left in the buffers, and uploads nothing; with nothing torn it is the policy of the current prompt |
| PolicyTrace.PolicyIsTraced | native_stack/src/pi05_runtime.cpp:260-315 | for engines that write down what they receive, any number of layers and steps: the result lists, step by step and layer by layer, number, action tables, key and value i with the language layers and prefix tables each has seen, and style rows 2i and 2i + 1, with style row 2L for the output layer and both camera towers in front of the prompt |
| PolicyTrace.ActedTrace | native_stack/src/pi05_runtime.cpp:293-313 | within a step, after n action layers the input has the entries 0 to n - 1 in order behind it |
| PolicyTrace.MemoryTrace | native_stack/src/pi05_runtime.cpp:273-291 | key and value i come from the prefix as left by layers 0 to i - 1, a key-value-only last layer without number and mask |
| PolicyTrace.SomeEnginesTrace | native_stack/src/pi05_runtime.cpp:260-315 | such engines exist for any layer and step counts, style rows, prompt rows and tables |
| PolicyRuntime.Runtime.SetPrompt | native_stack/src/pi05_runtime.cpp:560-648 | the object is `AfterPrompt` and `Returns`: an unchanged prompt uploads nothing, a malformed one changes nothing, and one beyond the rotary tables throws with its rows, its masks and possibly its prefix rows uploaded and the old prompt current |
| PolicyRuntime.Runtime.UploadTables | native_stack/src/pi05_runtime.cpp:585-620 | masks first, then prefix and action rows of the rotary tables: what is uploaded when a position is outside them |
| PolicyRuntime.NeverTornIff | native_stack/src/pi05_runtime.cpp:560-620 | no calls of set_prompt ever leave torn rows or tables if and only if the rotary tables reach the longest prompt the bundle accepts and its action tokens |
| PolicyPrompts.CurrentIsTheLastGood | native_stack/src/pi05_runtime.cpp:560-648 | with tables that reach the longest prompt, after any calls of set_prompt the current prompt is the last one that was not empty, not too long and of known tokens |
| PolicyPrompts.InferenceFollowsTheLastPrompt | native_stack/src/pi05_runtime.cpp:560-648 | and what is uploaded makes the policy of that prompt |
| PolicyRuntime.TornPromptShows | native_stack/src/pi05_runtime.cpp:560-620 | engines, a prompt, one that throws and the first again: the call returns, and the inference is that of the other rows |
| PolicyRuntime.MatchingIsPolicy | native_stack/src/pi05_runtime.cpp:260-315 | with nothing torn, the uploaded rows and tables make the policy of the current prompt |
| PolicyRuntime.MatchingKept | native_stack/src/pi05_runtime.cpp:560-648 | every call keeps rows and tables, unless torn, those of the current prompt and its length |
| PolicyRuntime.Runtime.Enqueue | native_stack/src/pi05_runtime.cpp:260-315 | the ping-pong schedule computes the pure composition |
| PolicyRuntime.Runtime.AssemblePrefix | native_stack/src/pi05_runtime.cpp:262-271 | both cameras and the prompt rows overwrite the whole prefix |
| PolicyRuntime.Runtime.ReadPrefix | native_stack/src/pi05_runtime.cpp:273-291 | every key and value is that of its layer, with or without a key-value-only last layer |
| PolicyRuntime.Runtime.DenoiseStep | native_stack/src/pi05_runtime.cpp:293-313 | one Euler step in the other action buffer |
| StatePrompt.StateBin | native_stack/src/pi05_policy.cpp:24-36 | the bin is the number of edges not above the value, minus one, and its edges bracket the value |
| StatePrompt.BinFrom | native_stack/src/pi05_policy.cpp:30-35 | the two loops repair any first guess |
| StatePrompt.BinsAreRecovered | native_stack/src/pi05_policy.cpp:132-145 | for distinct tokens the bins can be read back from the prompt body |
| StatePrompt.Compose | native_stack/src/pi05_policy.cpp:132-145 | the prompt is head, body and tail, refused exactly for an unknown task or a bin outside -1..255 |
| StatePrompt.Longest | native_stack/src/pi05_policy.cpp:146-151 | the bound is met by some task and exceeded by none |
| StatePrompt.PromptFits | native_stack/src/pi05_policy.cpp:132-151 | no prompt is longer than the longest |
| FrameHistory.PrunedAnswerIsTheSame | native_stack/tools/vla_groot.py:142-156 | entries expired by an earlier time never change an answer |
| FrameHistory.PruningShowsIff | native_stack/tools/vla_groot.py:142-156 | for any front left out and any time asked about, the answer differs if and only if the closest entry of all is in that front and within the tolerance |
| FrameHistory.AnswerIsTheClosest | native_stack/tools/vla_groot.py:150-156 | an answer is the first closest entry within the tolerance, and there is none exactly when no entry is |
| FrameHistory.EarlierPickCanDiffer | native_stack/tools/vla_groot.py:142-156 | a history and an earlier time for which pruning loses the answer |
| FrameHistory.History.Push | native_stack/tools/vla_groot.py:142-148 | only newer frames join, only expired ones go, and the history never empties |
| FrameHistory.History.Pick | native_stack/tools/vla_groot.py:150-156 | from the last frame's time on, the answer of the whole unpruned history; at any time exactly unless a forgotten entry would have been it |
| FrameHistory.History.PairUp | native_stack/tools/vla_groot.py:334-345 | an inference looks up the past frame before its own frame joins, whatever the answer |

## Left out

- Devices, sockets, files, sync and rename mechanics, CUDA streams and pinned staging: the models keep "committed or not", delivered bytes, and engine runs in stream order.
- Weak memory: atomics are sequentially consistent steps; a slot index is written as a remainder instead of a mask, which is the same for the accepted capacities.
- Rounding of doubles and floats, and values that are not finite where the code rejects them: reals stand for doubles. The cast of a plan to 4-byte floats is any function to a nearest float; the clamping in `make_plan` appears as the premise that rows are in [-1, 1].
- `ControlLoop` is about decoded packets; that decoding happens in `Wire`. Health, the clock and the received messages are inputs of an iteration. Status replies are not modelled.
- The shutdown of the recorder is modelled as the disk thread leaving when the queue is empty; manifests, file names and hashes are not modelled.
- CaptureRuns.InvOverRuns: the replacement of the recorder object by a reload, which only happens while nothing is recorded, is not modelled.
- DriveRuns.KeptUpStaysArmed: begins with the first packet taken after arming; a status request and its arrival are one step, which they are in order of the link, since the producer waits for the reply.
- The rest of the `Producer` thread (its arming loop, the state it reads from replies, its final Disarm), the Pico's lost-sensor stop, goal selection, segments and inverse kinematics of the collector: not modelled, they would add members with easier claims.
- PlanSupervisor.EndIsClose: lengths that overflow `llround`, possible only for rates far below one frame per second, are not modelled.
- ImuParser.DeviceTimesAdvance: the host time of a sample and the rounding of the squared norm are not modelled; extended times are unbounded.
- ValvePulse.ExcessGrowsSlowly: `pow` is any monotone curve that keeps [0, 1] and 0, for `MovesIff` and `FullCommandIsTheEnd` also one that keeps 1 and is positive above 0, and the dither sine is any value in [-1, 1].
- PolicyTrace.PolicyIsTraced: engines work on word sequences of any length; the sizes of the device buffers are not modelled.
- PolicyRuntime.Runtime.SetPrompt: of throws half way only the rotary lookups are modelled, not failures of the device; masks, rotary tables and prompt rows are uninterpreted functions of the token count and the tokens; the offsets of style rows are (step, site) pairs.
- Coverage.InvOverRuns: a run ends where the code would call its clamp with the bounds the wrong way round; what happens after that is undefined in the code and not modelled.
- PidTelemetry.RowsGetTheirOwnTelemetry: a frame is stored in one step and the counters do not wrap; word-by-word copies and wrapping are treated for the same ring in `SpscRing`.
- StatePrompt.Longest: text tokenization is not modelled, heads and tail are token sequences.
