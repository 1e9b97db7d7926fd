# Verified model of the video-analytics pipeline

The pipeline reads cameras (ingest), stores frames in a shared-memory ring, detects objects (inference),
follows them over time (tracking) and raises alerts (events). This project models the parts whose
correctness is hard to see by reading one function, and proves what they promise:

- **Tracking.** One frame of ByteTrack as a function on values (`TrackerModel`), the invariant it keeps
  (`TrackerRounds`, `TrackerPhases`, `TrackerInvariant`), who gets which detection (`TrackerMatching`), what a
  frame makes of every track and every list (`TrackerFates`), what follows for whole runs (`TrackerRuns`,
  `TrackerLabels`; ages and list sizes in `TrackerAges` and `TrackerCrowds`, the filters in `TrackerFilters`), track objects and list-building loops that compute exactly that function in place
  (`Tracks`, `TrackLoops`, `ByteTracker`), the per-frame id list (`TrackAdapter`) and many streams sharing
  one id counter (`TrackerEngine`). `Assignment` covers both assignment paths, `Kalman` the full
  8 x 8 filter, `Geometry` the intersection over union.
- **Frame store.** The ring as a transition system, one memory access a step, with crashing writers and
  any number of C++ and Python readers (`SharedRing`, `SharedRingSafety`, `SharedRingRuns`); what
  whole calls answer and leave behind (`SharedRingCalls`, `SharedRingWrites`); the attach handshake (`Handshake`).
- **Queue and workers.** The drop-oldest queue (`FrameQueue`), the worker pool around its condition
  variable (`WorkerPool`), why 80 queued packets are safe against 100 ring slots (`RingLag`), and the
  reconnecting client (`TrackingClient`).
- **Alerts.** Suspicion per track (`Suspicion`), the event engine (`AlertEngine`), its runs (`AlertRuns`), and
  the delivery of what is due (`AlertDelivery`).
- **Detector geometry.** Decoding and non-maximum suppression (`Nms`), the letterbox and its inverse
  (`Letterbox`).

`dafny verify dfyconfig.toml` checks everything.

## How the model reads

- Floats are reals; pixels are opaque numbers. Code outside the repository enters as a value with a
  contract: the SciPy solver (a cheapest complete matching of the smaller side), numpy's `argsort` (every
  cell, cheapest first) and `linalg.solve` (solves systems with an inverse), `std::sort` (a permutation in falling
  confidence). Clocks, channel states, capture stamps and detector results are parameters. Random alert ids
  are consecutive fresh numbers.
- A track id stands for its track object. `TrackerModel.Heap` holds the fields of every track ever spawned;
  the object level keeps a ghost registry from ids to objects and is proved equal to it, frame by frame.
- Histories (`ver` and `log` in the ring, `serial` in the pool, `history` in the queue) are kept only to
  state properties.

## Where the code differs from what one might expect

- A lost track is filtered against the removed list of the frame before, so it stays listed as lost for one
  more frame in state Removed and can be matched again there. The invariant says exactly when. The loss is
  aged from the frame after it, so with `max_time_lost` 0 a track still survives one frame.
- The ages of lost tracks are bounded exactly when no frame has more than 1000 detections, the length of the
  removed list (`TrackerAges.RunKeepsAges`, `TrackerCrowds.AgesBoundedIff`): of more tracks overdue at once,
  the removed list forgets some, and those stay on the lost list. Everything else the tracker keeps, it keeps
  for frames of any size.
- The Kalman covariances of all tracks stay positive definite in every run exactly when the match gate
  is below 1 (`TrackerFilters.FiltersDefiniteIff`; the default is 0.8): a track predicted at height 0 or below
  overlaps nothing, so a gate below 1 never lets it be measured. The filter alone, called in any order, can
  be measured at height 0, where the measurement noise is 0 (`Kalman.RunStaysHealthy` has the exact
  condition). The innovation matrix stays invertible in every case.
- `getFrame` of the C++ side answers a request for frame 0 of a never-written slot with an empty image; the
  Python reader does not. Ingest numbers frames from 1, so its own requests never meet this.
- A stream id longer than 31 bytes is stored cut, and never found again under its own name: its readers miss
  and each of its writes claims another row (`SharedRingWrites.FoundIffNameFits` has the exact condition).
- The comment in `alert_engine.py:52-54` speaks of cooldown / interval evidence records for an alert; the
  code saves strictly fewer.
- The comment in `rtsp_reader.cpp:123` says frames are scaled down; small camera frames are scaled up.
- `TrackingClient::start` on top of an open stream can leave the client connected without a stream, when
  the channel is ready but yields no new one; `TrackingClient.AfterOkIff` states this as the only exception,
  and `TrackingClient.StartedTwice` reaches it.

## Premises

Stores become visible in program order (sequential consistency or x86-TSO). One live writer per stream; stream
ids of at most 31 bytes without NUL; fewer than 2^31 writes to a slot during one read of it. Reading a
published id is one step, as is storing it into a reserved row, which nobody else looks at. Critical sections
under a mutex are one step. Queues have room for at least one item.
Track ids are taken atomically. In `RingLag`, the writes of a stream succeed and its frame ids are consecutive.

## Model

| member | source | states |
|---|---|---|
| Assignment.LinearAssignmentSound | services/tracking_service/byte_tracker.py:241-262 | on the SciPy path and on the greedy path: a gated matching, leftovers exactly the unused rows and columns, and no admissible pair left with both ends free |
| Assignment.ScipyIsBest | services/tracking_service/byte_tracker.py:248-253 | clipping above the gate, solving and filtering gains at least as much below the gate as any gated matching |
| Assignment.ScipyIsMaximal | services/tracking_service/byte_tracker.py:248-253 | the filtered solution leaves no admissible pair with both ends free |
| Assignment.GreedyAssignment | services/tracking_service/byte_tracker.py:226-238 | the scan with used-row and used-column sets returns a maximal gated matching, the one its specification function picks |
| Assignment.GreedyIsMaximal | services/tracking_service/byte_tracker.py:226-238 | stopping at the first cell above the gate loses no admissible pair |
| Assignment.AtLeastHalfOfAny | services/tracking_service/byte_tracker.py:226-262 | a maximal gated matching has at least half the size of any gated matching |
| Geometry.IouSymmetric | services/inference_service/src/nms.cpp:15-31 | IoU does not depend on the order of the boxes |
| Geometry.IouInUnit | services/tracking_service/byte_tracker.py:204-217 | IoU of well-formed boxes lies in [0, 1] |
| Geometry.IouSelf | services/inference_service/src/nms.cpp:15-31 | a box with area has IoU 1 with itself |
| Geometry.IouInvariant | services/inference_service/src/nms.cpp:12-14 | a uniform scale and a shift leave IoU unchanged |
| Geometry.IouIsSharedOverCovered | services/inference_service/src/nms.cpp:15-31 | IoU is the area of the box of common points over the area the two boxes cover together |
| Geometry.IouOfApart | services/tracking_service/byte_tracker.py:204-217 | boxes without a common point have IoU 0 |
| Geometry.RoundHalves | services/inference_service/src/nms.cpp:72-75 | `lround`: halves go away from zero on both sides |
| Kalman.PredictBlocks | services/tracking_service/byte_tracker.py:51-67 | the 8 x 8 matrix products of predict keep the four position-velocity blocks decoupled and act on each as the 2 x 2 formula |
| Kalman.CorrectBlocks | services/tracking_service/byte_tracker.py:81-89 | the full matrix update keeps the blocks decoupled and acts on each as the scalar-gain formula |
| Kalman.GainOfSolver | services/tracking_service/byte_tracker.py:83-85 | solving S K' = H P' for a decoupled state gives P over the innovation, coordinate by coordinate |
| Kalman.UpdateHealthy | services/tracking_service/byte_tracker.py:81-89 | invertible innovation; gains in [0, 1]; the updated coordinate between prediction and measurement; no variance grows; definite exactly if it was and the predicted height is not 0 |
| Kalman.DefiniteByBlocks | services/tracking_service/byte_tracker.py:23-89 | a decoupled 8 x 8 covariance is positive definite, as a quadratic form, if and only if its four blocks are |
| Kalman.RunStaysHealthy | services/tracking_service/byte_tracker.py:36-89 | any sequence of predictions and updates keeps the innovation invertible and the covariance decoupled, and positive definite exactly when no measurement since the last prediction met height 0 |
| Kalman.SingularRunExists | services/tracking_service/byte_tracker.py:51-89 | the exception of `RunStaysHealthy` is met: a sequence of calls of the filter alone, outside the tracker, after which the covariance is not positive definite |
| Kalman.PredictedBlock | services/tracking_service/byte_tracker.py:51-67 | prediction of each coordinate's variances in closed form, with its noise: 1/20 and 1/160 of the height, constant for the aspect |
| Kalman.FirstGains | services/tracking_service/byte_tracker.py:23-89 | the first correction of a new track takes over 105/121 of the deviation in centre and height, and 2000001/102000001 in the aspect, whatever the size of the box |
| TrackLists.Filter | services/tracking_service/byte_tracker.py:401 | a list comprehension keeps exactly the matching members, without adding repetitions |
| TrackLists.FilterPicks | services/tracking_service/byte_tracker.py:401 | the kept members are those at increasing positions, exactly the ones that match |
| TrackLists.Joint | services/tracking_service/byte_tracker.py:265-274 | `joint_stracks` holds exactly the members of both lists, each new one once |
| TrackLists.Sub | services/tracking_service/byte_tracker.py:277-281 | `sub_stracks` holds exactly the members of the first list not in the second, each once |
| TrackerRounds.RoundFacts | services/tracking_service/byte_tracker.py:344-354 | one association round: every track is either given one of the offered detections, none given twice, or left alone and listed; who is updated and who brought back |
| TrackerPhases.ConfirmedFacts | services/tracking_service/byte_tracker.py:344-372 | both rounds over confirmed and lost tracks: who was matched, who is newly lost, and that no two tracks hold one detection of the frame |
| TrackerPhases.TentativeFacts | services/tracking_service/byte_tracker.py:374-384 | unconfirmed tracks are confirmed by a match and removed without one |
| TrackerPhases.SpawnFacts | services/tracking_service/byte_tracker.py:386-392 | new tracks take consecutive fresh ids and leftover detections of their own |
| TrackerInvariant.FrameSettles | services/tracking_service/byte_tracker.py:315-398 | after matching, births and ageing: what became of every tracked, lost and new track |
| TrackerInvariant.StepKeepsInv | services/tracking_service/byte_tracker.py:315-413 | one frame keeps the invariant: tracked ones are Tracked and matched in the current frame, unconfirmed ones born in it, lists disjoint and without repetition, lost ones confirmed, last matched earlier and in state Lost or Removed, no two listed tracks sharing frame and detection, the lost list ordered by last match, 1000 removed at most |
| TrackerRuns.RunKeepsInv | services/tracking_service/byte_tracker.py:315-413 | the invariant after every frame of every run, for frames of any size |
| TrackerRuns.IdsNeverReused | services/tracking_service/byte_tracker.py:120-123 | an id first seen later in a run is larger than every id any earlier state knew |
| TrackerRuns.NoDuplicatesLeft | services/tracking_service/byte_tracker.py:284-297 | no kept tracked track nearly coincides with a kept lost one; a track goes if and only if it nearly coincides with one of the other kind that is older, or as old and lost |
| TrackerRuns.FrameLeavesNoDuplicates | services/tracking_service/byte_tracker.py:405-411 | after every frame, from any state, no tracked track nearly coincides with a lost one |
| TrackerRuns.FrameReturns | services/tracking_service/byte_tracker.py:413 | a frame returns exactly the tracked tracks that started before it, in the first frame all of them, each once and in list order |
| TrackerRuns.RunReturns | services/tracking_service/byte_tracker.py:413 | the same for the answer to the last frame of any run |
| TrackerAges.StepKeepsAges | services/tracking_service/byte_tracker.py:394-411 | with at most 1000 detections a frame, one frame keeps: lost tracks are listed for their grace and one frame more, Removed and listed as removed exactly in that last frame |
| TrackerAges.AfterAnyRun | services/tracking_service/byte_tracker.py:394-413 | after any run: states of tracked and lost tracks, ids distinct, no two held tracks sharing frame and detection, at most D tracked and 1000 removed; with D up to 1000 also the ages, and at most D times (grace + 1) lost |
| TrackerAges.TrackedBound | services/tracking_service/byte_tracker.py:400-411 | at most as many tracked tracks as a frame has detections |
| TrackerAges.LostBound | services/tracking_service/byte_tracker.py:394-407 | at most D times (grace + 1) lost tracks |
| TrackerCrowds.LargerFramesFail | services/tracking_service/byte_tracker.py:394-411 | for every configuration and every D above 1000, a run with D detections in its first frame after which a lost track has outstayed its grace |
| TrackerCrowds.AgesBoundedIff | services/tracking_service/byte_tracker.py:394-411 | the ages are bounded in all runs of at most D detections a frame if and only if D is at most 1000 |
| TrackerFilters.FiltersStayHealthy | services/tracking_service/byte_tracker.py:126-165 | with detections of positive height, no update of a whole run meets a singular innovation matrix, whatever the gate |
| TrackerFilters.MatchedAreTall | services/tracking_service/byte_tracker.py:344-346 | a gate below 1 matches only tracks predicted at a positive height |
| TrackerFilters.FiltersStayDefinite | services/tracking_service/byte_tracker.py:315-413 | with a match gate below 1, every covariance of every run is positive definite and every tracked track has a box of positive height |
| TrackerFilters.OpenGateFails | services/tracking_service/byte_tracker.py:344-354 | with a gate of 1 or more, a run of three frames that leaves a covariance not positive definite |
| TrackerFilters.FiltersDefiniteIff | services/tracking_service/byte_tracker.py:344-354 | positive definite covariances in all runs if and only if the match gate is below 1 |
| TrackerFilters.NewTrackHasItsBox | services/tracking_service/byte_tracker.py:132-141 | a new track has exactly the box of its detection |
| TrackerFilters.PredictedMoves | services/tracking_service/byte_tracker.py:126-130 | prediction moves each coordinate by its velocity; a coasting track keeps its height and loses its height velocity |
| TrackerFilters.NewTrackStandsStill | services/tracking_service/byte_tracker.py:126-141 | a new track is first looked for where it was found |
| TrackerMatching.FrameAssociates | services/tracking_service/byte_tracker.py:315-392 | in every frame: strong detections within the match gate and weak ones within 0.5 go to confirmed tracks, weak ones only to tracked ones; nothing left over still fits; unconfirmed tracks hold strong ones within 0.7; every detection at least 0.1 above the threshold is held in the end, and only such ones start tracks |
| TrackerFates.TracksAfter | services/tracking_service/byte_tracker.py:315-413 | what a frame makes of every track, field by field: a matched one is predicted (unless unconfirmed), corrected by the detection it holds, labelled by it, keeps its start and counts its frames; an unmatched one keeps all but its prediction and its state, Lost, or Removed if unconfirmed or past its grace; tracks on no list stay as they were; new ones take consecutive ids and start from their detection |
| TrackerFates.ListsAfter | services/tracking_service/byte_tracker.py:400-411 | the tracked list holds exactly the matched and new tracks that do not lose to a missing one; the lost list exactly the missing ones, not on the removed list before, that do not lose to a matched one |
| TrackerFates.RemovedAfter | services/tracking_service/byte_tracker.py:403-411 | the removed list takes on exactly the unconfirmed tracks not matched and the lost ones past their grace, and keeps its last 1000 entries |
| TrackerFates.OrderAfter | services/tracking_service/byte_tracker.py:400-402 | the tracked list keeps the old order, then the new tracks by id, then the ones found again |
| TrackerLabels.LabelsFollowDetections | services/tracking_service/byte_tracker.py:143-165 | after any run, tracks matched in the last frame carry the class and score of the detection they hold |
| Tracks.STrack.Activate | services/tracking_service/byte_tracker.py:132-141 | a detection becomes a track with the next id, confirmed only in frame 1 |
| Tracks.STrack.ReActivate | services/tracking_service/byte_tracker.py:143-154 | the whole new state of a track brought back |
| Tracks.STrack.Update | services/tracking_service/byte_tracker.py:156-165 | the whole new state of an updated track |
| Tracks.STrack.Predict | services/tracking_service/byte_tracker.py:126-130 | prediction in place, height velocity frozen while coasting |
| Tracks.MultiPredict | services/tracking_service/byte_tracker.py:125-130 | the loop over track objects changes exactly the listed ones, each as predicted |
| Tracks.ApplyEach | services/tracking_service/byte_tracker.py:347-354 | the loop over matches updates or brings back the matched objects and lists them in order |
| TrackLoops.MarkLost | services/tracking_service/byte_tracker.py:368-372 | leftovers not yet lost are marked and listed |
| TrackLoops.AgeOut | services/tracking_service/byte_tracker.py:394-398 | exactly the overdue lost tracks are marked removed and listed |
| TrackLoops.JointStracks | services/tracking_service/byte_tracker.py:265-274 | the loop with its dictionary of known ids computes the joined list |
| TrackLoops.SubStracks | services/tracking_service/byte_tracker.py:277-281 | building, popping and listing an ordered dictionary computes the difference |
| TrackLoops.FindDuplicates | services/tracking_service/byte_tracker.py:285-294 | the scan over close pairs marks exactly the positions that lose to some close track |
| TrackLoops.RemoveDuplicates | services/tracking_service/byte_tracker.py:284-297 | both lists without the marked positions |
| TrackLoops.MatchStage | services/tracking_service/byte_tracker.py:344-354 | distances, assignment, updates and leftovers of one round, on objects |
| TrackLoops.SpawnEach | services/tracking_service/byte_tracker.py:386-392 | detections strong enough become registered tracks with fresh ids |
| ByteTracker.MatchPool | services/tracking_service/byte_tracker.py:344-372 | both rounds over the pool, in place |
| ByteTracker.MatchUnconfirmed | services/tracking_service/byte_tracker.py:374-384 | the round over unconfirmed tracks, in place |
| ByteTracker.MergeLists | services/tracking_service/byte_tracker.py:400-411 | the list bookkeeping at the end of a frame, on objects |
| ByteTracker.BYTETracker.Update | services/tracking_service/byte_tracker.py:315-413 | the tracker object after a frame is exactly what the frame function computes from its old state, and so is the returned list (`TrackerRuns.FrameReturns` says which tracks it holds) |
| TrackAdapter.ByteTrackTracker.Update | services/tracking_service/byte_tracker.py:428-434 | the adapter's id list is what its online tracks write at their detections |
| TrackAdapter.IdsAligned | services/tracking_service/byte_tracker.py:428-434 | ids aligned with the detections; exactly the tracked tracks that started before the frame (in the first frame all) are named, each once and at its own detection; nothing lost to the range guard |
| TrackAdapter.TrackedHoldOwn | services/tracking_service/byte_tracker.py:428-434 | right after a frame every online track holds a detection of that frame, its own |
| TrackerEngine.StreamIsolated | services/tracking_service/tracker_engine.py:30-35 | whatever the interleaving, a stream's tracker is the one its own frames alone would have produced; others only take ids |
| TrackerEngine.EveryStreamKeepsInv | services/tracking_service/tracker_engine.py:37-56 | so every stream keeps the tracker's invariant |
| TrackerEngine.IdsUniqueAcrossStreams | services/tracking_service/byte_tracker.py:103-123 | no id ever names tracks of two streams |
| TrackerEngine.TrackingEngine.Update | services/tracking_service/tracker_engine.py:37-63 | one stream's tracker moves on, the result is aligned with the messages, each message gets its id |
| SharedRingSafety.NextKeepsInv | common/shm.cpp:155-238 | every step of every interleaving keeps the invariant, and only adds: states and versions grow, published ids and completed writes stay |
| SharedRingSafety.TableStep | common/shm.cpp:155-174 | one access of a registering writer keeps: one ready row per id, no row reserved twice |
| SharedRingSafety.ReaderAdvances | services/tracking_service/shm_reader.py:118-155 | one access of a reader: what it has read is what the slot shows, as long as the slot has not moved on |
| SharedRingRuns.HitsAreWhole | common/shm.cpp:211-238 | torn-read safety: whatever a reader returns, in any run, is one completed write of its stream and id, except the empty image of a never-written slot for frame 0 in C++ |
| SharedRingRuns.RowsAreStable | common/shm.cpp:155-174 | row states only grow, a published id never changes, ready rows have distinct ids, streams have distinct rows |
| SharedRingRuns.GivesUpOnlyWhenFull | common/shm.cpp:163-173 | null is returned only when every row is claimed and none is the stream's own |
| SharedRingRuns.FinishedWriteHeals | common/shm.cpp:192-207 | in any interleaving, whatever state a slot was left in, the store that ends a write leaves it stable and showing the frame of that write, at a newer version |
| SharedRingRuns.WriteHeals | common/shm.cpp:192-207 | a write left to run does finish, and so heals its slot |
| SharedRingRuns.QuietRead | common/shm.cpp:223-236 | an undisturbed read of a stable slot returns its frame if the id matches and nothing otherwise, in C++ and in Python |
| SharedRingRuns.NeverWrittenFrameZero | services/tracking_service/shm_reader.py:127-155 | asked for frame 0 of a never-written slot, C++ returns an empty image and Python gives up |
| SharedRingCalls.QuietFind | common/shm.cpp:211-217 | a search finds the first ready row of its stream and polls it |
| SharedRingCalls.QuietUnknown | common/shm.cpp:211-217 | without a ready row of the stream a search ends in a miss |
| SharedRingCalls.QuietCall | common/shm.cpp:211-238 | a whole undisturbed call returns the frame its slot shows if that is the one asked for, and misses otherwise; a slot left half written is missed |
| SharedRingCalls.PollsOn | services/tracking_service/shm_reader.py:127-133 | at a slot being written C++ looks four times and Python six, then each gives up |
| SharedRingCalls.CallAnswers | common/shm.cpp:211-238 | in any reachable state, a whole undisturbed call answers with the last completed write of the slot if it was of the frame asked for, and otherwise with a miss (but for frame 0 of a slot never written) |
| SharedRingCalls.LatestIsWritten | common/shm.cpp:207 | in every run, the newest frame a row names has been written completely |
| SharedRingWrites.WholeWrite | common/shm.cpp:178-209 | a whole undisturbed call with an admissible image, unless the table is full: the frame is in the stream's own row, else in the first free one, the row names it, and nothing else has changed |
| SharedRingWrites.RefusedWrite | common/shm.cpp:178-187 | any other image, and a full table, leave everything as it was |
| SharedRingWrites.ReadableUntilLapped | common/shm.cpp:178-238 | in any run, a frame written whole is returned by an undisturbed call at any later time until a store of a write with the same id modulo 100 |
| SharedRingWrites.FoundIffNameFits | common/shm.cpp:163-173 | a stream that has just registered is found under its name if and only if the name has at most 31 bytes |
| Handshake.PassedPeersAgree | common/shm.cpp:57-146 | from a fresh or a stale segment: peers that got through at any moments of any interleaving agree on the transport and on the layout version, and saw a complete header |
| Handshake.StepKeepsHeader | common/shm.cpp:113-146 | one step keeps the header consistent; once published, header and transport never change |
| Handshake.AbortsOnlyOnMismatch | common/shm.cpp:113-146 | a creator aborts only at a foreign header, another layout version, or another transport selected before |
| Handshake.MatchingPeerPasses | common/shm.cpp:57-146 | a peer of the stamped layout whose transport is selected, or the first to select, gets through when it is let run |
| FrameQueue.FrameQueue.Push | services/inference_service/src/frame_queue.hpp:51-65 | at capacity the oldest goes; removed items and contents together stay the push history |
| FrameQueue.FrameQueue.TakeFront | services/inference_service/src/frame_queue.hpp:80-95 | nothing after shutdown; otherwise the oldest item neither popped nor dropped |
| FrameQueue.FrameQueue.Shutdown | services/inference_service/src/frame_queue.hpp:97-104 | only the flag changes |
| WorkerPool.NoLostWakeup | services/inference_service/src/frame_queue.hpp:51-104 | while packets are queued, sleeping workers mean at least as many notified ones as packets; nobody sleeps after shutdown and nobody leaves before it; contents are the end of the push history, the counter counts evictions; for any capacity from 1 |
| WorkerPool.EachPacketOnce | services/inference_service/src/inference_worker.cpp:33-84 | every packet is in exactly one of evicted, queued, held, stale, unavailable, published, the last with its fields unchanged |
| WorkerPool.HandledAsDue | services/inference_service/src/inference_worker.cpp:44-83 | in every run: a packet is stale if and only if it was handled with a limit set, a stamp above 0 and more than the limit passed; unavailable if and only if it was handled otherwise and its frame was not found; published if and only if it was handled otherwise and found |
| WorkerPool.PushedAsGiven | services/inference_service/src/frame_queue.hpp:51-65 | the push history is what the pushes gave, field by field and in order |
| WorkerPool.OneWorkerInOrder | services/inference_service/src/inference_worker.cpp:37-83 | a single worker publishes in push order |
| WorkerPool.RunInvariants | services/inference_service/src/inference_worker.cpp:33-84 | the invariants behind these, with per-worker order, in every run of any number of workers |
| WorkerPool.NothingAfterShutdown | services/inference_service/src/frame_queue.hpp:84-89 | after shutdown no worker obtains a packet |
| RingLag.PoppedFrameIsThere | services/inference_service/src/main.cpp:67 | a packet popped while its stream has at most 20 frames begun but not queued finds exactly its frame in its slot |
| RingLag.FrameIsThereIff | common/shm.hpp:12 | whatever the lag: the frame is there if and only if the write 100 ids later has not begun |
| RingLag.QueuedIsRecent | services/inference_service/src/frame_queue.hpp:51-65 | a queued packet is at most 80 notifications behind its stream, for any mix of streams and evictions |
| RingLag.EvictsAtEighty | services/inference_service/src/main.cpp:67 | a notification evicts another exactly when 80 are queued |
| RingLag.RunInvariants | services/ingest_service/src/frame_writer.hpp:39-42 | ring first, notification after: ids in the queue in order, the last 100 begun frames in their slots |
| TrackingClient.TrackingClient.Open | services/inference_service/src/tracking_client.cpp:32-59 | the whole new state, and whether a stream is open |
| TrackingClient.TrackingClient.Send | services/inference_service/src/tracking_client.cpp:79-121 | the whole new state after a send |
| TrackingClient.AfterOkIff | services/inference_service/src/tracking_client.cpp:21-77 | connected exactly with a stream, reconnects one less than openings, backoff doubled per failure: kept by every call but one |
| TrackingClient.StartedTwice | services/inference_service/src/tracking_client.cpp:21-59 | the exception is reached by starting twice |
| TrackingClient.StoppedStaysStopped | services/inference_service/src/tracking_client.cpp:79-84 | after `stop`, no later send opens a stream or writes to one |
| TrackingClient.RunOk | services/inference_service/src/tracking_client.cpp:21-135 | the same after any sequence of calls with `start` first |
| TrackingClient.RetriesInTime | services/inference_service/src/tracking_client.cpp:61-65 | a failed send keeps off the channel for a gap of 200 to 5000 ms and no longer |
| TrackingClient.Gaps | services/inference_service/src/tracking_client.cpp:61-65 | the gaps of failures in a row: 200, 400, 800, 1600, 3200, and 5000 ms from then on |
| Suspicion.TrackState.Observe | services/event_service/suspicion.py:45-56 | the whole new state of an observed track |
| Suspicion.EwmaIsWeightedSum | services/event_service/suspicion.py:46-47 | the average is the sum of all signals weighted by age, and lies in [0, 1] |
| Suspicion.Hysteresis | services/event_service/suspicion.py:51-56 | raised means above CLEAR_AT, not raised means below RAISE_AT |
| Suspicion.RaisedIff | services/event_service/suspicion.py:45-56 | a track is raised if and only if its average once reached 0.35 and has stayed above 0.15 ever since |
| Suspicion.HistoryIsRecent | services/event_service/suspicion.py:45-56 | a track keeps its last 32 observations |
| Suspicion.RaiseLastsThree | services/event_service/suspicion.py:45-56 | a raise lasts at least three observations |
| Suspicion.SixSilentClear | services/event_service/suspicion.py:45-56 | six observations without signal always clear a track |
| Suspicion.FiveSilentMayNot | services/event_service/suspicion.py:45-56 | five are not always enough: a fresh track still raised after seven sure observations and five silent ones |
| Suspicion.NeedsTwoShoplifting | services/event_service/suspicion.py:45-56 | a fresh track is not raised before its second Shoplifting observation |
| Suspicion.RaiseIsBacked | services/event_service/suspicion.py:51-56 | a raised track was raised at the recorded instant and stayed above CLEAR_AT after every observation since |
| AlertEngine.SuspicionTracker.Frame | services/event_service/suspicion.py:68-89 | the loop over detections updates each tracked one's own object in order, and lists those touched |
| AlertEngine.SuspicionTracker.Prune | services/event_service/suspicion.py:91-96 | exactly the stale tracks go |
| AlertEngine.EventEngine.Judge | services/event_service/alert_engine.py:88-111 | rules, dedupe, cooldown and throttle over touched tracks and rules, in order |
| AlertEngine.EventEngine.Process | services/event_service/alert_engine.py:64-120 | the engine object, its alerts and its evidence after a call are what the function on values computes |
| AlertRuns.CooldownSpacing | services/event_service/alert_engine.py:87-116 | with timestamps falling back by at most a skew, two alerts of one key are at least cooldown minus skew apart |
| AlertRuns.PruningUnobservable | services/event_service/alert_engine.py:148-153 | while timestamps never go back, every call gives the same alerts and evidence as without pruning of fire records |
| AlertRuns.EvidenceBound | services/event_service/alert_engine.py:99-111 | evidence linked to an alert, times the interval, stays below the cooldown, and belongs to a fired alert of its key, for any order of timestamps |
| AlertRuns.AlertsAreBacked | services/event_service/alert_rules.py:78-95 | every alert and every piece of evidence is backed by a span of at least the sustain time in which every observation stayed above CLEAR_AT |
| AlertDelivery.DueAlertsAreServed | services/event_service/alert_engine.py:64-120 | the converse, in every run: if a call observes a track that its observations leave raised for at least the sustain time of a rule, the call delivers an alert of that key, unless one fired less than a cooldown ago; then evidence is saved if and only if the throttle interval has passed since the last record of that alert |
| AlertDelivery.AgesAreStamped | services/event_service/alert_engine.py:64-86 | alerts and evidence carry how old their frame was, never negative with a capture stamp and -1 without |
| AlertDelivery.BurstsChangeNothing | services/event_service/alert_engine.py:64-86 | with capture stamps, the moments of processing decide nothing but those ages: a backlog in a burst gives the same alerts and evidence |
| AlertDelivery.CleanUpForgets | services/event_service/alert_engine.py:112-116 | a clean-up, due more than 5 s after the last, leaves fire records younger than the cooldown and tracks seen within 30 s |
| Nms.BestClass | services/inference_service/src/nms.cpp:50-60 | the first class with the greatest positive score |
| Nms.Decode | services/inference_service/src/nms.cpp:41-78 | one candidate per anchor above the threshold, in anchor order |
| Nms.DecodedAre | services/inference_service/src/nms.cpp:41-78 | the candidates are exactly the boxes of the anchors whose best class scores at least 0.25 |
| Nms.CandidatesWellFormed | services/inference_service/src/nms.cpp:62-78 | where sizes are not negative, candidates have well-formed boxes and overlaps in [0, 1] |
| Nms.Suppress | services/inference_service/src/nms.cpp:86-109 | the loop over flags keeps exactly the boxes no earlier kept box of their class overlaps too much |
| Nms.GreedySetIff | services/inference_service/src/nms.cpp:86-107 | a set of boxes has that property if and only if it is the kept one: it exists and is unique |
| Nms.KeepIsUnique | services/inference_service/src/nms.cpp:86-107 | any set with that property agrees with the kept one, box by box |
| Nms.KeptApartAndCovering | services/inference_service/src/nms.cpp:98-106 | kept boxes of a class do not overlap too much; every dropped one is covered by a kept one at least as confident |
| Nms.ClassesAreIndependent | services/inference_service/src/nms.cpp:102-103 | restricting the result to a class is running on that class alone |
| Nms.Idempotent | services/inference_service/src/nms.cpp:86-109 | running on the result changes nothing |
| Nms.ScaleInvariant | services/inference_service/src/nms.cpp:12-14 | suppression commutes with a uniform scale and a shift |
| Nms.AnchorOrderIrrelevant | services/inference_service/src/nms.cpp:80-84 | with distinct confidences the result depends neither on anchor order nor on the sort |
| Nms.ChosenIsKept | services/inference_service/src/nms.cpp:86-109 | the index form and the list form of suppression agree |
| Letterbox.IngestFits | services/ingest_service/src/rtsp_reader.cpp:125-133 | the published frame fits 640 x 640, fills one side, and fits a ring slot |
| Letterbox.IngestedIsNonEmptyIff | services/ingest_service/src/rtsp_reader.cpp:125-133 | the resized size is non-empty exactly up to a side ratio of 1280 |
| Letterbox.PaddingTotals | services/inference_service/src/preprocess.cpp:49-66 | borders fill up exactly 640, centred, and equal what postprocess removes |
| Letterbox.IngestNeverRescaled | services/inference_service/src/preprocess.cpp:28-38 | ingest frames keep their pixels |
| Letterbox.Postprocess | services/inference_service/src/postprocess.cpp:17-32 | every detection's corners are rewritten in place, nothing else |
| Letterbox.RoundTripError | services/inference_service/src/postprocess.cpp:26-32 | frame to input and back moves a pixel by at most 1/(2r) + 1/2 and stays inside |
| Letterbox.IngestRoundTrip | services/inference_service/src/postprocess.cpp:17-32 | on ingest frames every box comes back exactly, all four sides |
| Letterbox.BoxRoundTrip | services/inference_service/src/postprocess.cpp:17-32 | on any frame each of the four sides of a box comes back within 1/(2r) + 1/2 of where it was |
| Letterbox.LargeFramesFill | services/inference_service/src/preprocess.cpp:28-38 | a frame too large for the input is scaled to fill one side |
| Letterbox.BoxesStayInFrame | services/inference_service/src/postprocess.cpp:26-32 | mapped boxes lie inside the frame with corners in order |

## Left out

- TrackerEngine.TrackingEngine.Update: the dictionary holds tracker values instead of tracker objects, so sharing of one tracker object between streams is not modelled; the tracker object itself is `ByteTracker.BYTETracker`.
- AlertEngine.EventEngine.Process: fire records are values in the dictionary instead of objects, and sinks, logs, annotation and locking are not modelled.
- Kalman.UpdateHealthy: asks for a measured height above 0; a flat detection has an infinite aspect ratio in numpy, which reals do not have (`TrackerModel.Xyah` gives it aspect 0).
- SharedRingRuns.HitsAreWhole: weak memory orders are not modelled, so nothing is claimed for machines that reorder stores.
- RingLag.PoppedFrameIsThere: a frame whose resize fails skips an id, and a full stream table skips the write; consecutive ids and successful writes are premises.
- WorkerPool.EachPacketOnce: detector results, metrics and latencies are not modelled.
- TrackingClient.RunOk: message contents and the 2 s grace wait of `start` are not modelled.
- More than one live writer of a stream, camera administration, and frame-id restarts.
- Float rounding, 32-bit overflow of box coordinates, and NaN scores.
- Mapping and unlinking of the segment, and its size check.
- RTSP capture, image resizing and colour conversion, ONNX and TensorRT sessions, gRPC channels, protobuf, sinks, databases, dashboards, metrics and configuration parsing: I/O around the modelled core.
