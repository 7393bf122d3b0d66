# Streamer core: a verified model

This project models the timing arithmetic, bounded-queue protocols and lifecycle state machines of the C++ streaming
pipeline, and proves what they promise over every input and every interleaving.

Where the source changes objects in place, the model has a class with the same fields. Each method is proved against a
function of the old state, and the promises are proved about that function. Where several threads meet, each locked
region is one step of a state machine, work done after a lock is released (such as a notification) is a step of its own,
and the theorems hold for every sequence of steps. In the control thread of the input proxy three steps join regions that
follow one another: creating an input and announcing the attempt, describing an opened input and announcing it, and
cancelling, closing and discarding an old one. FFmpeg, ZLMediaKit and CUDA appear only as parameters: the answer of a
codec, the reply of an output callback, whether a connection opens, whether a conversion throws.

Integers are mathematical. Where the source checks for overflow, the model returns an error; where it wraps (the pitch of
a GPU row) or signals with an extreme value (a rescaled timestamp), the model does the same.

`dafny verify dfyconfig.toml` checks the whole project.

| files | what they model |
|---|---|
| `TimeMath.dfy`, `Results.dfy` | `av_rescale_q`, `av_compare_ts`, checked sums, exceptions as results |
| `RealtimeTiming.dfy` | the mapping from presentation time to release time shared by both tracks |
| `FrameGrid.dfy`, `ForceFps.dfy` | the lazy frame-rate converter, and the pure function of its inputs that it refines |
| `DtsQueue.dfy`, `Interleaver.dfy`, `MediaTimestamps.dfy` | the DTS interleaver, its ten-second window, and the one millisecond shift |
| `Remuxer.dfy` | admission, draining and closing of a remux session around its one-packet handoff |
| `PacketConverter.dfy` | length-prefixed NAL units and configuration records to Annex B |
| `SyncerRules.dfy`, `SyncerTiming.dfy` | one step of the synchroniser: as functions, and on its objects |
| `SyncerContinuity.dfy`, `SyncerProgress.dfy`, `SyncerRuns.dfy`, `SyncerPictures.dfy` | what its steps and whole sessions keep |
| `SyncerClock.dfy`, `SyncerBatches.dfy`, `SyncerPlacement.dfy` | the shared clock over whole sessions, and where its steps put every frame |
| `SchedulerSlot.dfy`, `SchedulerDriver.dfy`, `Scheduler.dfy` | the driver/worker handshake, feeding that same synchroniser |
| `Queues.dfy`, `Signals.dfy` | the blocking queue, the revision signals, and event loops that sleep on them |
| `InputProxy.dfy`, `InputReconnects.dfy`, `InputProxyObject.dfy` | reconnection and looping, with a single reader that acknowledges ends |
| `Decoder.dfy`, `MediaSource.dfy`, `MediaOrder.dfy`, `MediaSourceObject.dfy` | decoder admission, the codec worker, and the dispatcher over all of them |
| `BufferPool.dfy` | the GPU block pool and its intrusive free list |

One promise turned out not to hold for every input. The interleaver measures its ten-second window on timestamps rescaled
to microseconds, and a timestamp that cannot be represented rescales to the smallest integer. If that happens to the newest
queued packet, or to the oldest while the newest lies near that smallest integer, an excess span is not seen.
`Interleaver.WindowTestCorrectIff` states exactly when the test is right on a sorted queue, `Interleaver.PopKeepsWindowIff`
what follows for the queue a pop leaves, and `Interleaver.SessionCanBreakTheWindow` gives a session of valid packets after
whose last pop the queue spans the whole 64-bit range in seconds.

A packet in Annex B form is likewise not always left alone. Length prefixes are tried first, and with a length size of
four a three-byte start code reads as the upper part of a length. `PacketConverter.ShortStartCodeIsSafeIff` says exactly
when that happens, and `PacketConverter.ShortStartCodeCanBeMistaken` gives the packets.

Nor do all fillers of a silent track start before the position that the shared clock holds. The aim of a batch is fixed
when it begins; if the other track's frames return meanwhile, the clock is at their position at once, and the batch goes on
to its aim. `SyncerBatches.SilenceIsFilledUpToALook` says what every filler is bounded by, and when that is the position;
`SyncerBatches.LaterFillerCanPassThePosition` gives a session in which it is not.

A comment in `src/streamer/remuxer/packet_interleaver.h:79-80` has the origin of the session captured before the first
pop. The caller captures it before every pop until the first one that returns packets
(`src/streamer/remuxer/remuxer.cc:412-425`), and the model follows the caller.

## Model

| member | source | states |
|---|---|---|
| TimeMath.RescaleIntegerIsRound | src/streamer/syncer/syncer_timing.cc:77-83 | the integer rescaling formula is exact rational scaling, rounded to nearest with ties away from zero |
| TimeMath.AvRescaleIsScaled | src/streamer/syncer/syncer_timing.cc:77-83 | a rescaled timestamp is the exact scaling when that is representable, and the smallest integer otherwise |
| TimeMath.Rescale | src/streamer/syncer/syncer_timing.cc:77-83 | for any target the checked rescaling gives the exact scaling whenever that lies strictly inside the 64-bit range, and reports overflow otherwise |
| TimeMath.ScaledMonotone | src/streamer/syncer/syncer_timing.cc:240-245 | rescaling never reverses two timestamps |
| TimeMath.ScaledRoundTrip | src/streamer/syncer/syncer_timing.cc:240-245 | converting there and back moves a value by at most half a unit of the coarser step plus half a unit |
| TimeMath.CompareIsInstantOrder | src/streamer/remuxer/packet_interleaver.h:49-54 | cross-multiplied comparison orders timestamps of any two time bases as the instants they denote |
| RealtimeTiming.Clock.Schedule | src/streamer/scheduler/realtime_timing.cc:35-74 | the decision and the new mapping, branch by branch, including the overflow failures |
| RealtimeTiming.ReleasedWithinWindow | src/streamer/scheduler/realtime_timing.cc:39-73 | a released frame lies between the late tolerance and the jitter margin of the mapping left behind, and a release that leaves the mapping alone finds the frame due |
| RealtimeTiming.DecidedByLead | src/streamer/scheduler/realtime_timing.cc:39-73 | unless the arithmetic fails, a frame is dropped exactly in the configured late band, waits exactly while it is early by less than the discontinuity threshold, and is released otherwise |
| RealtimeTiming.FailsExactly | src/streamer/scheduler/realtime_timing.cc:40-61 | a decision fails exactly when a difference it needs does not fit 64 bits |
| RealtimeTiming.DeadlineIsHonest | src/streamer/scheduler/realtime_timing.cc:53-56 | a deadline is strictly future, closer than the discontinuity threshold, leaves the mapping alone, and releases the frame when asked again then |
| RealtimeTiming.MappingMoves | src/streamer/scheduler/realtime_timing.cc:42-71 | the mapping rises exactly at forward discontinuities and falls exactly for frames beyond the late tolerance |
| RealtimeTiming.FailuresAndDiscards | src/streamer/scheduler/realtime_timing.cc:12-52 | overflow leaves the mapping unchanged; a frame is discarded exactly in the configured late band |
| RealtimeTiming.NoTrackIsAccelerated | src/streamer/scheduler/realtime_timing.cc:59-71 | over any run of both tracks without a forward discontinuity the mapping never rises, so no release moves earlier |
| RealtimeTiming.EveryReleaseWithinWindow | src/streamer/scheduler/realtime_timing.cc:35-74 | over any interleaved run every released frame is in the window of the mapping in force after it |
| FrameGrid.ExpandIsReference | src/streamer/filter/force_fps.cc:93-170 | consuming inputs one at a time outputs exactly the segment grids and the ends of stream |
| FrameGrid.SlotShowsFirstOrLatestEarlier | src/streamer/filter/force_fps.cc:133-167 | each tick of a segment is output once and shows the first input on it, else the latest earlier input |
| FrameGrid.SourcesInOrder | src/streamer/filter/force_fps.cc:133-167 | later ticks never show earlier inputs than earlier ticks do |
| FrameGrid.CaptionsShownOnce | src/streamer/filter/force_fps.cc:240-243 | captions stay exactly on the first copy of an image within its segment |
| ForceFps.DiscontinuityIsJump | src/streamer/filter/force_fps.cc:210-222 | the source's discontinuity test is the same as stepping back or further than a fixed number of ticks |
| ForceFps.FillersSpanAtMostHalfASecond | src/streamer/filter/force_fps.cc:210-222 | fillers between two inputs of a segment span at most half a second, and that limit is the largest such |
| ForceFps.InputsLandOnTheGrid | src/streamer/filter/force_fps.cc:47-82 | which inputs are admitted, and that each stands on the tick its timestamp scales to, exactly rounded |
| ForceFps.Converter.TryPushFrame | src/streamer/filter/force_fps.cc:47-91 | accepts exactly the admissible inputs that fit, and changes nothing otherwise |
| ForceFps.Converter.TryReadFrame | src/streamer/filter/force_fps.cc:93-170 | the loop returns what the read function returns and leaves its state |
| ForceFps.Converter.ConsumeFront | src/streamer/filter/force_fps.cc:98-168 | one turn of the loop refines one turn of the read function |
| ForceFps.Converter.Remember | src/streamer/filter/force_fps.cc:248-263 | the latest image replaces the remembered one |
| ForceFps.Converter.ClearHistory | src/streamer/filter/force_fps.cc:265-278 | the history is emptied and the queue kept |
| ForceFps.Converter.Stop | src/streamer/filter/force_fps.cc:172-181 | a stopped converter holds nothing |
| ForceFps.Converter.Reset | src/streamer/filter/force_fps.cc:183-192 | a reset converter starts from nothing |
| ForceFps.ReadTakesNextOwed | src/streamer/filter/force_fps.cc:93-170 | a read hands over the next owed output and never changes what is still owed after it |
| ForceFps.OutputDependsOnAcceptedInputsOnly | src/streamer/filter/force_fps.cc:93-170 | for every schedule of pushes and reads and every capacity the output is a prefix of the reference for the accepted inputs, and all of it once a read finds nothing |
| ForceFps.SchedulesAgree | src/streamer/filter/force_fps.cc:93-170 | two schedules that accepted the same inputs never contradict each other and agree once both are drained |
| DtsQueue.InsertAppendsToTrack | src/streamer/remuxer/packet_interleaver.h:46-57 | an upper-bound insertion appends to its own track and leaves the others alone |
| DtsQueue.EveryRunConserves | src/streamer/remuxer/packet_interleaver.h:37-78 | over every run of pushes and pops: queue sorted, every track in push order, emitted plus queued a permutation of pushed |
| DtsQueue.UnforcedRunIsSorted | src/streamer/remuxer/packet_interleaver.h:62-78 | if no pop went past full buffering, the whole emission including the flush is in global order; and only a pop that met a queue measuring more than ten seconds goes past it |
| DtsQueue.EveryPopFollowsTheRule | src/streamer/remuxer/packet_interleaver.h:62-78 | in every run a pop takes packets from the front exactly as long as it flushes, every track is buffered, or what is queued measures more than ten seconds; it fails exactly on such an excess while some track never had a packet |
| DtsQueue.EveryPushIsAnswered | src/streamer/remuxer/packet_interleaver.h:37-44 | in every run a push is accepted exactly before the flush and at or after every DTS accepted on its track |
| DtsQueue.QueueStaysWithinWindow | src/streamer/remuxer/packet_interleaver.h:62-113 | after any normal pop, of any queue, the measured window is kept and, past startup, some track has nothing queued |
| DtsQueue.EmittedAtOrAfterOrigin | src/streamer/remuxer/packet_interleaver.h:79-91 | every packet a run emits is at or after an origin packet of its own track |
| Interleaver.ComparatorIsLess | src/streamer/remuxer/packet_interleaver.h:48-55 | the comparator is the order by exact instant and then track |
| Interleaver.PacketInterleaver.Push | src/streamer/remuxer/packet_interleaver.h:37-58 | inserts at the upper bound and records the highest DTS, or rejects and changes nothing |
| Interleaver.PacketInterleaver.UpperBound | src/streamer/remuxer/packet_interleaver.h:46-55 | the binary search finds the upper-bound position |
| Interleaver.PacketInterleaver.PopReady | src/streamer/remuxer/packet_interleaver.h:62-78 | hands out exactly the packets the pop rule takes, in both startup and flush cases, or fails with the queue unchanged |
| Interleaver.PacketInterleaver.TakeReady | src/streamer/remuxer/packet_interleaver.h:70-77 | the pop loop removes exactly that many packets from the front |
| Interleaver.PacketInterleaver.FirstPackets | src/streamer/remuxer/packet_interleaver.h:81-91 | the first queued packet of each track that has one, in track order |
| Interleaver.OneShiftServesTheSession | src/streamer/remuxer/remuxer.cc:412-438 | the shift derived at the first non-empty pop rejects no later accepted DTS, nor any PTS at or after its DTS, as before the origin |
| Interleaver.QueueSpansAtMostTenSeconds | src/streamer/remuxer/packet_interleaver.h:62-113 | if the first and last packet a pop leaves are representable in microseconds, no two packets left are more than ten seconds apart, to within a microsecond |
| Interleaver.SessionKeepsTheWindow | src/streamer/remuxer/packet_interleaver.h:37-113 | in every session that pushes only packets representable in microseconds, no normal pop leaves two packets more than ten seconds apart, to within a microsecond |
| Interleaver.WindowTestCorrectIff | src/streamer/remuxer/packet_interleaver.h:101-113 | on a sorted queue the window test raises no false alarm, and answers correctly exactly when it can read the ends of the queue or there is no excess to see |
| Interleaver.PopKeepsWindowIff | src/streamer/remuxer/packet_interleaver.h:62-113 | a pop keeps the exact ten-second window whenever the ends of what it leaves are readable; with a readable front clear of the range's last ten seconds, exactly when the back is representable |
| Interleaver.WindowTestCanMiss | src/streamer/remuxer/packet_interleaver.h:62-113 | a state whose pop returns normally and leaves a queue spanning the whole 64-bit range in seconds |
| Interleaver.SessionCanBreakTheWindow | src/streamer/remuxer/packet_interleaver.h:37-113 | a session of valid packets that reaches such a state by pushes and pops that all succeed |
| MediaTimestamps.Converter.Initialize | src/streamer/remuxer/media_timestamp_converter.h:55-64 | the shift is the least nonnegative one that brings every given timestamp to zero or later |
| MediaTimestamps.Converter.ConvertPacket | src/streamer/remuxer/media_timestamp_converter.h:68-89 | both timestamps as exact rounded milliseconds plus the shift, never negative, and otherwise which failure is reported, in the order the source finds it |
| MediaTimestamps.MillisecondsAreExact | src/streamer/remuxer/media_timestamp_converter.h:76-82 | milliseconds are the exact scaling strictly inside the 64-bit range, and an overflow outside |
| MediaTimestamps.DifferencesPreserved | src/streamer/remuxer/media_timestamp_converter.h:68-89 | one shift keeps every millisecond difference, within and across tracks, and no time is negative |
| MediaTimestamps.MillisecondsInOrder | src/streamer/remuxer/media_timestamp_converter.h:76-82 | on one track a later timestamp is never earlier in milliseconds |
| MediaTimestamps.NotBeforeOrigin | src/streamer/remuxer/media_timestamp_converter.h:83-86 | a packet at or after an origin packet of its track is not rejected as before the origin |
| Remuxer.Session.Schedule | src/streamer/remuxer/remuxer.cc:383-388 | at most one processing task is requested, and none while closing |
| Remuxer.Session.Drain | src/streamer/remuxer/remuxer.cc:233-246 | closes admission and the handoff, and asks for a processing task |
| Remuxer.Session.Error | src/streamer/remuxer/remuxer.cc:346-360 | the first error of a session starts draining it, a later one changes nothing |
| Remuxer.Session.PushHandoff | src/streamer/remuxer/remuxer.cc:145-151 | a packet enters the handoff exactly when it is still open |
| Remuxer.Session.TakePackets | src/streamer/remuxer/remuxer.cc:396-423 | the locked part of processing: at most one packet moves on, ready packets come out, the flag is cleared unless something throws |
| Remuxer.Session.Close | src/streamer/remuxer/remuxer.cc:468-474 | the finish path closes admission and marks the session as closing |
| Remuxer.Session.End | src/streamer/remuxer/remuxer.cc:505-512 | the last task empties the session and clears its running flag |
| Remuxer.TakeMoves | src/streamer/remuxer/remuxer.cc:396-423 | processing neither loses nor duplicates a packet, and draining leaves the interleaver empty |
| Remuxer.EveryRunKeeps | src/streamer/remuxer/remuxer.cc:131-518 | the joint invariant of flags, tasks, packets and producers holds in every interleaving |
| Remuxer.AcceptedPacketsAreEmittedBeforeFinish | src/streamer/remuxer/remuxer.cc:383-518 | unless processing failed, accepted packets enter the interleaver once, in order, and all of them have been emitted when the closing task runs |
| Remuxer.TrueMeansAccepted | src/streamer/remuxer/remuxer.cc:131-165 | whenever a producer answers true, in this session or an ended one, its own session accepted the packet, and has emitted it once that session has stopped without a failure of processing |
| Remuxer.SessionClosesOnce | src/streamer/remuxer/remuxer.cc:390-518 | each session enters its finish path once, and a task queued behind it does nothing |
| Remuxer.NoPacketIsStranded | src/streamer/remuxer/remuxer.cc:145-164 | a packet in the handoff always has a task coming, a producer about to ask for one, or a closing session |
| Remuxer.DrainingSessionStops | src/streamer/remuxer/remuxer.cc:264-274 | once draining, the session has stopped after at most nine steps of the poller, whatever other threads do |
| Remuxer.DrainedSessionStops | src/streamer/remuxer/remuxer.cc:233-246 | a running session that is asked to drain, or whose output fails, has stopped after at most nine further steps of the poller |
| Remuxer.DrainsForCause | src/streamer/remuxer/remuxer.cc:233-360 | a session starts draining only on request, on an output error, or when processing has failed |
| Remuxer.RunningSessionAdmits | src/streamer/remuxer/remuxer.cc:131-151 | in every interleaving a running session that does not drain admits packets, and its handoff takes them |
| PacketConverter.NumberOfEncode | src/streamer/remuxer/packet_converter.cc:129-133 | reading back a big-endian length gives that length |
| PacketConverter.AvcHeaderFields | src/streamer/remuxer/packet_converter.cc:54-66 | an H.264 header is valid exactly with a clear forbidden bit, a type from 1 to 23 and a payload; which headers are errors |
| PacketConverter.HevcHeaderFields | src/streamer/remuxer/packet_converter.cc:54-67 | an H.265 header is valid exactly with a clear forbidden bit, a nonzero temporal field and a payload |
| PacketConverter.ReadLength | src/streamer/remuxer/packet_converter.cc:124-134 | the loop reads the big-endian number, or reports truncation |
| PacketConverter.LengthPrefixed | src/streamer/remuxer/packet_converter.cc:136-152 | true exactly when the whole buffer splits into length-prefixed units of legal size |
| PacketConverter.AppendNal | src/streamer/remuxer/packet_converter.cc:154-167 | appends start code and unit and moves behind it, or reports why it cannot |
| PacketConverter.Rewrite | src/streamer/remuxer/packet_converter.cc:285-292 | completes exactly on splittable buffers and yields their units in Annex B form |
| PacketConverter.ConvertVideo | src/streamer/remuxer/packet_converter.cc:277-293 | which of the two forms a packet is taken for, and when it is rejected |
| PacketConverter.SplitOfPrefixed | src/streamer/remuxer/packet_converter.cc:285-292 | every list of units of legal size survives prefixing and splitting |
| PacketConverter.PrefixedOfSplit | src/streamer/remuxer/packet_converter.cc:136-152 | a buffer that splits is the prefixed form of what it splits into |
| PacketConverter.RecognisedIffRewritable | src/streamer/remuxer/packet_converter.cc:136-152 | the recognised buffers are exactly the prefixed forms of legal units |
| PacketConverter.AnnexBIsNotPrefixed | src/streamer/remuxer/packet_converter.cc:279-284 | a packet that begins with a four-byte start code is never taken for a length-prefixed one |
| PacketConverter.ShortStartCodeIsSafeIff | src/streamer/remuxer/packet_converter.cc:279-284 | a three-byte start code is safe with length sizes up to three; with four the packet is taken for a length-prefixed one exactly when the length it then reads and the rest fit |
| PacketConverter.ShortStartCodeCanBeMistaken | src/streamer/remuxer/packet_converter.cc:279-284 | such packets exist for every header byte, and lose that header |
| PacketConverter.RewritingIsStable | src/streamer/remuxer/packet_converter.cc:278-293 | rewritten packets are not rewritten again |
| PacketConverter.Configuration | src/streamer/remuxer/packet_converter.cc:169-200 | the parameter sets of a record in Annex B form and its length size, or a rejection |
| PacketConverter.AvcConfiguration | src/streamer/remuxer/packet_converter.cc:171-186 | the avcC half: counts, the required PPS field, ignored trailing bytes |
| PacketConverter.HevcConfiguration | src/streamer/remuxer/packet_converter.cc:187-198 | the hvcC half: arrays, counts, no trailing bytes |
| PacketConverter.AvcRoundTrip | src/streamer/remuxer/packet_converter.cc:177-186 | reading inverts writing an avcC with any header-valid parameter sets and any trailing bytes |
| PacketConverter.HevcRoundTrip | src/streamer/remuxer/packet_converter.cc:187-198 | reading inverts writing an hvcC with any header-valid units, and one byte more is rejected |
| SyncerTiming.ContinuityClock.Now | src/streamer/syncer/syncer_timing.cc:97-108 | holds the last advancing timestamp for two seconds, then extrapolates |
| SyncerTiming.ContinuityClock.Update | src/streamer/syncer/syncer_timing.cc:109-120 | only an advancing timestamp moves the clock |
| SyncerTiming.Track.ChangeTimeBase | src/streamer/syncer/syncer_timing.cc:326-339 | every position of the track is converted, or the failure reported |
| SyncerTiming.SyncerTiming.Step | src/streamer/syncer/syncer_timing.cc:188-237 | the objects follow the step function, for one track and the shared clock only |
| SyncerTiming.SyncerTiming.TimedOut | src/streamer/syncer/syncer_timing.cc:212-236 | the objects follow the timeout rule |
| SyncerTiming.SyncerTiming.Correct | src/streamer/syncer/syncer_timing.cc:247-324 | the objects follow the correction rule |
| SyncerTiming.SyncerTiming.Anchor | src/streamer/syncer/syncer_timing.cc:261-275 | the first real frame fixes both shifts |
| SyncerTiming.SyncerTiming.Adopt | src/streamer/syncer/syncer_timing.cc:277-298 | when the shared shift is taken over |
| SyncerTiming.SyncerTiming.Follow | src/streamer/syncer/syncer_timing.cc:299-323 | filling, suspending, correcting or passing a mapped frame |
| SyncerTiming.SyncerTiming.Suspend | src/streamer/syncer/syncer_timing.cc:308-312 | a further jump after a batch moves the shift and waits a millisecond |
| SyncerTiming.SyncerTiming.Adjust | src/streamer/syncer/syncer_timing.cc:350-370 | the shift that puts a frame at the next position is published |
| SyncerTiming.SyncerTiming.Real | src/streamer/syncer/syncer_timing.cc:439-471 | a rejected frame moves only the clock, an accepted one advances the track |
| SyncerTiming.SyncerTiming.Fill | src/streamer/syncer/syncer_timing.cc:473-507 | one filler, and the end of its batch |
| SyncerTiming.SyncerTiming.FinishFill | src/streamer/syncer/syncer_timing.cc:509-550 | how a batch ends, for a jump and for a timeout, accepted and rejected |
| SyncerTiming.Syncer.Step | src/streamer/syncer/syncer.cc:119-148 | bad arguments throw and change nothing, others step the timing |
| SyncerTiming.Start | src/streamer/syncer/syncer_timing.cc:157-186 | a session starts with fresh tracks, or fails when the start has no timestamp |
| SyncerContinuity.FillPlaces | src/streamer/syncer/syncer_timing.cc:473-507 | an accepted filler starts exactly at the next position and keeps the batch invariant |
| SyncerContinuity.FollowPlaces | src/streamer/syncer/syncer_timing.cc:299-323 | whatever branch a mapped frame takes, its output continues the track |
| SyncerContinuity.CorrectPlaces | src/streamer/syncer/syncer_timing.cc:247-324 | the same through time-base change, anchoring and adoption; a first anchor never overlaps earlier backup output |
| SyncerContinuity.StepPlaces | src/streamer/syncer/syncer_timing.cc:188-237 | every accepted filler starts exactly where expected, every accepted real frame less than the tolerance off once the shared shift exists and never early before, and a rejected one moves nothing |
| SyncerContinuity.StepKeepsShiftsTogether | src/streamer/syncer/syncer_timing.cc:261-356 | at every accepted real frame the track's shift is within the tolerance, or half a tick plus half a microsecond, of the shared one |
| SyncerContinuity.SharedThereAndBack | src/streamer/syncer/syncer_timing.cc:286-298 | adopting the shared shift costs at most half a tick plus half a microsecond |
| SyncerProgress.SettledIsConsumed | src/streamer/syncer/syncer_timing.cc:299-323 | a frame that already maps to the next position goes out at once |
| SyncerProgress.StepAdvances | src/streamer/syncer/syncer_timing.cc:188-237 | an accepted step consumes the head or lowers a rank of at most ten |
| SyncerProgress.HeadIsConsumedWithinTenSteps | src/streamer/syncer/syncer_timing.cc:188-550 | ten accepted steps at the times asked for, without the peer, consume any frame head, unless arithmetic fails |
| SyncerRuns.EverySessionIsContinuous | src/streamer/syncer/syncer_timing.cc:188-550 | in every session of both tracks each filler starts exactly at the end of the emission before it, each real frame continues it, and the shifts are together at each real one |
| SyncerRuns.EveryHeadIsConsumed | src/streamer/syncer/syncer_timing.cc:188-550 | the ten-step bound holds from every state a session can reach |
| SyncerRuns.CheckedHeadIsSound | src/streamer/syncer/syncer.cc:65-100 | a head the facade lets through has samples when it is audio |
| SyncerPictures.StepRemembers | src/streamer/syncer/syncer_timing.cc:400-412 | a step remembers exactly the real picture it puts out and freezes only the one remembered before |
| SyncerPictures.FillersShowTheLatestPicture | src/streamer/syncer/syncer_timing.cc:400-427 | in every session a frozen picture is the latest real one put out before it, and only audio gets silence |
| SyncerClock.StepMoves | src/streamer/syncer/syncer_timing.cc:91-120 | what moves the shared clock, and how far: accepted real frames and the last filler of a full batch before a jump; and when the track looks for input again |
| SyncerClock.ClockCoversRealFrames | src/streamer/syncer/syncer_timing.cc:439-446 | in every session the clock stands where it last advanced to, each advance went further, and no real frame put out lies beyond it |
| SyncerClock.SilentTrackIsFilledToTheClock | src/streamer/syncer/syncer_timing.cc:212-236 | in every session an idle track without input puts out a filler exactly if, past its wait, its next position lies a tick or more before the greatest position that advanced the clock, carried on by the wall clock once that is two seconds ago; the first look after an accepted frame also waits for the timeout on that clock; and how far the batch goes |
| SyncerClock.FirstFrameIsAnchored | src/streamer/syncer/syncer_timing.cc:261-275 | in every session the first real frame goes to that media time, or behind its track's backup output, and fixes both shifts there |
| SyncerClock.RefusedFrameMovesTheClock | src/streamer/syncer/syncer_timing.cc:444-447 | a refused real frame moves the clock as if it had been accepted |
| SyncerBatches.SilenceIsFilledUpToALook | src/streamer/syncer/syncer_timing.cc:212-236 | every filler of a silent track goes back to a look of the same session and starts before the media time of that look; before the clock's position, if that is under two seconds old and has not changed since the look |
| SyncerBatches.LaterFillerCanPassThePosition | src/streamer/syncer/syncer_timing.cc:473-507 | a session in which the peer advances the clock during a batch, and the next filler of the batch starts beyond the new position |
| SyncerPlacement.FillerIsShaped | src/streamer/syncer/syncer_timing.cc:400-427 | duration, source and start of a filler, and that a batch goes on exactly while its aim is not reached and fewer than five were put out |
| SyncerPlacement.FullBatchRests | src/streamer/syncer/syncer_timing.cc:509-534 | a full batch before a jump rests for half of what it filled and a millisecond at least, any other not at all, with the shifts that put the frame at the next position |
| SyncerPlacement.RealLasts | src/streamer/syncer/syncer_timing.cc:439-443 | a real frame lasts one frame of the configured rate, or its samples |
| SyncerPlacement.RebasedConverts | src/streamer/syncer/syncer_timing.cc:326-339 | a track that changes its time base keeps every position it remembers, converted |
| SyncerPlacement.FrameGoesWhereMapped | src/streamer/syncer/syncer_timing.cc:276-323 | which shift maps a frame, and that it goes exactly there within the tolerance, to the next position when mapped back, and behind one batch of fillers or a pause of a millisecond when mapped ahead |
| SyncerPlacement.SessionsStartAfresh | src/streamer/syncer/syncer_timing.cc:157-176 | each track starts at the configured position in its own time base, or is left to the first frame, and first waits for the initial timeout |
| SyncerPlacement.CallsAreChecked | src/streamer/syncer/syncer.cc:65-126 | a call is let through exactly if its track is enabled, its time not negative and its frame sound: a proper 64-bit time, samples, or a representable frame period |
| SchedulerDriver.Track.Complete | src/streamer/scheduler/scheduler.cc:211-231 | a finished result becomes the head and ends the source wait |
| SchedulerDriver.Track.Dispatch | src/streamer/scheduler/scheduler.cc:232-248 | a task is handed to the worker |
| SchedulerDriver.Track.TakeTask | src/streamer/scheduler/scheduler.cc:376-385 | the worker takes the task and clears the request |
| SchedulerDriver.Track.Finish | src/streamer/scheduler/scheduler.cc:397-405 | the worker reports its result and whether it needs input |
| SchedulerDriver.Track.Settle | src/streamer/scheduler/scheduler.cc:316-328 | the head is dropped when consumed, and a rejection is parked on the sampled revision |
| SchedulerDriver.Driver.Prepare | src/streamer/scheduler/scheduler.cc:250-285 | a free track continues its worker or looks at the next source item: an end is given, a frame is dropped exactly in the late band, kept until its deadline exactly while early, and given exactly if the realtime clock releases it |
| SchedulerDriver.Driver.Deliver | src/streamer/scheduler/scheduler.cc:294-329 | a track that is not resting steps the synchroniser with its head |
| SchedulerSlot.RestsAsLongAsAsked | src/streamer/scheduler/scheduler.cc:294-328 | a refused output is offered again exactly when room has appeared or 20 ms have passed, otherwise the track rests until the time the synchroniser named |
| SchedulerSlot.FreshHeadIsShown | src/streamer/scheduler/scheduler.cc:211-231 | a fresh head is shown at once unless an output is parked |
| Scheduler.EveryRunKeeps | src/streamer/scheduler/scheduler.cc:211-408 | the joint invariant of slots, workers, items and the synchroniser holds in every interleaving |
| Scheduler.EachItemOnceInOrder | src/streamer/scheduler/scheduler.cc:250-408 | each source item is dropped or given to the worker once, in order, and nothing is lost on the way to the synchroniser |
| Scheduler.FramesAreJudgedByTheClock | src/streamer/scheduler/scheduler.cc:268-284 | in every interleaving each look at a frame saw the mapping left by all earlier calls of both tracks; the frame was dropped exactly in the late band, kept exactly while early, given exactly if the clock released it, and an end is always given |
| Scheduler.FreeTrackIsFed | src/streamer/scheduler/scheduler.cc:250-285 | a free track asks its worker to go on, or looks at the item in front and hands it over if due; it fails exactly when the time cannot be computed |
| Scheduler.NothingIsOverwritten | src/streamer/scheduler/scheduler.cc:211-408 | a task carries input only when no refused input is left, a result never lands on an unconsumed head, and a worker that is done asks for input exactly if it has neither a result nor refused input |
| Scheduler.SynchroniserFindsItsHead | src/streamer/syncer/syncer_timing.cc:190-199 | the head that the synchroniser relies on while suspended or filling forward is there, the one it was shown before |
| Scheduler.HeadStaysUntilConsumed | src/streamer/scheduler/scheduler.cc:316 | a head leaves its place only by being consumed |
| Scheduler.ScheduledOutputIsContinuous | src/streamer/scheduler/scheduler.cc:294-329 | the continuity of whole sessions holds under the scheduler |
| Scheduler.DriverHonoursWakes | src/streamer/scheduler/scheduler.cc:296-300 | an accepted track is shown its pending head no earlier than the synchroniser asked |
| Queues.PushKeeps | include/mw/streamer/platform/blocking_queue.h:116-143 | what a push answers and stores in each state of the queue, and that it announces readiness |
| Queues.PopKeeps | include/mw/streamer/platform/blocking_queue.h:145-164 | a pop takes the oldest item and announces capacity |
| Queues.BindingKeeps | include/mw/streamer/platform/blocking_queue.h:70-105 | binding a signal replays what is already true, and closing announces both ways |
| Queues.ClosedQueueDrains | include/mw/streamer/platform/blocking_queue.h:92-105 | after closing nothing is accepted, everything accepted can still be taken in order, then Closed is answered |
| Queues.SuccessfulPushArrives | include/mw/streamer/platform/blocking_queue.h:131-142 | draining after a successful push yields the earlier items and then the pushed one |
| Queues.WaitSignal.Notify | include/mw/streamer/platform/wait_signal.h:24-30 | a notification advances the revision |
| Queues.WriteSignal.Notify | include/mw/streamer/platform/write_signal.h:24-27 | the capacity revision advances and the shared loop is woken |
| Queues.BlockingQueue.PushLocked | include/mw/streamer/platform/blocking_queue.h:116-143 | the locked part of a push |
| Queues.BlockingQueue.PopLocked | include/mw/streamer/platform/blocking_queue.h:145-164 | the locked part of a pop |
| Queues.BlockingQueue.SetReadSignalLocked | include/mw/streamer/platform/blocking_queue.h:70-78 | rebinding the readiness signal |
| Queues.BlockingQueue.SetWriteSignalLocked | include/mw/streamer/platform/blocking_queue.h:82-90 | rebinding the capacity signal |
| Queues.BlockingQueue.CloseLocked | include/mw/streamer/platform/blocking_queue.h:92-105 | closing |
| Signals.QueuesStayFifo | include/mw/streamer/platform/blocking_queue.h:116-164 | queues stay first in, first out and within capacity in every interleaving |
| Signals.ItemsPassThrough | include/mw/streamer/platform/blocking_queue.h:116-164 | in every interleaving the items queued at first and those of the pushes answered with success are, in order, the items popped and those still queued |
| Signals.NoLostWakeUp | include/mw/streamer/platform/wait_signal.h:19-35 | a loop asleep over a bound queue it saw empty, ready since, is woken already or has a notification on its way, rebinding included |
| Signals.NoLostCapacity | src/streamer/scheduler/scheduler.cc:294-324 | a push stays rejected on an unmoved revision only while the queue is full and open or a capacity notification is on its way |
| Signals.NoSleepOverCapacity | src/streamer/scheduler/scheduler.cc:348-364 | a loop asleep over a rejected push has the news of capacity with it or on its way |
| Signals.DeliveryWakes | include/mw/streamer/platform/wait_signal.h:24-35 | delivering the notification on its way lets the sleeper wake |
| InputProxy.EveryEndIsReturned | src/streamer/input/av_input_proxy.cc:108-224 | in every run an end is returned only for a connection whose source reached it, and while nothing stops no connection that reached its end is left before that end is returned |
| InputProxy.WaitingEndIsReadable | src/streamer/input/av_input_proxy.cc:108-172 | a reader is never stuck in front of an end that waits for it |
| InputProxy.EachEndReturnedOnce | src/streamer/input/av_input_proxy.cc:108-172 | however reads, reconnections, failures and stops interleave, a looping connection's end is returned at most once, with its own description, after all its packets and before anything later |
| InputProxy.ReturnedPacketsAreGenuine | src/streamer/input/av_input_proxy.cc:108-172 | in every run the packets returned of a connection, ended or not, are the first ones its source produced, in order |
| InputProxy.RetriesAreBounded | src/streamer/input/av_input_proxy.cc:390-402 | attempts in a row never exceed the configured limit |
| InputReconnects.AnotherConnectionComes | src/streamer/input/av_input_proxy.cc:330-421 | from the acknowledged end of a looping input, or the failure of one with retries left, another connection is created within nine steps of the control thread, whatever other threads do, unless stopping |
| InputReconnects.AcknowledgedEndIsOnTheWay | src/streamer/input/av_input_proxy.cc:148-162 | an end acknowledged on a looping input puts the control thread on that way |
| InputReconnects.BrokenInputIsOnTheWay | src/streamer/input/av_input_proxy.cc:207-224 | so does a connection that cannot be opened or has broken while retries are left |
| InputReconnects.OverOnlyForCause | src/streamer/input/av_input_proxy.cc:375-402 | in every interleaving without a stop the control thread is over only after a returned end that does not loop, or with all configured retries used up |
| InputReconnects.WaitingPacketIsReturned | src/streamer/input/av_input_proxy.cc:108-172 | a packet that waits in an offered input is what the next read returns |
| InputReconnects.WaitingEndIsReturned | src/streamer/input/av_input_proxy.cc:108-172 | an end that waits there is what the next read returns, once nothing is left before it |
| InputProxy.ControlKeeps | src/streamer/input/av_input_proxy.cc:317-421 | every step of the control thread keeps the joint invariant |
| InputProxy.SourceKeeps | src/streamer/input/av_input.cc:317-381 | the input's reader thread keeps it, announcing its end only over an emptied queue |
| InputProxy.EndIsUnacknowledged | src/streamer/input/av_input_proxy.cc:148-162 | the connection whose end a reader has come to is the current one, still waited on |
| InputProxyObject.AvInputProxy.Advance | src/streamer/input/av_input_proxy.cc:330-421 | one step of the control loop |
| InputProxyObject.AvInputProxy.Retire | src/streamer/input/av_input_proxy.cc:317-328 | the three locked parts of retiring an input |
| InputProxyObject.AvInputProxy.InputChanged | src/streamer/input/av_input_proxy.cc:207-224 | only the current input's first failure or cancellation is noted |
| InputProxyObject.AvInputProxy.EnterRead | src/streamer/input/av_input_proxy.cc:113-140 | the beginning of a read, with the description captured beside the input |
| InputProxyObject.AvInputProxy.PopInput | src/streamer/input/av_input.cc:145-176 | a packet, an end, or nothing |
| InputProxyObject.AvInputProxy.AcknowledgeEof | src/streamer/input/av_input_proxy.cc:148-162 | the end is acknowledged once, by the reader of the current input |
| Decoder.PushKeeps | src/streamer/decoder/av_decoder.cc:272-299 | admission agrees with the order of what was accepted: a well-placed item is never rejected |
| Decoder.TurnKeeps | src/streamer/decoder/av_decoder.cc:364-456 | a worker fed in order never misuses its codec |
| Decoder.AvDecoder.Submit | src/streamer/decoder/av_decoder.cc:272-317 | accepted, refused when stopping or failed, or rejected after an end without a reset |
| Decoder.AvDecoder.TakeFrame | src/streamer/decoder/av_decoder.cc:374-414 | the worker takes frames first |
| Decoder.AvDecoder.TakeInput | src/streamer/decoder/av_decoder.cc:415-455 | the worker sends the next input, or flushes on a reset |
| MediaSource.DecodersAreFedInOrder | src/streamer/input/av_media_source.cc:469-527 | in every interleaving a reset stands between an end and what follows, and between different connections, in what each decoder accepts |
| MediaSource.EndRejectionIsUnreachable | src/streamer/decoder/av_decoder.cc:275-277 | the dispatcher never runs into the demand for a reset |
| MediaSource.CodecsAreUsedProperly | src/streamer/decoder/av_decoder.cc:364-456 | no codec is sent anything while draining, or asked anything once drained, before a flush |
| MediaSource.NothingLostOrRepeated | src/streamer/input/av_media_source.cc:481-527 | while nothing fails or stops, each returned packet is accepted once by one decoder and each end once by every decoder |
| MediaOrder.DecodersAcceptWhatIsOwed | src/streamer/input/av_media_source.cc:481-527 | in every interleaving each decoder has accepted, in order, a front part of the returned items: its own packets, every end, and one reset wherever the connection changes; all of it at the top of the loop while nothing halts |
| MediaOrder.ResetsAreConnectionChanges | src/streamer/input/av_media_source.cc:489-494 | a decoder is reset as often as the connection has changed at the top of the loop, and never more often |
| MediaOrder.ReadingGoesOnUntilTheEnd | src/streamer/input/av_media_source.cc:558-573 | the dispatcher goes on reading until the end of a source that does not loop, and is done once the decoders have drained |
| MediaOrder.HaltsOnlyForCause | src/streamer/input/av_media_source.cc:469-527 | the source fails only for an exception, a failed proxy or decoder or a missing track, and stops only when asked to |
| MediaOrder.SelectedTracksHaveDecoders | src/streamer/input/av_media_source.cc:388-453 | the first description creates new decoders for exactly the selected tracks, and fails without one |
| MediaOrder.CodecsAreToldWhatIsAccepted | src/streamer/decoder/av_decoder.cc:364-456 | in every interleaving each codec is sent exactly the entries taken, in order, and every frame and end it answers with is put out |
| MediaSourceObject.AvMediaSource.LoopTop | src/streamer/input/av_media_source.cc:558-573 | the top of the controller loop |
| MediaSourceObject.AvMediaSource.Initialize | src/streamer/input/av_media_source.cc:388-431 | creates the decoders on the first description seen, and fails without a track |
| MediaSourceObject.AvMediaSource.Connect | src/streamer/input/av_media_source.cc:447-453 | a Connected event creates the decoders unless the source halts |
| MediaSourceObject.AvMediaSource.Take | src/streamer/input/av_media_source.cc:484-494 | makes sure of the decoders and decides whether resets come first |
| MediaSourceObject.AvMediaSource.Submit | src/streamer/input/av_media_source.cc:469-479 | one submission, and how a refusal ends the dispatch |
| MediaSourceObject.AvMediaSource.SubmitReset | src/streamer/input/av_media_source.cc:489-494 | resets reach video, then audio, before the new connection is noted |
| MediaSourceObject.AvMediaSource.SubmitEof | src/streamer/input/av_media_source.cc:495-502 | ends reach video, then audio, and without looping the last one is final |
| MediaSourceObject.AvMediaSource.SubmitPacket | src/streamer/input/av_media_source.cc:503-515 | a packet goes to its own decoder, whose absence is an error |
| BufferPool.RowFitsIffNoWrap | src/frame_convter/cuda_buffer_pool.h:87-88 | for any sizes the pitch is aligned, and holds a row exactly when the padded size does not wrap |
| BufferPool.AllocateKeeps | src/frame_convter/cuda_buffer_pool.h:85-120 | a lent block was free and unretired, the shape is fixed by the first fit, and a miss changes no loan |
| BufferPool.RequestIsMetIff | src/frame_convter/cuda_buffer_pool.h:85-120 | a request is met exactly if it fits the capacity and, once the shape is fixed, has that shape and some block is neither lent nor retired; the first one cuts the pool into as many blocks as it holds |
| BufferPool.ReturnKeeps | src/frame_convter/cuda_buffer_pool.h:122-130 | a returned block is free again unless retired |
| BufferPool.FreeListIsExact | src/frame_convter/cuda_buffer_pool.h:85-140 | in every reachable pool the free list visits exactly the existing slots neither lent nor retired, once each, and nothing else |
| BufferPool.LentBlockIsInside | src/frame_convter/cuda_buffer_pool.h:85-111 | every lent block is aligned, inside the capacity, and as large as an image of the pool's shape |
| BufferPool.LentBlocksAreSeparate | src/frame_convter/cuda_buffer_pool.h:85-111 | two lent blocks are disjoint |
| BufferPool.RetiredIsNeverLentAgain | src/frame_convter/cuda_buffer_pool.h:122-140 | whatever follows, a retired block is not lent again |
| BufferPool.GpuMatBufferPool.AllocateBlock | src/frame_convter/cuda_buffer_pool.h:85-120 | allocation on the linked slots follows the free list |
| BufferPool.GpuMatBufferPool.FreeBlock | src/frame_convter/cuda_buffer_pool.h:122-130 | freeing relinks the slot at the head |
| BufferPool.GpuMatBufferPool.RetireBlock | src/frame_convter/cuda_buffer_pool.h:132-140 | retiring marks the slot |

## Left out

- FFmpeg, ZLMediaKit, OpenCV and CUDA calls: their answers are parameters. Start-code detection, the filter that drops units with bad headers, the AAC checks and everything behind `getFrameFromBuffer` are not part of this model.
- FFmpeg's comparison of timestamps is taken as exact cross-multiplication, also for values whose products leave 128 bits or its 64-bit shortcut.
- The reduced fraction that `av_reduce` stores for the output grid of ForceFps: only its value is modelled.
- Wrap-around of the 64-bit revision counters of the signals: a counter that returned to an observed value would hide a notification.
- Spurious and lost condition-variable wake-ups: waits are guards of steps, so fairness of a single `notify_one` among several waiters is not claimed.
- What the synchroniser's objects hold after an arithmetic exception: the session ends there, as in its caller.
- SyncerRuns.EveryHeadIsConsumed: assumes an accepting output and no peer step in between; with the peer active the two tracks can keep correcting each other, and convergence of their shifts is not claimed.
- DtsQueue.UnforcedRunIsSorted: promises no global order once the ten-second window forced a pop; the code gives up global order there on purpose.
- MediaSource.NothingLostOrRepeated: not claimed once the source is stopping or has failed, because packets in flight are then dropped.
- Remuxer.AcceptedPacketsAreEmittedBeforeFinish: not claimed after an exception while taking or converting packets, which abandons what is queued.
- The early flush of protocol outputs whose tracks are not ready, recordings, output registration and status queries of the remuxer.
- Packets the remuxer rejects before its handoff (invalid ones, or any from the poller thread): they throw and change nothing.
- Which decoder a packet belongs to is a parameter of the dispatcher; exceptions of the control thread outside opening a connection, such as a failed allocation, are not modelled.
- End timestamps, hardware checks and latency bookkeeping of the decoder worker.
- Stopping and restarting the scheduler, disabled tracks, and the sample contents produced by the converters and filters behind it.
- Retry delays, state notifications to observers, and the non-blocking read of the input proxy.
- The destructor, CUDA contexts and reference counts of the GPU pool.
- Pixel conversion, resampling, encoders, the recorder's writer, network listeners, `RemuxPipeline::Pace`, logging and latency counters.
