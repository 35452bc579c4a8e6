# A model of the camera daemon's media and decision core

The daemon under `src/` decides between day and night, fans encoded packets out to
subscribers, records, answers control requests and keeps its settings in a text file. This
project models the parts whose guarantees span many steps or many threads and proves them
for all inputs and all runs. `dafny verify dfyconfig.toml` checks everything.

| files | part of the daemon |
|---|---|
| `DayNight`, `DayNightMachine`, `DayNightSafety`, `DayNightHeartbeat`, `DayNightReference`, `DayNightScene` | the day/night automaton of `src/daynight.c` |
| `Calendar` | its clock-window calendar |
| `FanQueue` | the bounded packet queue of `src/fanqueue.c` |
| `Fanout`, `FanoutHandshake`, `FanoutBooks`, `FanoutSafety`, `HubSource`, `Activity` | publishing and subscribing, `src/hub.c` with `src/frame.c` |
| `ConfigTable`, `ConfigLoss`, `Rings` | the event stores of `src/events.c` |
| `ConfigLine`, `ConfigFile`, `ConfigText`, `ConfigRewrite` | the configuration file, `src/config.c` |
| `PreRoll`, `Prune` | the recorder's ring and pruner, `src/record.c` |
| `GatherWrite` | the gather-write loops of `src/net.c` and `src/record.c` |
| `JsonScan`, `JsonSection` | the JSON scanner of `src/control.c` and its walk over a section |

How the parts are built:

- **Day/night.** One loop iteration is `Tick`, a function of the configuration snapshot, what
  is read from outside and the loop's scalars, to the new scalars and the board commands
  issued. `DayNightMachine` holds the scalars in one object, updates them block by block and
  is proved to do what `Tick` does. Measurements, command results, the calendar and the clock
  are arbitrary inputs, the clock not running backwards. Exposures are exact reals, times
  integers. An illuminator command counts as issued when it is tried, also when no command is
  configured; then it fails.
- **Queue and fan-out.** The queue is a ring over a slot array, proved against a function on
  sequences. The fan-out is a step system with one step per critical section or atomic count:
  any number of sources, queues and consumers, one producer per source, every interleaving. A
  step that touches freed memory puts the system in fault; that no run does is a theorem.
  Steps are constrained only by each thread's own program: an owner subscribes a queue to a
  source once, uses it until it frees it, and frees it after its unsubscribes returned.
  `HubSource` gives the subscriber table and the linked freelist as they are changed in place.
- **Events, recorder, scanner, file.** The tables and rings are classes over arrays, proved
  against functions on sequences, and these against plain unbounded logs. Pruning sees the
  file system as arbitrary readings, trees and deletion results. The configuration file is
  text, read a line buffer at a time as the program does.

What the proofs turned up, each with the exact condition in the table below:

- the automaton ignores whether switching the illuminator on again worked, so the
  illuminator can stay off with nothing pending (`LightAgreesUnlessRelightFails`);
- with unreadable samples a switched-off illuminator stays off past its deadline, until the
  first iteration that can read, follows the calendar or is disabled
  (`AnsweredAtFirstSight`);
- switching from the calendar to auto within the calendar's dwell lets the automaton count
  as night with the board left in day and no heartbeat set (`BoardFollowsDecision`);
- a subscriber whose resync and pop are separated by evicting pushes loses what was evicted
  and still the latest of its key, without being told (`RunIsLossless`), and a setting name
  of 40 characters or more does not coalesce with itself (`RepeatCoalesces`);
- a line longer than the buffer is one line to the loader and several to the rewrite, which
  can write a setting into it, and an unended last line of exactly 511 characters is read,
  but no longer once a rewrite has ended it; these two are all that can go wrong
  (`RewriteFile`);
- a member of a section whose name comes earlier inside a nested object is neither applied
  nor reported, or its field is set from the nested value (`AppliedOrReported`, `NestedIsTaken`). The source
  says of the scan that its test is exactly dual to the walk's; it is dual to the walk's
  table, not to where the walk looks.

## Model

| member | source | states |
|---|---|---|
| `DayNightMachine.Loop` | src/daynight.c:1124-2334 | for every sequence of iterations the object holding the loop scalars ends in the state `Run` gives, having issued exactly its commands: everything below about runs holds of this machine |
| `DayNightMachine.Automaton.Tick` | src/daynight.c:1303-2302 | one iteration, enabled or not: receive a request, measure, decide, commit |
| `DayNightMachine.Automaton.Disable` | src/daynight.c:1303-1321 | manual: everything forgotten, a pending silent probe answered by an "on" |
| `DayNightMachine.Automaton.Enable` | src/daynight.c:1322-1340 | (re)enabled: decide from scratch |
| `DayNightMachine.Automaton.Abandon` | src/daynight.c:810-816 | a pending silent verdict is dropped and answered by exactly one "on", tried whatever its outcome |
| `DayNightMachine.Automaton.ClipClock` | src/daynight.c:1399-1402 | a clipped level counts only once the meter has held it for two minutes |
| `DayNightMachine.Automaton.Smooth` | src/daynight.c:1345-1410 | the smoother: level, stability count, clip clock, sustained minimum, trend pair |
| `DayNightMachine.Automaton.Window` | src/daynight.c:1354-1360 | the tumbling window behind the sustained minimum |
| `DayNightMachine.Automaton.Trend` | src/daynight.c:1403-1409 | the fast and the slow average with their time-based weights |
| `DayNightMachine.Automaton.Enforce` | src/daynight.c:1422-1433 | a forced cycle comes back after its settle time |
| `DayNightMachine.Automaton.Verify` | src/daynight.c:1434-1466 | the readback gate: confirmed by the ISP, or after the delay one counter-cycle through the other mode if the ISP still reports that, at most one per commit |
| `DayNightMachine.Automaton.Measure` | src/daynight.c:1322-1466 | one iteration up to the decision |
| `DayNightMachine.Automaton.Compare` | src/daynight.c:1702-1853 | the verdict on the dark reading against the lit one, in the branch order of the source |
| `DayNightMachine.Automaton.SilentVerdict` | src/daynight.c:1696-1884 | the illuminator goes back on first; then a night verdict lowers the reference where proven and re-bases the heartbeat, day becomes the target, and an unusable or inconclusive comparison asks for the audible probe |
| `DayNightMachine.Automaton.AudibleVerdict` | src/daynight.c:1890-1923 | a reading below the day bar keeps day, any other forces night; held back while the readback gate is at work |
| `DayNightMachine.Automaton.DayRule` | src/daynight.c:1926-2019 | in day: the filter cost, the dark hold and the switch to night |
| `DayNightMachine.Automaton.AnchorReference` | src/daynight.c:2029-2070 | the reference is anchored once, after its delay, from an unclipped level |
| `DayNightMachine.Automaton.Triggers` | src/daynight.c:2075-2118 | the brightening jump and the trend ask for a probe |
| `DayNightMachine.Automaton.Beat` | src/daynight.c:2126-2154 | the heartbeat asks, the dawn pull-in only shortens it, a deferral is bounded |
| `DayNightMachine.Automaton.Boot` | src/daynight.c:1600-1688 | the boot measurement and its framing as a probe from night |
| `DayNightMachine.Automaton.Decide` | src/daynight.c:1500-2154 | schedule, unreadable, boot and running rules in the order of the loop body |
| `DayNightMachine.Automaton.SilentProbe` | src/daynight.c:2172-2202 | a silent probe starts only when "off" succeeded; two failures disable it |
| `DayNightMachine.Automaton.AudibleProbe` | src/daynight.c:2203-2249 | an audible probe drives day and remembers where it came from |
| `DayNightMachine.Automaton.Switch` | src/daynight.c:2250-2302 | a committed switch: one drive, and the reference, verdict and heartbeat of the mode entered |
| `DayNightMachine.Automaton.Stop` | src/daynight.c:2325-2331 | the thread ends with a pending silent probe answered |
| `DayNightSafety.TickBooks` | src/daynight.c:1303-2302 | every iteration on every input keeps the invariant between state and command log |
| `DayNightSafety.IlluminatorAnswered` | src/daynight.c:1303-2331 | over every run: offs and ons alternate, an "off" is unanswered exactly while a silent verdict is pending, a silent verdict is pending only in night and never during a forced cycle, an audible one only in day |
| `DayNightSafety.DueIsAnswered` | src/daynight.c:1500-1701 | an "off" whose verdict is due is answered by an iteration if and only if the automaton is disabled, follows the calendar or can read the exposure |
| `DayNightSafety.AnsweredAtFirstSight` | src/daynight.c:1500-1701 | over every run past the deadline the same "off" is unanswered if and only if every iteration was enabled, in auto mode and unreadable: unreadable samples postpone the answer without bound, the first other iteration gives it |
| `DayNightSafety.StopAnswers` | src/daynight.c:2325-2331 | after the loop ends every "off" has been answered |
| `DayNightSafety.LightAgreesUnlessRelightFails` | src/daynight.c:1700-1701 | the illuminator is off exactly while a verdict is pending, at every boundary of a run, if and only if no "on" of that run failed: the loop ignores that result |
| `DayNightSafety.FailedRelightStaysDark` | src/daynight.c:810-816 | the failing family: an abandoned probe whose "on" fails leaves the illuminator off with nothing pending |
| `DayNightSafety.DriveBudget` | src/daynight.c:1421-1466 | over every run: returns <= counter-cycles <= committed changes, so at most three drives per committed change |
| `DayNightSafety.AudibleRation` | src/daynight.c:2203-2263 | while enabled, the n-th audible probe comes at least (n - m) * probe_min_gap_s after the m-th, for every m <= n |
| `DayNightSafety.TickBoard` | src/daynight.c:1600-1688 | one iteration keeps board and decision together if and only if it does not cut off a boot measurement |
| `DayNightSafety.BoardFollowsDecision` | src/daynight.c:2250-2302 | at every boundary of a run the board was last driven to the decided mode (the opposite inside a forced cycle) if and only if no boot measurement of the run was cut off by a calendar dwell |
| `DayNightSafety.CutFirst` | src/daynight.c:1322-1340 | a run that is cut off, step one: enabled under the calendar |
| `DayNightSafety.CutSecond` | src/daynight.c:1500-1522 | step two: the calendar drives day |
| `DayNightSafety.CutThird` | src/daynight.c:1600-1688 | step three: back in auto within the dwell the automaton counts as night and drives nothing |
| `DayNightSafety.CutRun` | src/daynight.c:1303-2302 | the three steps as one run from start-up: the clock is in order, a boot measurement is cut off, and the automaton counts as night with the board last driven to day |
| `DayNightHeartbeat.RunHeart` | src/daynight.c:1714-2297 | over every run the next check stays within one heartbeat of the last night evidence or of the forced limit of the last probe |
| `DayNightHeartbeat.HeartbeatDeadline` | src/daynight.c:2126-2154 | in a night dwell the next check is never due later than max(last night entry or silent night verdict, last probe + heartbeat_max_s) + heartbeat_s |
| `DayNightHeartbeat.OverdueLooks` | src/daynight.c:2126-2302 | a readable iteration past that bound with nothing in flight asks for a probe, and, if the ration allows, carries one out in the same iteration |
| `DayNightHeartbeat.AskedLooks` | src/daynight.c:2172-2249 | a wanted probe goes the silent way or failing that the audible one, at once |
| `DayNightHeartbeat.UnsetOnlyAfterBootCut` | src/daynight.c:2294-2297 | in night the next check is unset only right after a boot measurement was cut off |
| `DayNightReference.ReferenceRatchet` | src/daynight.c:1744-1814 | in night an anchored reference changes only by a silent night verdict, and then to less than half |
| `DayNightReference.ProvenLevelStaysQuiet` | src/daynight.c:2029-2118 | a scene that stays at or above the level that set the bar never satisfies the brightening trigger again, over every run that stays in night, forced cycles and unreadable ticks included |
| `DayNightReference.LoweredIsQuiet` | src/daynight.c:1803-1814 | a silent verdict that lowered the reference establishes that situation |
| `DayNightReference.RevertedIsQuiet` | src/daynight.c:2277-2288 | so does a probe that fell back to night from an unclipped level |
| `DayNightReference.LoweredStaysQuiet` | src/daynight.c:1744-2118 | an iteration that lowers the reference, followed by any run in that night whose scene stays at or above half the new reference: the brightening trigger asks for nothing |
| `DayNightReference.RevertedStaysQuiet` | src/daynight.c:2029-2302 | the same after an iteration that falls back from day to night with an unclipped level from before the probe: that level is the reference, and half of it keeps the trigger quiet |
| `DayNightReference.EmaHull` | src/daynight.c:571-576 | an exponential average stays in the hull of its inputs |
| `DayNightScene.HullRun` | src/daynight.c:1303-2302 | over every run, from any state whose three levels are unseeded or inside, the smoothed level and both averages stay between the lowest and the highest reading or are unseeded: any 0 < lo <= hi, any configuration, resets, forced cycles and probes included |
| `DayNightScene.SteadySceneNeverTrends` | src/daynight.c:2103-2118 | readings within a factor 4/3 of each other never arm the trend, in any run from start-up |
| `DayNightScene.SceneIsFeed` | src/daynight.c:1303-2302 | over every run the sustained minimum and the open window are the fold of the levels seen since the scene was last forgotten: by disabling, re-enabling, a drive to a decided mode (return, probe, switch), the framing of boot or a silent night verdict; unreadable iterations add nothing |
| `DayNightScene.SustainedMinimumWasHeld` | src/daynight.c:1345-1360 | in the state after every run from start-up a set sustained minimum is a level the scene stayed at or below for a whole confirmation window since it was last forgotten, and the open window bounds every level since it was opened |
| `DayNightReference.RatioAlwaysDecides` | src/daynight.c:1725-1853 | a detail: with both ratio thresholds at 2 the undecided branch is dead |
| `Calendar.NightLastsUntilDawn` | src/daynight.c:835-986 | the clock window and the announced dawn agree: what is night stays night until then, and it is day at that instant if and only if the window is not empty |
| `Calendar.DawnIsNext` | src/daynight.c:961-971 | the announced dawn is the next start of day, within a day ahead and on the minute |
| `FanQueue.Ring.Push` | src/fanqueue.c:46-104 | the ring after a push is `PushTo` of the ring before; every packet that left is released once, in order; the result says whether something was evicted |
| `FanQueue.Ring.MakeRoom` | src/fanqueue.c:55-72 | evicts exactly the shortest sufficient front and raises exactly the flags of what it lost |
| `FanQueue.Ring.DropHeadless` | src/fanqueue.c:84-94 | drops forward exactly through the dependent video packets at the head |
| `FanQueue.Ring.Admit` | src/fanqueue.c:55-94 | both removals together |
| `FanQueue.Ring.PopEx` | src/fanqueue.c:111-146 | takes the oldest packet with the loss flags, and clears them only then |
| `FanQueue.Ring.TakeDroppedAudio` | src/fanqueue.c:166-173 | reads and clears the audio flag, nothing else |
| `FanQueue.Ring.Free` | src/fanqueue.c:36-44 | gives up the reference of every packet still held, in order |
| `FanQueue.SlotIsModulo` | src/fanqueue.c:58-59 | the wrapped index of the i-th slot behind the head |
| `FanQueue.PushBudget` | src/fanqueue.c:46-104 | after a push to an open queue: count within the cap, bytes within the budget or the newcomer alone; only the shortest sufficient front was removed; an evicting push with a keyframe missing leaves no dependent packet first |
| `FanQueue.EvictedIsShortest` | src/fanqueue.c:55-56 | the evicted front makes room and no shorter one does |
| `FanQueue.HeadlessStops` | src/fanqueue.c:84-94 | the forward drop stops at the first packet that does not depend on a lost keyframe |
| `FanQueue.RemovedKeys` | src/fanqueue.c:55-94 | the forward drop never loses a keyframe |
| `FanQueue.StepTracks` | src/fanqueue.c:46-146 | every operation keeps the queue a suffix of the accepted packets and its flags a description of the gap before it |
| `FanQueue.ExactLossReporting` | src/fanqueue.c:46-146 | for every interleaving of pushes, status pops and a close: popped packets are a subsequence of accepted ones in order; "any" is reported exactly when packets are missing since the previous pop, "key" exactly when a video keyframe is among them |
| `FanoutSafety.RunKeeps` | src/hub.c:345-516 | every interleaving of producers, subscribers and consumers keeps the invariant |
| `FanoutSafety.NothingFreedIsTouched` | src/hub.c:345-516 | in every interleaving no step that may happen pushes to a freed queue, takes or gives up a reference to a freed packet, or takes a pool entry in use |
| `FanoutSafety.OnlyMembersAreFed` | src/hub.c:361-380 | a source pushes only to queues whose owner has not returned from leaving it, and lists exactly the queues that subscribed and have not begun to leave |
| `FanoutSafety.CountsAreExact` | src/frame.c:24-61 | in every reachable state a packet's count is the number of queue slots, producer handles and consumer handles holding it, and it is live exactly while that is positive |
| `FanoutSafety.QueuedIsIntact` | src/fanqueue.c:46-104 | a queued packet is live and still exactly what was pushed, so byte accounting stays the sum of lengths |
| `FanoutSafety.IdleMemoryIsBounded` | src/frame.c:30-61 | a source's pool holds exactly its idle packets: at most max_free of at most keep_cap, and one larger; the freelist's bytes are bounded by their product |
| `FanoutSafety.LivesFollow` | src/frame.c:30-61 | a packet dies once per life and is disposed of once per death, by the step that recycles it; a freed one stays freed |
| `FanoutSafety.GetFits` | src/frame.c:87-131 | a request gets a packet of at least its size that nobody else holds, within the split exactly when the request is |
| `FanoutSafety.BooksStep` | src/hub.c:439-516 | in a state that satisfies the invariant every enabled step is safe and keeps the counts |
| `FanoutSafety.PoolsStep` | src/frame.c:30-131 | every step keeps the pools exact |
| `FanoutHandshake.ApplyKeeps` | src/hub.c:361-437 | every step keeps the unsubscribe handshake |
| `FanoutHandshake.ReturnKeeps` | src/hub.c:371-377 | an unsubscribe that returns with no push in flight leaves no snapshot entry of its queue ahead |
| `FanoutHandshake.LeaveKeeps` | src/hub.c:361-370 | removal from the list before the wait |
| `FanoutHandshake.PushFindsItsQueue` | src/hub.c:471-472 | the next queue of a push loop exists |
| `FanoutHandshake.WithoutIs` | src/hub.c:365-370 | removing an entry by moving the last one into its place removes that entry and nothing else |
| `FanoutBooks.PushBooks` | src/hub.c:511-513 | a push conserves references: what it removes is given up, its own moves into the slot, or back if the queue is closed |
| `FanoutBooks.PopBooks` | src/fanqueue.c:111-146 | a pop hands the slot's reference to the consumer |
| `FanoutBooks.FreeBooks` | src/fanqueue.c:36-44 | freeing a queue gives up exactly what it holds |
| `FanoutBooks.BuiltIsSole` | src/hub.c:479-492 | a packet still being built is referenced by its producer alone, so writing it disturbs nobody |
| `FanoutBooks.UnrefAllIs` | src/frame.c:30-61 | giving up several references one after the other kills each packet exactly when its last one goes |
| `FanoutBooks.GetBooks` | src/frame.c:87-131 | a borrowed packet starts with one reference |
| `HubSource.Source.Add` | src/hub.c:350 | appends while there is room, refuses at sixteen |
| `HubSource.Source.Remove` | src/hub.c:365-370 | the in-place removal is `Without` |
| `HubSource.Source.Prepare` | src/hub.c:422-426 | the snapshot is the list, and the flag goes up if it is not empty |
| `HubSource.PacketPool.Get` | src/frame.c:87-131 | on the linked freelist: a large request takes only the large slot, a small one only the freelist; the result is unshared, empty, large enough and of the right class |
| `HubSource.PacketPool.Unref` | src/frame.c:30-61 | the last reference returns the packet to the freelist, to the large slot, or frees it, by size and room; any other reference changes nothing else |
| `HubSource.PacketPool.Trim` | src/frame.c:73-85 | gives back the large buffer only |
| `Activity.RunIsTruthful` | src/hub.c:35-46 | over every run: unless a notification for the source is still to come, what was last said about it is true |
| `Activity.LastCallIsTrue` | src/hub.c:35-46 | once every thread that changed a source's list is through, the last callback carries its true state |
| `ConfigTable.Store.Push` | src/events.c:120-143 | the slot array after a push is `PushTo` of the one before, watermark included |
| `ConfigTable.Store.Search` | src/events.c:124-129 | one pass finds the key's slot, or the first empty and the oldest one |
| `ConfigTable.Store.Resync` | src/events.c:153-160 | reports and catches up exactly when the cursor is behind the watermark |
| `ConfigTable.Store.Pop` | src/events.c:162-177 | the entry with the least number above the cursor |
| `ConfigTable.Store.Round` | src/events.c:153-177 | a resync and a drain with no push in between deliver exactly the latest pushes past the resume point, in push order, and catch up with the log |
| `ConfigTable.Serve` | src/mp4/httpd.c:1452-1468 | one subscriber, any mix of pushes and rounds: each round asks for a refetch exactly when something pushed since the previous one was evicted, and otherwise delivers the latest value of every key pushed since, in push order |
| `ConfigTable.PushTracks` | src/events.c:120-143 | table against log: live slots hold the latest values above the watermark, and every latest push above it is live |
| `ConfigTable.KeysDiffer` | src/events.c:120-143 | live slots hold distinct keys |
| `ConfigTable.PopIsNext` | src/events.c:162-177 | from the watermark on, a pop finds exactly the next latest push |
| `ConfigTable.LatestIsDelivered` | src/events.c:95-109 | of every key pushed since, the latest value is delivered |
| `ConfigTable.DeliveredIsLatest` | src/events.c:95-109 | nothing else is delivered |
| `ConfigTable.DeliveredOnce` | src/events.c:95-109 | no key is delivered twice |
| `ConfigTable.EvictsOnlyWhenFull` | src/events.c:130-136 | the watermark moves if and only if every slot holds another key, and then to the oldest |
| `ConfigLoss.TakeIsLossless` | src/events.c:153-177 | push, resync and pop as separate steps: a pop hands over the next thing due if and only if no latest value past the cursor has been evicted |
| `ConfigLoss.RunIsLossless` | src/events.c:120-177 | over every interleaving of pushes, resyncs and pops nothing is skipped if and only if no pop finds itself overtaken by such an eviction |
| `ConfigLoss.PopStepsOverLoss` | src/events.c:153-177 | a pop that skips something carries the cursor past the watermark: a resync that follows reports nothing |
| `ConfigLoss.LossyRun` | src/events.c:120-177 | a run in which it happens: a resync, 25 pushes of distinct names, a pop and a resync; the first name is never delivered and no refetch is asked for |
| `ConfigTable.RepeatCoalesces` | src/events.c:126-138 | a key pushed twice uses one slot if and only if it fits the key buffer |
| `Rings.MotionRing.Push` | src/events.c:61-70 | keeps the newest 32 snapshots of the log in their slots, across counter wrap |
| `Rings.MotionRing.Pop` | src/events.c:80-93 | through a 32-bit cursor: the next snapshot, or the oldest retained one after being lapped |
| `Rings.WrapIsInvisible` | src/events.c:84-88 | the wrapped counters read where the unbounded ones would if and only if the reader lags by less than 2^32 or shows as lapped all the same |
| `Rings.HistoryRing.Push` | src/events.c:236-249 | records under the next number, after following the retention |
| `Rings.HistoryRing.Resize` | src/events.c:203-234 | each retained number keeps its sample through a new layout; a failed allocation keeps the old one |
| `Rings.HistoryRing.Range` | src/events.c:271-290 | for every 32-bit cursor: lapped exactly when outside the retained window; then consecutive samples, as many as asked for and there |
| `Rings.HistoryRing.OldestHeld` | src/events.c:254-258 | the signed comparison finds the oldest number both retained and written |
| `Rings.ResizeKeepsNewest` | src/events.c:222-230 | a resize keeps exactly the newest min(held, new capacity) |
| `Rings.SlotsDiffer` | src/events.c:225-228 | numbers within one capacity of each other use different slots |
| `Rings.Follow` | src/events.c:203-290 | for every sequence of pushes, capacity changes, failed allocations and reads: what was read since the last reported lap is the log without a gap or a repeat |
| `Rings.Serve` | src/events.c:203-290 | the ring in place with a 32-bit cursor does one step of that session |
| `ConfigLine.TrimLoop` | src/config.c:1771-1778 | the two trimming loops are `Trim` |
| `ConfigLine.StripCommentLoop` | src/config.c:1786-1791 | cuts at the first comment that a blank precedes, unless the value is quoted |
| `ConfigLine.UnquoteLoop` | src/config.c:1814-1829 | strips the opening quote and the rightmost quote that closes the value |
| `ConfigLine.WriteLine` | src/config.c:2043-2059 | the written line: folded, cut at 255, quoted when a loader rule could touch it |
| `ConfigLine.ReadLine` | src/config.c:1855-1869 | the key and the value a line binds |
| `ConfigLine.RoundTrip` | src/config.c:1771-2059 | for every value, loading a written line gives back the key and the folded value if and only if the key holds no "=", has no blank at either end and does not look like a comment |
| `ConfigLine.FoldedIsIdentity` | src/config.c:2045-2050 | folding changes nothing if and only if the value fits and has no control characters |
| `ConfigLine.UnquoteUndoes` | src/config.c:1786-1829 | unquoting, trimming and comment stripping undo quoting |
| `ConfigLine.ReadKeysAreClean` | src/config.c:1855-1860 | whatever line a key is read from, it could be written back |
| `ConfigLine.TrimIs` | src/config.c:1771-1778 | trimming cuts a piece with no blank at either end out of the text |
| `ConfigFile.RewriteMeans` | src/config.c:2072-2198 | loading the rewritten lines gives the old last-binding values overridden by the batch, its last pair for a key winning, by canonical key |
| `ConfigFile.RewriteKeepsOthers` | src/config.c:2137-2138 | lines the batch does not bind keep their text and order, and nothing is added to them |
| `ConfigFile.BodyValue` | src/config.c:2110-2139 | a bound key is replaced at its first line, dropped after that, and others keep their values |
| `ConfigFile.FirstIsIndex` | src/config.c:2120-2128 | the first pair that claims a line is the first for its canonical key |
| `ConfigText.WriteKeys` | src/config.c:2072-2198 | the whole rewrite on the text of the file |
| `ConfigText.CopyChunk` | src/config.c:2110-2139 | one line-buffer read: claimed by the first matching pair or copied |
| `ConfigText.FindPair` | src/config.c:2120-2128 | exact spelling or the same canonical form |
| `ConfigText.AppendMissing` | src/config.c:2166-2167 | pairs no line was replaced by are appended in order |
| `ConfigText.LoadFile` | src/config.c:1837-1871 | the settings a load applies, long lines dropped |
| `ConfigRewrite.LoadedIsParsed` | src/config.c:1837-1871 | the settings in force after a load are those of the physical lines, the dropped ones giving none |
| `ConfigRewrite.RewriteFile` | src/config.c:1837-2198 | for every file and every batch of up to 64 writable pairs: the new file is, line for line as the loader takes them, the old one rewritten, if and only if no part of a line the loader drops reads like a pair of the batch and the file does not end in an unended 511-character setting of another key; then a load gives the old settings overridden by the batch, and every other line, dropped ones included, keeps text, place and meaning |
| `ConfigRewrite.LongClaimLoses` | src/config.c:2110-2139 | if a part of a dropped line is claimed the new file is at least two characters short of the line-wise one: every pair is put out once either way, the claimed part is gone |
| `ConfigRewrite.ClosingCopies` | src/config.c:2162-2165 | ending an unended last line changes nothing in the rewrite, unless that line is a setting that just fills the buffer |
| `ConfigRewrite.FullLastLineIsLost` | src/config.c:1844-1854 | the failing family at the end of the file: an unended 511-character last line that binds a key of no pair is read before the rewrite; after it the key has the value of the lines before |
| `ConfigRewrite.LongLineSwallowsPair` | src/config.c:2110-2139 | the other failing family at its smallest: a pair claimed by the second part of a line too long for the buffer is written into a line the loader drops |
| `PreRoll.Buffer.Push` | src/record.c:98-118 | the ring after a push is `PushTo` of the one before, with its byte count exact and every packet either held or released once |
| `PreRoll.Buffer.Clear` | src/record.c:93-97 | releases everything held |
| `PreRoll.Buffer.Flush` | src/record.c:584-594 | writes from the oldest keyframe on |
| `PreRoll.RingIsLongest` | src/record.c:98-118 | with timestamps that do not run backwards, the ring is exactly the longest non-empty suffix of what was pushed that is one packet or within count, time span and bytes |
| `PreRoll.PushKeepsLongest` | src/record.c:98-118 | one push takes the longest such suffix to the longest such suffix |
| `PreRoll.FlushStartsDecodable` | src/record.c:578-594 | the flush is the longest suffix that starts with a video keyframe |
| `Prune.CandAdd` | src/record.c:144-150 | the bounded insertion in place |
| `Prune.Collect` | src/record.c:162-176 | the recursive walk leaves the array and the size total of exactly the files visited |
| `Prune.OldestIsStable` | src/record.c:141-150 | after any walk the array is the first 32 of the stable sort by age of all files visited |
| `Prune.SortIsStable` | src/record.c:141-150 | that sort is sorted, holds the same files, and keeps files of one age in the order visited |
| `Prune.TakeInsert` | src/record.c:144-150 | keeping only the first 32 after each insertion loses none of the first 32 |
| `Prune.Pruner.PruneFree` | src/record.c:185-272 | every deletion follows a reading below the target, oldest first within a walk; -1 if the directory leads out of the tree, before any reading, and otherwise only if an earlier refusal stands or not even deleting everything would do; nothing was deleted on -1; 0 only if the target is met or unreadable, nothing is left, a deletion failed or 32 walks are used up |
| `Prune.DotdotIsComponent` | src/util.c:272-278 | the four comparisons find exactly the paths with a whole component ".." |
| `Prune.Pruner.DeleteBatch` | src/record.c:264-269 | deletes a walk's files oldest first, each only while the last reading is below the target |
| `Prune.Pruner.OneWalk` | src/record.c:223-270 | one walk; only the first may refuse, before deleting anything |
| `GatherWrite.WriteAll` | src/net.c:102-137 | for every schedule of partial acceptances, interruptions and failures: what was emitted is a prefix of the concatenated vectors, all of it exactly on success, and success is decided by the schedule alone |
| `GatherWrite.Consume` | src/net.c:122-134 | drops exactly the accepted bytes off the front of the vector |
| `GatherWrite.AdvanceDrops` | src/record.c:443-448 | dropping n bytes off the vector is dropping n bytes off its concatenation |
| `GatherWrite.SendAll` | src/net.c:87-100 | the same for a single buffer |
| `GatherWrite.ProgressFinishes` | src/record.c:435-449 | a kernel that takes something whenever it is not interrupted finishes within as many calls as there are bytes and interruptions |
| `JsonScan.CloseIsFirstUnescaped` | src/control.c:291-293 | a literal ends at its first quote not escaped by an odd run of backslashes, as in section 7 of RFC 8259 |
| `JsonScan.RawMatch` | src/control.c:286 | comparing raw bytes with the quoted name is comparing the literal's contents |
| `JsonScan.TryField` | src/control.c:286-290 | a literal is a hit exactly when it names the member: contents equal and a colon behind |
| `JsonScan.FindField` | src/control.c:279-295 | the value of the first member of that name in the token sequence |
| `JsonScan.FindObj` | src/control.c:300-318 | the member's object: just past its brace, and its matching brace among the tokens |
| `JsonScan.MatchLoop` | src/control.c:305-316 | the brace matching skips literals |
| `JsonScan.BraceIsMatched` | src/control.c:305-316 | the span found is balanced and no shorter one is |
| `JsonScan.ValueStartsToken` | src/control.c:300-318 | scanning afresh at a value yields a tail of the tokens of the whole text |
| `JsonScan.IgnScan` | src/control.c:668-687 | notes exactly the scalar members of this object, in order |
| `JsonScan.Note` | src/control.c:640-666 | passes over a name the field table or the section knows, reports the rest |
| `JsonScan.ScanIsExact` | src/control.c:640-687 | unless the list says it is short, it is exactly the scalar members of this object, in order, whose names neither the table nor the section knows |
| `JsonSection.SpanIsTokens` | src/control.c:300-318 | reading the span of an object cut out of the text yields, one by one, the tokens of the whole text between the brace and its match, a value that would begin at the end becoming none |
| `JsonSection.ApplyFields` | src/control.c:598-611 | the walk over the field table: each settable field is set from the first name token of its name, or failing that of its alias, unless that value is an object or array |
| `JsonSection.FoundIsMember` | src/control.c:279-295 | a value found under a name is a member of another name only if the names are the same and the first name token of that name is that member: no two names share a value |
| `JsonSection.AppliedOrReported` | src/control.c:598-687 | every scalar member of a section is applied, reported, known to the section itself or superseded by its field's proper name, if and only if the table does not know its name or the first name token of that name in the whole section is a scalar member of the section; never both applied and reported |
| `JsonSection.NestedIsTaken` | src/control.c:598-611 | if the first name token of a settable field's name has a scalar value but is no member of the section, the field is set from that value, which belongs to no member of the section |
| `JsonSection.ShadowedMember` | src/control.c:598-687 | a section in which it fails: in "a":{"x":{}},"x":1 the lookup of x lands on the inner object, and the member x is neither applied nor reported |

## Left out

- DayNightMachine.Automaton.Tick: reads no sensors and waits for nothing; `dn_read`, the sun's times and the pacing of the loop are inputs.
- DayNightMachine.Automaton.Decide: the re-assert timer, the desync notice, the status page, the history tick and all logging decide nothing and are not modelled.
- DayNightScene.HullRun: single-precision rounding is not modelled; averages and ratios are exact reals.
- FanQueue.Ring.PopEx: waiting and waking are not modelled, a pop on an empty queue returns at once; the separate `take_dropped` calls for the two flags a status pop clears are left out.
- FanoutSafety.NothingFreedIsTouched: relies on one producer thread per source, as the program has; parameter-set caching and rate measurement inside the same critical section are left out.
- Fanout: a push and the references it gives up are one step, since the queue's lock is held throughout and counting down commutes with other threads' counting.
- ConfigTable.Serve: the push counter is unbounded; the program's 32-bit counter wraps after four billion pushes.
- Rings.Follow: sequence numbers below 2^31, as the signed comparisons of the source assume.
- ConfigFile.RewriteMeans: the effect of one setting on another inside `set_kv`, and the clamps of values, are not modelled; a load is the map from canonical keys to their last values.
- ConfigText.WriteKeys: the temporary file, its rename and read errors are not modelled; strings hold no NUL.
- Prune.Pruner.PruneFree: that the directory is a snapshot of at most 127 characters is not modelled.
- Prune.Collect: paths are taken whole, not built in a 336-byte buffer, and links are entries that are skipped.
- Calendar.NightLastsUntilDawn: the sunrise and sunset arithmetic, parsing of "HH:MM" and days with a clock change are not modelled.
- GatherWrite.WriteAll: an endless series of interruptions, which never returns, is not a schedule; byte totals are unbounded.
- JsonScan.IgnScan: the length of an escaped name in the reply is a parameter; the reply itself is left out.
- JsonSection.ApplyFields: where a field's value is read is modelled, decoding its text and applying it are not.
- JsonSection.AppliedOrReported: names a section takes outside the table count as taken; the code that takes them is not modelled.
- ConfigLoss.RunIsLossless: one subscriber, and names that fit their buffer.
- The motion grid clamp and the field tables of `src/config.c`: data with easy properties only.
- fMP4 muxing, segment files, RTSP, HTTP, SRT, WebRTC and TLS: input and output.
- `src/md5.c`, `src/auth.c`, `src/log.c`, `src/main.c`: plumbing.
