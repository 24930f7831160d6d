# USB mouse proxy: verified model

This project models the control path of the USB mouse proxy and proves what every run of it keeps: a UDP server
accepts transactions, clicks, movement and releases; a mixer merges them with the reports of a real mouse; one USB
writer completes or fails each report; completions drive the server's state machines.

Each part is described twice. A function says what an operation does to a value; a class or method does it in place,
with the source's loops and order of checks, and is proved equal to the function. Runs are sequences of labels over
the functions, so every interleaving of server, writer and physical mouse is covered, and network loss, duplication
and reordering come for free.

| file | part |
|---|---|
| Common, MoveTypes | shared values, the transaction protocol's values |
| HidReport, MouseLayout, Descriptor, Splitting | bit fields, layouts, the HID report descriptor parser (section 6.2.2 of the Device Class Definition for HID 1.11), delta splitting |
| Mixer, Endpoint, MouseEndpoint, EndpointRun | the synthetic queue, one endpoint, its object, whole runs of it |
| Executor, TransactionLoop, TransactionSteps, TransactionRun | the move/click/return transaction, the closed loop of server, mixer and writer around it, the step proofs, the results |
| TransactionProgress, ReleaseRun, OwedRelease, Admission | the measure that falls with every working step and the end it leads to, the release obligation in every run, what must be written before it ends, the admission test against the layout |
| MaskRun | the masks asked for over the full loop: no click edge is lost |
| Sessions, SessionHistory, MotionReplay, ReplayHistory | the session tracker and the movement replay filter, each against a reference that never forgets |
| ClickScheduler, Server, ServerObject | click protocol values and scheduler, the server's handlers, the server object |
| ServerRun, CacheRun, ClickCounts | runs of the server under an arbitrary environment: commands start once, and exactly when; records are few, releases are never refused, counts come out |
| ServerLoop | the server's handlers as steps of the full loop |
| ClickMasks | the scheduler's masks, and the chain of masks along the queue |
| ClickLoop, ClickRun, ClickTiming | the closed loop around clicks, under one clock: what its steps keep, timing |
| BlockedPress, SignedButtons, Restart | runs and inputs for which a property fails |
| Wire, Codecs, Capture | packet codecs, capture payloads and descriptor merging |

Where a property is false of the code, the model keeps the code, shows a run or an input that fails, and proves
exactly when it holds:

- A press is released or its release is owed, except when the transaction's press goes over a button the host still sees
  down: `BlockedPress.BlockedPressKeepsItsMask` is a run of the endpoint that ends so, and `ReleaseRun.PressIsNeverForgotten`
  says that it is the only one. A later click of that button loses its edge (`BlockedPress.BlockedPressLosesClick`): an edge
  over an idle endpoint is dropped unsent exactly when it asks for the masks already applied (`ClickMasks.LoneEdgeExpiresIff`).
  In every run of the full loop in which no such press is read, and in which the server looks at the layout before it acts,
  no click edge is dropped, transactions included (`MaskRun.ClickEdgesNeverExpire`).
- A release that is owed ends only after a report of it was written since, except when a success of the same key waits
  posted and unfetched: `OwedRelease.LateSuccessEndsRelease` is a run, and `OwedRelease.OwedEndsUnwrittenIff` says that this
  is exactly when it can happen. A ReleaseAll has a fresh key, so that it never happens to one
  (`OwedRelease.ReleaseCompletesWritten`); what resets owe shares one empty key.
- A button of range -1..0 passes the parser and never goes down (`SignedButtons.SignedButtonStaysUp`); a button reads back
  as written exactly under the condition of `MouseLayout.ButtonReadsBackIff`.
- An accepted movement sequence number is taken for new again after `ReplayHistory.HalfwayLooksNew`; it is refused exactly
  under the condition of `ReplayHistory.AcceptedIsStaleIff`.
- A command starts twice in `Restart.FirstCommandRestarts`; `CacheRun.ReleaseStartsIff`, `CacheRun.ClickStartsIff` and
  `CacheRun.MoveStartsIff` say exactly when a command starts, `ServerRun.CommandsStartOnce` that a second start needs a
  dropped mark, and `SessionHistory.ForgottenOnlyWhenOldOrCrowded` when a mark is dropped.

Two loops close server and writer. `TransactionLoop` holds the executor, the scheduler and the release owed, with layout
changes and clock readings anywhere; `ServerLoop.ServerRunsTheLoop` shows that the server's handlers are its steps. `ClickLoop`
adds one clock, for the timing of clicks; what transactions ask for enters it as arbitrary items that come only while no
click is queued, which is what the loop of transactions keeps. In both, command keys are fresh when accepted. Of the server
that is so for sessions whose mark was not dropped (`ServerRun.CommandsStartOnce`); `ServerRunsTheLoop` speaks of runs in
which only such sessions start commands.
`dafny verify dfyconfig.toml` checks the whole project.

## Model

| member | source | states |
|---|---|---|
| HidReport.PutBitsAt | mouse_protocol.h:17-25 | writing a field sets exactly its own bits: any other bit position keeps its value |
| HidReport.LoadStore | mouse_protocol.h:10-25 | a well-formed field reads back every value it accepts, two's complement included |
| HidReport.StoreFrame | mouse_protocol.h:17-25 | a write changes no bit outside the field |
| HidReport.LoadStoreOther | mouse_protocol.h:10-25 | a disjoint field still reads what it read before |
| HidReport.Get | mouse_protocol.h:10-16 | the bit loop over the buffer computes the field's signed value |
| HidReport.Put | mouse_protocol.h:17-25 | the in-place bit loop: false and untouched out of range, otherwise the buffer with exactly that field stored |
| MouseLayout.PutButtons | mouse_protocol.h:36-38 | every declared button bit is written from its mask bit, in place |
| MouseLayout.ReadButtons | mouse_protocol.h:33-35 | the mask has a bit exactly for each declared button field that is not zero |
| MouseLayout.Encode | mouse_protocol.h:39-43 | relative fields zeroed, buttons and axes written in place; the result tells whether every axis was accepted |
| MouseLayout.EncodedReadback | mouse_protocol.h:10-44 | after encoding, every axis and button decodes to the command |
| MouseLayout.EncodedZeroesOtherRelative | mouse_protocol.h:39-43 | relative fields that are no axis are zero after encoding |
| MouseLayout.EncodedKeepsOtherBits | mouse_protocol.h:39-43 | bits that belong to no field keep their value |
| MouseLayout.AppliedReadback | mouse_mixer.cpp:109-115 | merging axes and buttons into a report: each in-range axis reads back, an out-of-range axis keeps its value, bits nobody owns are untouched |
| MouseLayout.StoredButtonsRead | mouse_protocol.h:33-38 | with button ranges that include 1 the written mask reads back on every declared button |
| MouseLayout.ButtonReadsBackIff | mouse_protocol.h:17-25 | the exact condition under which a written one-bit button reads back: its range admits the value, or the bit was already set |
| SignedButtons.SignedMouseIsParsed | mouse_protocol.h:47-118 | a descriptor, octet by octet, whose mouse has a button of range -1..0: the parser accepts it |
| SignedButtons.SignedButtonStaysUp | mouse_protocol.h:36-38 | whatever mask is written to a report of that mouse, its button stays up |
| Descriptor.ParseMouseDescriptor | mouse_protocol.h:47-118 | the loop over short items returns exactly the specified profiles, or none on every malformed input |
| Descriptor.PopRestoresGlobals | mouse_protocol.h:59-67 | whatever stands between a push and its pop, the global state is then as before and everything else stays done (section 6.2.2.7) |
| Descriptor.ProcessInput | mouse_protocol.h:83-109 | one Input item: room taken, fields added, mixed reports marked, rejections in order |
| Descriptor.AddFieldBuilds | mouse_protocol.h:93-107 | a field placed past everything before it keeps the layout's fields inside and pairwise apart |
| Descriptor.ParsedProfilesAreValid | mouse_protocol.h:47-118 | every returned profile has its fields inside the report, pairwise disjoint, past the report id octet, representable in 1..16 bits with minimum <= 0 <= maximum, with X, Y and a button; ids are distinct |
| EndpointRun.ParsedLayoutsAreValid | mouse_mixer.cpp:169-173 | profiles read from any descriptor meet what every endpoint operation asks of its layouts |
| Splitting.SplitMouseCommand | mouse_protocol.h:120-139 | the greedy loop returns the specified parts, and none when a button is undeclared, an axis stalls or 32 parts do not suffice |
| Splitting.SplitIsExact | mouse_protocol.h:120-139 | the parts sum to the command on every axis; each part lies in the field limits and never overshoots zero |
| Splitting.SplitCount | mouse_protocol.h:120-139 | a command splits if and only if its buttons are declared and no axis needs more than 32 parts; the length is then the largest per-axis ceiling, at least one |
| Splitting.SplitTail | mouse_protocol.h:126-137 | what is left after the first part splits into the remaining parts |
| Splitting.AdmissionIsExact | udp_server.cpp:297-304 | the server's segment test admits a movement if and only if both the way out and the way back split |
| Mixer.SupersedeShape | mouse_mixer.cpp:296-301 | only unsent newest-correction movement with the same mask and barrier is dropped, from the tail |
| Mixer.ExpireShape | mouse_mixer.cpp:142-155 | expiry drops a prefix with nothing left to do and at most zeroes overdue movement of the new front |
| Mixer.CompleteShape | mouse_mixer.cpp:414-427 | a completion settles the front item it carries, or changes nothing |
| Mixer.EnqueueKeepsInv | mouse_mixer.cpp:286-309 | ids rise along a queue of at most eight; a new item is never already committed |
| Mixer.CompleteKeepsInv | mouse_mixer.cpp:414-427 | an item stays committed only at the front, with the applied masks and motion left |
| Mixer.EnqueueKeepsLink | mouse_mixer.cpp:286-309 | no enqueue drops the item whose overlay is in the writer |
| Mixer.TakeKeepsLink | mouse_mixer.cpp:323-385 | an item marked in flight is the front item, and the writer carries its masks |
| Mixer.FinishKeepsLink | mouse_mixer.cpp:387-427 | after its completion nothing is in flight |
| Endpoint.LayoutIsUnique | mouse_mixer.cpp:92-96 | a report that matches the learnt id matches the learnt layout |
| Endpoint.ObserveKeepsValid | mouse_mixer.cpp:205-225 | a physical report is stamped with what the current layout decodes |
| Endpoint.TakeKeepsValid | mouse_mixer.cpp:323-385 | a take keeps layouts, templates, stamps and queue in order |
| Endpoint.NotifyKeepsValid | mouse_mixer.cpp:387-434 | a completion keeps them too, and its standalone template is a whole report |
| MouseEndpointObject.MouseEndpoint.QueuePhysicalReport | mouse_mixer.cpp:205-225 | in place: layout learnt, barrier and activity counted, report stamped |
| MouseEndpointObject.MouseEndpoint.EnqueueReport | mouse_mixer.cpp:286-309 | in place: guards, unsupported commands, supersession, bound and the new item |
| MouseEndpointObject.MouseEndpoint.ClearSyntheticState | mouse_mixer.cpp:311-321 | in place: queue emptied and nothing in flight; applied masks stay |
| MouseEndpointObject.MouseEndpoint.InvalidateInterface | mouse_mixer.cpp:157-166 | in place: templates, queue, masks and flight dropped under a new generation |
| MouseEndpointObject.MouseEndpoint.ExpireFront | mouse_mixer.cpp:142-155 | the loop over overdue and idle front items |
| MouseEndpointObject.MouseEndpoint.RemoveFinishedFront | mouse_mixer.cpp:134-141 | the loop over finished front items |
| MouseEndpointObject.MouseEndpoint.ChooseNext | mouse_mixer.cpp:330-351 | physical, fused, buttons only, standalone or competing: the specified choice |
| MouseEndpointObject.MouseEndpoint.TakeMouseReport | mouse_mixer.cpp:323-385 | in place: the whole take, report bytes included |
| MouseEndpointObject.MouseEndpoint.NotifyWritten | mouse_mixer.cpp:387-434 | in place: credits, template, masks, item and event of a completion |
| MouseEndpointObject.WriterEvents.Post | mouse_mixer.cpp:435-438 | an event joins the queue of at most 32, or sets the overflow flag |
| MouseEndpointObject.WriterEvents.TakeEvents | mouse_mixer.cpp:441-444 | the whole queue is handed over and emptied |
| MouseEndpointObject.WriterEvents.TakeOverflow | mouse_mixer.cpp:445-448 | the flag is read and cleared |
| EndpointRun.PhysicalIsFaithful | mouse_mixer.cpp:353-369 | a physical report, fused or not, decodes to physical plus applied motion |
| EndpointRun.StandaloneIsFaithful | mouse_mixer.cpp:373-384 | a synthesized report decodes to the applied motion alone |
| EndpointRun.TakeTakes | mouse_mixer.cpp:323-385 | every take is one of the specified kinds; with two physical reports waiting the oldest leaves next |
| EndpointRun.StepKeepsInv | mouse_mixer.cpp:205-434 | arrivals, enqueues, clears, layout changes, takes and completions, in any order, keep queue, ledgers, order and fairness |
| EndpointRun.DisplacementIsConserved | mouse_mixer.cpp:353-434 | over any run, what the host decoded of described reports is the physical sum plus the applied synthetic sum |
| EndpointRun.ItemsWriteWhatWasAsked | mouse_mixer.cpp:414-427 | no item ever writes past its command, and every finished item that is not a newest correction wrote exactly it |
| EndpointRun.AppliedIsItems | mouse_mixer.cpp:417-423 | since the last layout change the applied motion is the sum of what that layout's items wrote, each report counted in one item |
| EndpointRun.HostSeesPhysicalPlusItems | mouse_mixer.cpp:97-115 | while one layout stands the host decoded the physical motion plus what the items wrote |
| EndpointRun.ChoiceShortens | mouse_mixer.cpp:330-384 | whatever report carries a transaction's item, once it is written the item is done, needs a report less, or has its masks committed |
| EndpointRun.LayoutStays | mouse_mixer.cpp:205-212 | the generation never falls, and within one generation the learnt layout stays |
| EndpointRun.PhysicalReportsComeFirst | mouse_mixer.cpp:349-350 | three times the successful competing standalone reports never exceeds the successful physical reports |
| EndpointRun.PhysicalReportsKeepOrder | mouse_mixer.cpp:353-370 | physical reports leave once each, in arrival order |
| EndpointRun.QueueIsOrderedAndBounded | mouse_mixer.cpp:286-427 | at most eight items with rising ids; in flight means the front item |
| EndpointRun.StaleCompletionIsHarmless | mouse_mixer.cpp:387-427 | the completion of a report taken before a clear or a layout change moves no mask and no item |
| EndpointRun.RegistrationLeavesStray | mouse_mixer.cpp:184-193 | registering an endpoint anew while a report is in the writer leaves that report stray under the old instance |
| EndpointRun.ReplacedEndpointIsIgnored | mouse_mixer.cpp:393 | in every reachable state the completion of such a report changes nothing of the new endpoint and posts no event |
| EndpointRun.UnknownBitsPassThrough | mouse_mixer.cpp:364-369 | bits that no known field owns leave as the physical mouse sent them |
| Executor.MoveExecutor.Start | move_executor.h:24-38 | a fresh ledger in the way-out stage, with its deadline |
| Executor.MoveExecutor.Stop | move_executor.h:39-47 | ends an active transaction, flagged uncertain when an item was pending |
| Executor.MoveExecutor.Proceed | move_executor.h:48-51 | resumes a waiting transaction and nothing else |
| Executor.MoveExecutor.Cancel | move_executor.h:52-55 | marks an active transaction cancelled |
| Executor.MoveExecutor.Event | move_executor.h:56-98 | in place: the ledger and stage after a writer event |
| Executor.MoveExecutor.Tick | move_executor.h:100-199 | in place against the endpoint: the checks, the stage machine, the one enqueue and its answer |
| TransactionSteps.CreditKeepsInv | move_executor.h:63-78 | a report that does not finish its item moves its displacement from unread to acknowledged |
| TransactionSteps.ItemDoneAccount | move_executor.h:80-97 | the finishing event closes the stage's account: acknowledged equals written, nothing of the item is left |
| TransactionSteps.OverflowKeepsInv | udp_server.cpp:218-220 | a lost completion is followed by the overflow reset |
| TransactionSteps.TickKeepsInv | move_executor.h:100-199 | a tick submits only when nothing of the transaction is on its way, and asks for exactly what is owed |
| TransactionSteps.FinishKeepsInv | mouse_mixer.cpp:387-438 | a completion is counted once: in the item, in its event, or as lost with the overflow flag |
| TransactionRun.StepKeepsInv | move_executor.h:12-199 | every step of server, clicks, releases, writer and physical side keeps the joint invariant of stage, queued item, report in the writer and unread events |
| TransactionRun.CompletedIsBalanced | move_executor.h:56-199 | in every run a Completed transaction went out (dx, dy) and back -(dx, dy), residual zero, flags 6 exactly with a button, and wrote exactly one press and one release then |
| TransactionRun.UncertainFlagIsSound | move_executor.h:39-47 | in every run, once over and not flagged uncertain, the acknowledged displacement is what successful reports wrote, for good |
| TransactionRun.LostEventForcesReset | udp_server.cpp:176-225 | while a completion is lost no unread event finishes the item; the overflow check, or under a new layout the next tick that sees it, ends the transaction as uncertain with an empty queue and a release owed |
| TransactionRun.MotionIsWhole | move_executor.h:130-191 | a transaction asks for the whole way out, the whole way back, or an edge without motion, cancelled or not |
| Admission.AdmissionFitsLayout | udp_server.cpp:291-305 | a transaction admitted over an endpoint's snapshot fits that endpoint's layout, and one refused for range does not, or takes too long |
| Admission.AdmittedIsNeverUnsupported | udp_server.cpp:296-304 | after the admission, over any run of the endpoint, no enqueue of the transaction is answered Unsupported |
| TransactionProgress.StageNeverFalls | move_executor.h:39-98 | between two starts the stage number never decreases, so Done is final |
| TransactionProgress.WorkIsProgress | move_executor.h:100-199 | in every run no step raises the rank of a running transaction (stages, steps of the stage, reports left of the item, masks to commit, events to read), and every tick that need not wait, every written report and every event of the transaction lowers it |
| TransactionProgress.TransactionEnds | move_executor.h:100-199 | in every unbounded run that never stops working for it a transaction ends |
| ReleaseRun.PressIsNeverForgotten | move_executor.h:82-97 | however a transaction ends, a release is then owed with nothing before it, or every press it wrote is released; the one exception, if and only if, is reading that its press went over a button already down |
| ReleaseRun.ReleaseStartsUnwritten | udp_server.cpp:116-128 | when a ReleaseAll is accepted no report with its key was ever written, and the transaction is over |
| ReleaseRun.OwedStays | udp_server.cpp:150-187 | what is owed stays owed until an event of its own key is read |
| OwedRelease.OwedIsWrittenSince | udp_server.cpp:183-187 | in every run, for a ReleaseAll and for what any reset owes alike: unless a success of its key is still unread, the release ends only after a report with that key and both synthetic masks empty was fully written since |
| OwedRelease.ReleaseCompletesWritten | udp_server.cpp:116-128 | so a ReleaseAll completes only after its report was written between its acceptance and its completion |
| OwedRelease.OwedEndsUnwrittenIff | udp_server.cpp:183-187 | the exact exception: a release that just became owed can end in some continuation without a report of it written since, if and only if a success of its key is posted but not fetched with no failure before it |
| OwedRelease.LateSuccessEndsRelease | udp_server.cpp:217-226 | a run that does so: a reset's release is written after the events were fetched, a second reset owes anew, and the next fetch ends that while its own report still waits |
| OwedRelease.UnreleasedPressIsReleased | udp_server.cpp:116-128 | a transaction that ends with its press unreleased owes a release that ends only after such a report was written since; the blocked press and an unread success apart |
| TransactionRun.EndpointTakeIsAStep | mouse_mixer.cpp:323-385 | the endpoint's take is, on its synthetic side, a take of this loop |
| TransactionRun.EndpointNotifyIsAStep | mouse_mixer.cpp:387-438 | the endpoint's completion is a completion of this loop, with the same event |
| BlockedPress.BlockedPressKeepsItsMask | mouse_mixer.cpp:127-131 | a run of endpoint and executor from the start of the transaction, for every layout that can press the button: admitted over a released button whose release report is still on its way, two ticks lead to the press, it is fused onto that report, reported blocked, and ends as ButtonActive with its mask applied and nothing queued |
| BlockedPress.BlockedPressLosesClick | mouse_mixer.cpp:142-155 | the run goes on: a click of that button is admitted, its press is asked for and accepted, and the next take drops it unsent |
| BlockedPress.BootMouseClicks | mouse_mixer.cpp:177-181 | the boot mouse is such a layout |
| ClickMasks.LoneEdgeExpiresIff | mouse_mixer.cpp:142-155 | a click edge queued over an idle endpoint is dropped unsent if and only if its masks are the applied ones |
| Sessions.FindEntry | session_tracker.h:62-64 | the first entry of a session, or the end |
| Sessions.Tracker.Prune | session_tracker.h:65-69 | exactly the expired tombstones go |
| Sessions.Tracker.IsStale | session_tracker.h:15-21 | after pruning, stale exactly at or below the session's mark |
| Sessions.Tracker.AdmitSession | session_tracker.h:24-46 | refresh, revival with the kept mark, first unprotected victim, forced victim, or refusal |
| Sessions.Tracker.RetireEntry | session_tracker.h:70-74 | the entry becomes the newest tombstone; the oldest beyond 256 go |
| Sessions.Tracker.AcceptCommand | session_tracker.h:48-53 | the mark of an active session rises to the command |
| SessionHistory.StepIsTracker | session_tracker.h:15-53 | the histories reasoned about are the tracker's own operations |
| SessionHistory.TrackerRefinesMap | session_tracker.h:15-75 | 32 active and 256 retired, duplicate-free and disjoint; wherever nothing was dropped, marks equal those of an unbounded map |
| SessionHistory.StaleIsExact | session_tracker.h:15-21 | for a session never dropped the answer is the unbounded map's |
| SessionHistory.ForgottenOnlyWhenOldOrCrowded | session_tracker.h:65-74 | a mark is forgotten only past its retention or behind at least 256 later retirements |
| SessionHistory.RevivalKeepsEveryMark | session_tracker.h:31-45 | taking up a tombstone keeps its mark and forgets no other session |
| MotionReplay.StartIsRefused | mouse_protocol.h:142 | by the comparison of section 3.2 of RFC 1982 the start of a chain is refused exactly when the chain left it by at most 2^31, modulo 2^32 |
| MotionReplay.EarlierIsNotNewer | mouse_protocol.h:142 | below an advance of 2^31 no earlier number is newer than the last |
| MotionReplay.Tracker.PruneEntries | upx_replay.h:53-59 | expired entries go from the front, up to the first that is not |
| MotionReplay.Tracker.FindEntry | upx_replay.h:45-51 | the search from the back |
| MotionReplay.Tracker.IsStale | upx_replay.h:22-26 | after pruning, stale exactly when a known peer's number is not newer |
| MotionReplay.Tracker.AcceptSequence | upx_replay.h:28-37 | refreshed to the back, or appended with the oldest evicted at 256 |
| ReplayHistory.PruneIsFilter | upx_replay.h:53-59 | where stamps never fall, the front-only prune drops everything expired |
| ReplayHistory.FilterIsMostRecent | upx_replay.h:22-59 | under a clock that never runs back the filter is the unexpired part of the 256 most recently accepted peers |
| ReplayHistory.AcceptedSequencesStayStale | upx_replay.h:22-37 | everything accepted of a tracked peer stays stale while the total advance is below 2^31 |
| ReplayHistory.AcceptedIsStaleIff | upx_replay.h:22-26 | in every run an accepted number of a tracked peer is refused if and only if what was accepted since advanced by at most 2^31, modulo 2^32 |
| ReplayHistory.HalfwayLooksNew | upx_replay.h:22-37 | a run of three datagrams after which the first number is taken for new |
| ServerObject.UdpServer.BeginReset | udp_server.cpp:116-128 | in place: transaction stopped, commands cancelled, replaced release finished, endpoint cleared, release owed |
| ServerObject.UdpServer.RemoveOldCache | udp_server.cpp:129-134 | the loop that evicts the oldest finished records of a full cache |
| ServerObject.UdpServer.CancelWork | udp_server.cpp:109-115 | every queued binary command ends as Cancelled |
| ServerObject.UdpServer.SyncMove | udp_server.cpp:101-108 | the record with the executor's key follows its ack |
| ServerObject.UdpServer.SchedulerTick | udp_server.cpp:150-175 | at most one enqueue, and what each answer does |
| ServerObject.UdpServer.ProcessEvent | udp_server.cpp:176-207 | one writer event: executor, reset on failure, release, edges |
| ServerObject.UdpServer.ProcessWriterEvents | udp_server.cpp:176-208 | the batch in order, through every reset, each with its own clock reading; the endpoint is cleared exactly when an event failed |
| ServerObject.UdpServer.TrackLayout | udp_server.cpp:211-216 | the layout check at the top of the loop, and when it clears the endpoint |
| ServerObject.UdpServer.CheckLease | udp_server.cpp:221-224 | the 250 ms watchdog, and when it clears the endpoint |
| ServerObject.UdpServer.MoverTurn | udp_server.cpp:225-226 | the executor's tick with its one enqueue, and the reset it may ask for, on server and endpoint; the second look at its record finds nothing new |
| ServerObject.UdpServer.MovePacket | udp_server.cpp:271-311 | the UPM1 handler: replies, cache, session, start, in the source's order of checks |
| ServerObject.UdpServer.ClickPacket | udp_server.cpp:318-382 | the UPC1 handler for parsed clicks and ReleaseAll; only a ReleaseAll that starts clears the endpoint |
| ServerObject.UdpServer.MotionPacket | udp_server.cpp:387-411 | the UPX1 handler with its filter and one enqueue |
| ServerObject.UdpServer.TextClick | udp_server.cpp:444-452 | a text click is queued without a record |
| ServerObject.UdpServer.TextRelease | udp_server.cpp:419-422 | a text release resets, clears the endpoint and owns, unless another peer owns |
| ServerRun.MoveKeepsStarts | udp_server.cpp:271-311 | a transaction starts only above everything its session ever started |
| ServerRun.ClickKeepsStarts | udp_server.cpp:312-382 | so does a click command or ReleaseAll |
| ServerRun.CommandsStartOnce | udp_server.cpp:271-382 | under any datagrams, events, snapshots and answers, the commands a session starts strictly increase over both protocols, evicted records or not, unless its mark was dropped |
| ServerLoop.EventIsAStep | udp_server.cpp:176-208 | the server's handling of an event leaves executor and scheduler as the loop's delivery does |
| ServerLoop.MoverTickIsAStep | udp_server.cpp:225-226 | its executor tick is the loop's tick, whatever snapshot it took |
| ServerLoop.SchedTickIsAStep | udp_server.cpp:150-175 | its scheduler tick is the loop's turn |
| ServerLoop.MoveIsAStep | udp_server.cpp:290-310 | a transaction that starts over a true view of the endpoint finds queue, scheduler and executor idle, and is the loop's to start when its key is fresh |
| ServerLoop.ClickIsAStep | udp_server.cpp:345-381 | a click command or ReleaseAll that starts is the loop's to accept when its key is fresh |
| ServerLoop.ServerRunsTheLoop | udp_server.cpp:210-456 | every run of the server over an endpoint it is truly told of is a run of the full loop, with the same executor and scheduler, as long as no command starts in a session whose mark was dropped |
| ServerLoop.ServedTransactionIsBalanced | move_executor.h:56-199 | so the server's own ledger of a Completed transaction balances, with one press and release if it has a button, and that is what the writer wrote |
| Restart.FirstCommandRestarts | udp_server.cpp:372-381 | a run of 290 ReleaseAlls, one of each of 289 sessions and the first again: it starts twice, its session's mark having been dropped |
| CacheRun.ReleaseStartsIff | udp_server.cpp:318-381 | in every reachable state a ReleaseAll starts if and only if it is the owner's, not cached, and above its session's mark |
| CacheRun.ClickStartsIff | udp_server.cpp:318-371 | a click command starts if and only if, besides, nothing stands against it and its session can be taken up |
| CacheRun.MoveStartsIff | udp_server.cpp:274-310 | so does a transaction of the server's epoch |
| ClickCounts.QueuedIsCounted | udp_server.cpp:354-371 | the record of a queued click command holds its count as accepted and its finished clicks as completed, in sessions whose mark was not dropped |
| ClickCounts.CompletedEqualsAccepted | udp_server.cpp:188-208 | a click command whose record says Completed completed exactly the clicks it was accepted for, in such sessions |
| CacheRun.ResetKeepsCache | udp_server.cpp:116-128 | a reset finishes every record but that of the release it owes |
| CacheRun.StepKeepsCache | udp_server.cpp:98-456 | every handler keeps keys distinct, 256 records, 64 commands, and unfinished records live |
| CacheRun.UnfinishedIsLive | udp_server.cpp:98-140 | an unfinished record is the running transaction, the owed release, or a queued command |
| CacheRun.OneReleaseIsOwed | udp_server.cpp:116-128 | at most one ReleaseAll record is unfinished, and it is the release key |
| CacheRun.UnfinishedAreFew | udp_server.cpp:98-140 | at most 66 records are unfinished |
| CacheRun.EvictionMakesRoom | udp_server.cpp:129-134 | a full cache always holds a finished record to evict |
| CacheRun.ReleaseIsNeverRefused | udp_server.cpp:372-381 | a fresh ReleaseAll of the owner that is not stale is always accepted, and is then owed with nothing queued and nothing down |
| ClickLoop.StepKeepsLink | mouse_mixer.cpp:286-434 | in the click loop too, what is in flight is the front item and the writer carries it |
| ClickMasks.SettledKeepsSched | udp_server.cpp:176-208 | the scheduled mask is the front command's button while that is down, and empty otherwise |
| ClickMasks.TurnKeepsSched | udp_server.cpp:150-175 | every edge asks for another mask than the one scheduled |
| ClickMasks.ChainExpired | mouse_mixer.cpp:142-155 | expiry keeps the chain of masks and its end |
| ClickMasks.ChainEnqueuedMotion | mouse_mixer.cpp:286-309 | movement, superseding or not, keeps it |
| ClickMasks.ChainCompleted | mouse_mixer.cpp:414-427 | a completion puts the front's mask in force and keeps it |
| ClickMasks.ChainEnqueuedTransaction | mouse_mixer.cpp:286-309 | a transaction's item puts its own mask at the end of the chain |
| MaskRun.PlanLends | move_executor.h:112-191 | between its items a running transaction keeps the mask it asked for last, and each submission asks for the next |
| MaskRun.StepKeepsMasks | udp_server.cpp:150-226 | every step of the full loop keeps the chain of masks, ending at the transaction's mask while one runs and at the scheduler's otherwise |
| MaskRun.FrontEdgeDiffers | mouse_mixer.cpp:142-155 | in every run of the full loop that is orderly an edge that reaches the front asks for another mask than the one applied |
| MaskRun.ClickEdgesNeverExpire | mouse_mixer.cpp:142-155 | in every such run, transactions, releases, resets and layout changes included, and however late the writer comes, expiry drops no click edge |
| ClickRun.StepKeepsInv | udp_server.cpp:150-220 | every step of the click loop keeps scheduler, layout, queue and writer in order |
| ClickTiming.EdgeArrives | udp_server.cpp:188-208 | the first success of the front command read is of its edge in flight, with the written time of that edge, and the last of it |
| ClickTiming.StepKeepsTiming | udp_server.cpp:150-220 | every step keeps written edges timed and at most one edge of the command on its way |
| ClickTiming.EdgesAlternate | udp_server.cpp:188-208 | written edges of a command strictly alternate press and release with rising index, transactions, resets and layout changes included |
| ClickTiming.CompletedClicksKeepTheirTiming | udp_server.cpp:188-208 | a Completed n-click command wrote n presses and n releases, spans at least (n-1) intervals and one press in version 1, n presses and (n-1) intervals in version 2, and its progress equals its count |
| Wire.StoreBig | move_protocol.h:53-62 | the in-place octet loop writes the big-endian field and nothing else |
| Wire.WritePacket | move_protocol.h:76-95 | a packet built field by field is the concatenation of its fields |
| Wire.ReadPacket | move_protocol.h:96-118 | fields read at their offsets are the packet's decoding |
| Wire.DecodeEncode | move_protocol.h:43-62 | values that fit their fields decode to themselves |
| Wire.EncodeDecode | move_protocol.h:43-62 | decoded packets encode to the same octets |
| Codecs.ParseMoveIsExact | move_protocol.h:76-118 | a UPM1 packet parses to a request if and only if the request is valid and the octets are its packet |
| Codecs.SameIffFieldsAgree | move_protocol.h:119-122 | two requests count as the same exactly when all fields but the operation agree |
| Codecs.ParseReplyIsExact | move_protocol.h:130-169 | the same equivalence for UPR1 replies |
| Codecs.ParseClickIsExact | click_protocol.h:32-48 | the same equivalence for UPC1 requests of both versions |
| Codecs.ParseAckIsExact | click_protocol.h:54-64 | the same equivalence for UPA1 replies |
| Capture.ReadHex | replay_profile.h:18-25 | the loop over digit pairs, with both rejections |
| Capture.HexRoundTrip | replay_profile.h:18-25 | payloads of up to 4096 octets survive being written in hexadecimal, and no longer one does |
| Capture.MergeReplies | replay_profile.h:42-46 | the loop over acknowledged replies: the longest so far per request, or a conflict |
| Capture.RepliesArePrefixes | replay_profile.h:42-46 | in a capture that loads, every acknowledged reply is a prefix of the stored descriptor |
| Capture.StoredIsAReply | replay_profile.h:42-46 | what is stored for a request is one of the replies to it |
| Capture.LoadsIffRepliesAgree | replay_profile.h:42-46 | replies merge if and only if, for each request, of any two one continues the other |

## Left out

- Sockets, polling, environment variables, threads, the raw-gadget and libusb calls and process start: the writer is take followed by a completion that succeeds or fails, and each locked function is one step.
- Telemetry, the capability query, state text, the layout fingerprint, residence samples, cumulative and saturating counters: they only report.
- Parsing of text commands, JSON, and the injection rules: text clicks, releases and reports enter as values.
- 64-bit counters and times are natural numbers: the saturation of click due times at 2^64 is not modelled.
- Notifications to a command's last peer: handlers return the direct reply only.
- `seed_mouse_report` and the choice of a selected endpoint among several: one endpoint, replaced registrations by instance number.
- The physical FIFO's own bound and its back-pressure on the reader: arrivals are unbounded.
- The configuration walk of a capture (interfaces, endpoints, HID blocks) and the rebuilt HID descriptor entries.
- Layout changes in the middle of a server iteration, for `ClickTiming` and `MaskRun` only: there the server looks at the layout before it acts, since handlers overwrite the tracked generation.
- Packets that do not parse: a malformed UPC1 packet is answered Invalid with whatever key it seems to carry; other malformed packets are dropped.
- ServerRun.CommandsStartOnce: says nothing of sessions whose tombstone was dropped, because the server then accepts their commands again.
- ClickCounts.CompletedEqualsAccepted: says nothing of sessions whose tombstone was dropped, because the keys of such a session may come again while older work with the same key is still about.
- ClickTiming.EdgesAlternate: says nothing of text clicks, which have no key of their own.
- ServerLoop.ServerRunsTheLoop: says nothing of runs in which a command starts in a session whose tombstone was dropped, because its key may be in use.
