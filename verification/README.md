# A verified model of mux

mux keeps terminal sessions alive in a daemon (`muxd`), tiles them in a Mac app,
and carries audio between a remote shell and the Mac. This project models the
parts of it where correctness spans several tasks, two processes or a lossy
network, and proves what the code relies on, for every input and every schedule.

`dafny verify dfyconfig.toml` checks everything. Each module is one file of the
same name.

| area | modules |
|---|---|
| Pty sessions: read loop, client slot, attach, detach, exit | `Terminal`, `PtyStream`, `PtySession` |
| Pty table, close lease, adoption | `PtyTable`, `PtyManager` |
| Self-upgrade between two daemons | `Handoff`, `HandoffOutcomes`, `HandoffRuns`, `HandoffMessage` |
| Interactive and checked input | `ControlInput` |
| Watch subscribers over a bounded broadcast | `WatchFeed`, `WatchExact` |
| Remote audio: packets, epochs, routes and device leases | `LittleEndian`, `AudioPackets`, `AudioEpochs`, `AudioRoute` |
| ALSA plugin: sample clock, playback ring, capture ring and resampler | `AlsaSamples`, `AlsaClock`, `AlsaPlayback`, `AlsaCapture` |
| Split tree: layout, resize, focus, movement | `SplitTree`, `SplitLayout`, `SplitResize`, `PaneFocus` |
| Agent detection: screen regions, matcher gates, rule priority | `ScreenLines`, `ScreenRegions`, `RuleGates` |
| Wire envelopes | `WireFrames` |

## How the concurrent parts are modelled

A protocol is a state machine: a `State`, an `Action` for every region the code
runs under one lock and for every send, timeout, timer, read or task resumption
between two such regions, and `Run` over an arbitrary sequence of actions. An
action whose guard does not hold changes nothing, so a schedule is any list of
actions at all. A theorem about `Run(Start, schedule)` therefore holds in every
interleaving. Beside the state machine stands a class whose methods are the
source's own operations, updating fields in place; each method's postcondition is
the step it performs.

Assumptions, all visible in the models:

- The virtual terminal is foreign code. It is a value with `feed`, `resize`,
  `render` and `size`, assumed to obey `Terminal.Lawful`: feeding in pieces is
  feeding the whole, and a dump replayed on a blank terminal of the same size
  gives the terminal back. `Terminal.TranscriptIsLawful` shows that the laws can be met.
- Random generations, client ids, tokens and permits are distinct identities.
- One monotone clock.
- The predecessor's return from `hand_off` and its exit are one step; in between
  it has already dropped its terminal locks.
- The predecessor hands off as often as successors ask, and to one at a time. A
  successor that asks while `hand_off` runs is heard when it has returned; an earlier
  one that was sent descriptors is an orphan that may go on reading them, but its
  answers reach nobody. A run starts with a daemon that may itself have adopted its
  ptys, so chains of upgrades are runs after runs.
- Geometry and resampling are over real numbers.

## What the models show about the code

Where a promise has an edge, a lemma gives a concrete run or input, and another
the exact condition.

- If the predecessor stops waiting just as the acknowledgement is written, both
  daemons serve the pty and the successor's terminal misses bytes
  (`HandoffRuns.LostAckSplitsTheStream`). That successor cannot bind the control
  socket and exits, but the bytes its read loops took are gone: a later handoff,
  acknowledged and complete, hands over a terminal without them
  (`HandoffRuns.OrphanSplitsTheNextUpgrade`). A pty's handoff is lossless if and only
  if no earlier successor has read it (`HandoffOutcomes.HandoffLossless`), and it is
  bound to stay so if and only if, besides, the predecessor has left and no orphan
  holds the pty (`HandoffOutcomes.LosslessExactly`).
- A pty opened after `hand_off` listed the sessions is not handed over
  (`HandoffRuns.UnlistedPtyIsLeftBehind`, `HandoffOutcomes.HandedOverExactly`), and
  neither is a close or reopen accepted after the snapshot, since `close_for` takes
  no terminal lock (`HandoffRuns.LateCloseIsLost`, `HandoffOutcomes.LeaseAtDeparture`).
- A client that attaches once the reaper has taken the slot gets no exit, even
  before the exit was sent (`PtyStream.TakeDecidesExit`).
- `open` emits no event, so a pty opened after a subscriber's snapshot has no line
  until it first emits one (`WatchFeed.SilentPtyHasNoLine`). A caught-up
  subscriber has a line for exactly the ptys a snapshot came to or that have emitted
  since it subscribed (`WatchExact.HasLineExactly`).
- A snapshot that catches a passing state is never corrected if the pty returns
  to the state it last emitted, since repeats are suppressed
  (`WatchFeed.PassingStateIsNeverCorrected`, `WatchExact.ShownIsLastEmittedExactly`); and
  as lines carry names and no generation, a late exit of a killed pty can be the
  newest line under a name that is live again (`WatchFeed.RivalTakesTheName`,
  `WatchExact.NameIsRightExactly`).
- An `open` that fails between the fork and the insertion, in `set_nonblocking`,
  `AsyncFd::register` or `Terminal::new`, leaves a live child that no name reaches and
  nothing waits for (`PtyTable.FailedOpenLosesItsChild`, `PtyTable.NoLeakedChildren`).
- An inspection made while another input is being written counts that input but
  not its last bytes, so a checked input built on it can pass although the pty has
  gained bytes since (`ControlInput.UnfinishedWriteSlipsBy`). That is the only such
  case (`ControlInput.PassedInputFollowsInspection`).
- `read_lane`'s documentation makes an end of stream partway through a frame an
  error. The code reports a cut inside the five header bytes as a clean end;
  `WireFrames.ReadPrefix` states what it does for every cut.
- `line_start_offset` counts one byte per line ending, but `str::lines` strips a
  carriage return with the line feed. `ScreenLines.SliceExact` gives the exact
  condition; `ScreenLines.ReturnShiftsTheSlice` an input. The daemon's own screens
  have no carriage returns (`ScreenRegions.JoinedIsPlain`).
- Unwrapping the application pointer is exact for moves under half a boundary;
  a move of exactly half is recovered only if it does not cross a wrap
  (`AlsaClock.ObserveExact`, `AlsaClock.HalfBoundaryMove`).

## Model

| member | source | states |
|---|---|---|
| PtyStream.LosslessAttach | crates/muxd/src/manager.rs:602-655 | from any starting terminal, adopted ones included, and in every schedule, what any client's channel was given is one contiguous run of the pty's bytes starting where its dump was rendered; dump plus output replays to the terminal of that stretch |
| PtyStream.Lockstep | crates/muxd/src/manager.rs:616-655 | the client in the slot has, between chunks, every byte fed since its dump, and without a resize since, exactly the daemon's terminal |
| PtyStream.ExitAfterAllOutput | crates/muxd/src/manager.rs:660-691 | an exit reaches at most one client, after every byte since its dump, and no output follows it |
| PtyStream.NoExitAfterTake | crates/muxd/src/manager.rs:675-691 | from the moment the reaper takes the slot, while it still waits to send the exit and ever after, nothing is fed and nobody but the client it took gets an exit |
| PtyStream.TakeDecidesExit | crates/muxd/src/manager.rs:660-691 | in every reachable run the take decides: a client not in the slot then, or attaching later, never gets the exit; the one in it is told if its channel has room |
| PtyStream.TeardownSparesSuccessor | crates/muxd/src/manager.rs:122-127 | however many evicted clients wind down, a client keeps the slot until a step that names it, replaces it or ends the session |
| PtyStream.OutputEndsWithSlot | crates/muxd/src/manager.rs:628-655 | a client out of the slot with no chunk in flight gets no more output, ever |
| PtyStream.StepKeeps | crates/muxd/src/manager.rs:602-780 | every step keeps the stream invariant the theorems rest on |
| PtySession.PtySession.Detach | crates/muxd/src/manager.rs:122-127 | empties the slot exactly when the id is the one in it |
| PtySession.PtySession.ReadChunk | crates/muxd/src/manager.rs:616-639 | read, feed and resolve the client as one step of the stream machine |
| PtySession.PtySession.FinishSend | crates/muxd/src/manager.rs:645-645 | the bounded send that finds room: the chunk is in the resolved client's channel |
| PtySession.PtySession.TimeOutSend | crates/muxd/src/manager.rs:645-646 | the send that fails marks the client it was for, by id |
| PtySession.PtySession.DropSlowClient | crates/muxd/src/manager.rs:646-652 | the disconnect empties the slot only if that client is still in it |
| PtySession.PtySession.AttachOn | crates/muxd/src/manager.rs:756-780 | resize, install the channel, then render, as one step |
| PtySession.PtySession.TakeClient | crates/muxd/src/manager.rs:660-675 | the reaper takes the client out of the slot |
| PtySession.PtySession.NotifyExit | crates/muxd/src/manager.rs:676-687 | the exit is put in the taken client's channel or given up |
| PtySession.PtySession.Teller | crates/muxd/src/manager.rs:204-215 | the foreground teller gives up on the client it resolved, never on a later one |
| PtySession.PtySession.Drive | crates/muxd/src/manager.rs:602-780 | any interleaving of the session's operations is a run of the machine, so every theorem above holds of the object |
| PtyTable.NoLeakedChildren | crates/muxd/src/manager.rs:350-448 | in every reachable state the table is within 256, each entry is a session of that name, and a spawned child that is alive and not condemned is in it under its name if and only if its open did not fail after the fork |
| PtyTable.FailedOpenLosesItsChild | crates/muxd/src/pty.rs:205-214 | a run in which an open fails after the fork and leaves a live child that nothing reaches |
| PtyTable.UnstartedExactly | crates/muxd/src/manager.rs:424-442 | a session never gets a read loop if and only if some step was an open that forked and failed |
| PtyTable.LeaseAlwaysEnds | crates/muxd/src/manager.rs:538-573 | a closed session in the table always has a timer for exactly its deadline, pending or about to be armed, and firing it when due removes the session |
| PtyTable.CondemnedOnlyByCause | crates/muxd/src/manager.rs:516-573 | in any run a session is condemned only by a kill that found it under its name, or by a timer of its own generation whose deadline was the armed one and had passed |
| PtyTable.EntryStep | crates/muxd/src/manager.rs:516-596 | an entry leaves the table exactly when its session is condemned or its own reaper unlinks it; no step removes another session's entry |
| PtyTable.LapsedForever | crates/muxd/src/manager.rs:316-329 | once an armed deadline has passed, no open, attach or reopen ever returns that session, whatever races with it |
| PtyTable.RetriedCloseKeepsDeadline | crates/muxd/src/manager.rs:534-548 | until a reopen succeeds, every retried close answers the instant first armed |
| PtyTable.AdoptAllOrNothing | crates/muxd/src/manager.rs:463-514 | an adoption installs every pty under its own name, generation and deadline or changes nothing; which one is decided by names, room and whether every one can be set up |
| PtyTable.StepKeeps | crates/muxd/src/manager.rs:316-596 | every step keeps the table invariant |
| PtyManager.StageAll | crates/muxd/src/manager.rs:463-488 | staging succeeds exactly for distinct names within the limit whose descriptors and terminals can be set up, and builds one session per pty |
| PtyManager.Manager.Open | crates/muxd/src/manager.rs:402-448 | attach or create under one guard, every refusal and the failed spawn included |
| PtyManager.Manager.Kill | crates/muxd/src/manager.rs:516-522 | takes the entry out at once and leaves it condemned |
| PtyManager.Manager.KillSession | crates/muxd/src/manager.rs:524-531 | the child is dead and the session marked exited |
| PtyManager.Manager.CloseFor | crates/muxd/src/manager.rs:538-548 | arms the lease once, saturating, and always schedules a timer for it |
| PtyManager.Manager.ExpireTimer | crates/muxd/src/manager.rs:555-573 | a stale timer changes nothing but itself |
| PtyManager.Manager.Reopen | crates/muxd/src/manager.rs:576-587 | cancels a lease that has not passed, refuses one that has |
| PtyManager.Manager.RemoveIfSame | crates/muxd/src/manager.rs:589-596 | removes the entry only if it is still this session |
| PtyManager.Manager.AdoptMany | crates/muxd/src/manager.rs:463-514 | stages everything, then installs under one lock or not at all |
| PtyManager.Manager.ArmAdopted | crates/muxd/src/manager.rs:505-514 | a lease that came with the pty gets its timer |
| PtyManager.Manager.OpenExisting | crates/muxd/src/manager.rs:316-329 | the three separate reads, each its own step |
| PtyManager.Manager.Drive | crates/muxd/src/manager.rs:316-596 | any interleaving of the manager's operations, timers and child events is a run of the table machine, so every theorem about it holds of the object |
| HandoffOutcomes.HandoffLossless | crates/muxd/src/migrate.rs:400-457 | once the predecessor has left, however many successors there were before, every listed pty is in the last one with its own descriptor, name, command, pid and snapshotted lease; predecessor bytes then successor bytes are the whole stream if and only if no earlier successor read the pty, and then the terminal is the never-upgraded one |
| HandoffOutcomes.RefusalIsHarmless | crates/muxd/src/migrate.rs:264-277 | a successor that refused has refused for good: until another one asks the predecessor does not leave and no byte is lost but to orphans of earlier attempts; the refusal leaves no new orphan, and the next successor finds the same |
| HandoffOutcomes.FailureKeepsServing | crates/muxd/src/migrate.rs:377-390 | until the present successor has installed, however far any attempt got, the predecessor has not left, each of its terminals lacks exactly the bytes that earlier successors read, and giving up leaves it serving all of them unlocked |
| Handoff.StepKeeps | crates/muxd/src/migrate.rs:264-472 | every step of the predecessor, of any number of successors and of their orphans keeps the handoff invariant |
| HandoffOutcomes.LosslessExactly | crates/muxd/src/migrate.rs:454-472 | for an installed, live pty the successor's terminal is bound to stay the never-upgraded one, in every continuation, if and only if the predecessor took the acknowledgement and left, no earlier successor read the pty and none still holds it |
| HandoffRuns.LostAckSplitsTheStream | crates/muxd/src/migrate.rs:462-472 | a run in which the acknowledgement is lost and the successor's terminal diverges |
| HandoffRuns.OrphanSplitsTheNextUpgrade | crates/muxd/src/migrate.rs:377-390 | a run in which such a successor reads a byte and exits, and the next handoff, acknowledged and complete, lacks that byte |
| HandoffOutcomes.HandedOverExactly | crates/muxd/src/migrate.rs:400-456 | at departure the successor has exactly the listed ones of the predecessor's ptys |
| HandoffRuns.UnlistedPtyIsLeftBehind | crates/muxd/src/migrate.rs:400-407 | a run in which a pty opened after the listing is not handed over |
| HandoffOutcomes.LeaseAtDeparture | crates/muxd/src/migrate.rs:417-436 | the successor gets the lease of the snapshot; it is the predecessor's own at departure if and only if the closes and reopens accepted since ended where they began |
| HandoffRuns.LateCloseIsLost | crates/muxd/src/migrate.rs:426-434 | a run in which a close accepted after the snapshot is lost |
| HandoffMessage.Receive | crates/muxd/src/migrate.rs:279-305 | what is assembled is the body of the whole stream, wherever the first read ended, errors included |
| HandoffMessage.BodyRoundTrip | crates/muxd/src/migrate.rs:442-447 | a message built by the sender reads back exactly when its body is non-empty and within the receiver's 64 MiB, a limit the sender does not check; cut anywhere it is an error |
| ControlInput.NoInterleaving | crates/muxd/src/control.rs:62-89 | the pty's bytes are, in counter order, prefixes of whole submitted inputs, one for each value of the counter |
| ControlInput.OneWritePerInspection | crates/muxd/src/control.rs:68-89 | of the checked inputs built on one inspection at most one ever writes |
| ControlInput.StaleInputIsRefused | crates/muxd/src/control.rs:72-81 | after any other input has advanced the counter, whatever ran between the inspection and it and whatever runs after, a check of an input built on the inspection fails |
| ControlInput.CheckSeesTheWholeRun | crates/muxd/src/control.rs:68-83 | a check passes if and only if, over the whole run since the inspection, no output came and no input went ahead, and the pty lives with the inspected foreground |
| ControlInput.PassedInputFollowsInspection | crates/muxd/src/control.rs:62-89 | a checked input that passes finds no input the inspection did not count, and not one byte more unless the inspection fell into an unfinished write |
| ControlInput.UnfinishedWriteSlipsBy | crates/muxd/src/control.rs:62-89 | from every such inspection there is a run in which the check passes although the pty has gained a byte |
| ControlInput.PtyInput.AdvanceInput | crates/muxd/src/control.rs:30-34 | the counter is one more and that value is returned |
| ControlInput.PtyInput.WriteInput | crates/muxd/src/control.rs:62-66 | advances first, then writes a prefix of the input, whole on success |
| ControlInput.PtyInput.CheckedInput | crates/muxd/src/control.rs:68-89 | length limits, then the check, then the write; refused without a byte written |
| WatchFeed.WatchConverges | crates/muxd/src/server.rs:257-282 | a subscriber that has caught up, however far it lagged and whatever was emitted between the lines of its snapshots, holds for every pty it is owed a line that is its last event or a later look at it |
| WatchExact.HasLineExactly | crates/muxd/src/manager.rs:271-287 | it has a line for a pty in the table if and only if a snapshot came to that pty or it has emitted since the subscription |
| WatchFeed.SilentPtyHasNoLine | crates/muxd/src/manager.rs:402-448 | a run in which a pty opened after the snapshot has no line, since opening emits nothing |
| WatchExact.CatchesUp | crates/muxd/src/server.rs:266-281 | from any reachable state of a quiet daemon the subscriber reaches that point within a stated number of its own steps |
| WatchExact.OwnRunsEnd | crates/muxd/src/server.rs:266-281 | whichever of its steps it takes, it cannot go on for longer |
| WatchExact.NameIsRightExactly | crates/muxd/src/server.rs:266-276 | a pty's newest line is the newest under its name if and only if no other pty of that name emitted after it, counting for a snapshot line the events still to be taken when the snapshot was made |
| WatchExact.ShownIsLastEmittedExactly | crates/muxd/src/manager.rs:277-287 | the line shown is the one last emitted if and only if it came from the broadcast or from a snapshot that found the pty as it last emitted itself |
| WatchFeed.SnapshotHas | crates/muxd/src/manager.rs:271-275 | a complete snapshot has one line for each pty in the table, under its own name and no older than the subscriber's position, whatever the map's order and whatever was emitted between its lines |
| WatchFeed.PassingStateIsNeverCorrected | crates/muxd/src/manager.rs:277-287 | a run that ends with a line that is not the present state |
| WatchFeed.RivalTakesTheName | crates/muxd/src/manager.rs:277-287 | a run in which a dead pty's line is the newest under a live pty's name |
| WatchFeed.Subscriber.Drain | crates/muxd/src/server.rs:266-270 | writes every held line, in order, and holds none |
| WatchFeed.Subscriber.Next | crates/muxd/src/server.rs:271-276 | takes the next event, or learns that it lagged |
| WatchFeed.Subscriber.Refill | crates/muxd/src/server.rs:274-274 | having lagged, begins a snapshot of the table |
| WatchFeed.Subscriber.LookOnce | crates/muxd/src/manager.rs:271-275 | one line of the snapshot, as the pty is at that moment; after the last one the subscriber is no longer behind |
| WatchFeed.Subscriber.Drive | crates/muxd/src/server.rs:257-282 | any interleaving of the subscriber's loop with the daemon is a run of the machine, so every theorem about it holds of the object |
| AudioPackets.UnpackPack | crates/mux-proto/src/audio.rs:35-66 | a packet unpacks to itself under its own token and to nothing under any other |
| AudioPackets.PackUnpack | crates/mux-proto/src/audio.rs:35-66 | whatever unpacks is the packing of its parts, so no two packets share bytes |
| AudioPackets.Sequence.Admit | crates/mux-proto/src/audio.rs:70-93 | the filter's state and answer, overflow and old epochs included |
| AudioPackets.OrderedPicks | crates/mux-proto/src/audio.rs:75-93 | what a filter lets through is an in-order, duplicate-free pick of what was sent |
| AudioPackets.NumbersIncrease | crates/mux-proto/src/audio.rs:75-93 | within an epoch the delivered samples have strictly increasing numbers |
| AudioPackets.SamplesInOrder | crates/mux-proto/src/audio.rs:75-93 | and each is a sample that epoch sent under that number |
| AudioPackets.PromptPacketPasses | crates/mux-proto/src/audio.rs:75-93 | a packet that arrives before anything sent after it is let through |
| AudioEpochs.DeliveredInOrder | crates/muxd/src/audio.rs:309-350 | under any loss, reordering and duplication, each epoch's delivered packets are an in-order, duplicate-free pick of those sent, both ways |
| AudioEpochs.SamplesArriveInOrder | crates/muxd/src/audio.rs:309-350 | in every reachable state and both directions, sample by sample: strictly increasing numbers, only samples sent under them |
| AudioEpochs.PromptCaptureIsHeard | crates/muxd/src/audio.rs:341-348 | the packet last sent in the epoch that is on is delivered if it arrives |
| AudioEpochs.PastPeriodsStayPast | crates/muxd/src/audio.rs:341-348 | nothing of an earlier microphone-on period is delivered later, in any run |
| AudioEpochs.PastPlaybackStaysPast | crates/muxd/src/audio.rs:406-437 | once the bridge has heard of a later playback epoch, nothing of an earlier one is delivered |
| AudioEpochs.EpochNamesPeriod | crates/muxd/src/audio.rs:322-326 | between any two moments of a run at which a direction is on, its epoch is the same if and only if it was on all the time in between |
| AudioEpochs.ServerRoute.OnRunning | crates/muxd/src/audio.rs:322-332 | clients, epochs, the playback clock and the state message, overflow included |
| AudioEpochs.ServerRoute.OnPlayback | crates/muxd/src/audio.rs:333-338 | one packet at the playback clock, which then moves by its samples |
| AudioEpochs.ServerRoute.OnDatagram | crates/muxd/src/audio.rs:341-348 | accepts only the epoch that is on, through the filter |
| AudioEpochs.ServerRoute.Drive | crates/muxd/src/audio.rs:309-350 | any interleaving of the loop's events with the peer and the network is a run of the machine |
| AudioRoute.UsersAreLeases | crates/muxd/src/audio/provider.rs:59-89 | in every reachable state a route's users are exactly its live leases |
| AudioRoute.ExpiredForever | crates/muxd/src/audio.rs:77-105 | an idle-expired route has no lease and no later join ever grants one |
| AudioRoute.ClaimedNeverLapses | crates/muxd/src/audio.rs:86-90 | a claimed acquisition is never judged expired because its permit lapsed, however the loads interleave with the stores |
| AudioRoute.WithdrawnForever | crates/muxd/src/audio/provider.rs:23-30 | a permit withdrawn unclaimed stays withdrawn and unclaimed |
| AudioRoute.StepKeeps | crates/muxd/src/audio/provider.rs:70-161 | every step of acquisition, join, claim, drop and expiry keeps the invariant |
| AudioRoute.Registry.Open | crates/muxd/src/audio.rs:132-165 | refused while devices are not enabled or the name's route is open, otherwise a fresh route without users |
| AudioRoute.Registry.Join | crates/muxd/src/audio/provider.rs:71-89 | grants exactly when the route is this attachment's, accepting, open and ready or being activated |
| AudioRoute.Registry.Release | crates/muxd/src/audio/provider.rs:63-67 | one user and one lease fewer |
| AudioRoute.Registry.ExpireLocked | crates/muxd/src/audio.rs:98-104 | looks at users again under the lock before it stops acceptance |
| AudioRoute.Registry.Activate | crates/muxd/src/audio/provider.rs:156-158 | joins and activates the route, or gives the permit up |
| AudioRoute.Registry.Drive | crates/muxd/src/audio/provider.rs:70-161 | any interleaving of opens, acquisitions, drops and expiry checks is a run of the state machine, so every theorem about it holds of the object |
| AlsaClock.FramesExact | alsa/pcm_mux.c:35-39 | the split computation is the exact floor of elapsed time times rate, so it never drifts |
| AlsaClock.FramesFitsU64 | alsa/pcm_mux.c:35-39 | no intermediate leaves 64 bits for any 64-bit time; says exactly when the plain product would |
| AlsaClock.ObserveRecovers | alsa/pcm_mux.c:41-50 | an application pointer that moved less than half a boundary, forward or back, is recovered exactly |
| AlsaClock.ObserveExact | alsa/pcm_mux.c:41-50 | the true position is recovered if and only if the move stayed in the cycle by at most half a boundary (or forward by any distance while no wrap is counted) or entered a neighbouring cycle by strictly less than half |
| AlsaClock.HalfBoundaryMove | alsa/pcm_mux.c:43-47 | a move of exactly half a boundary is recovered if and only if it did not cross a wrap |
| AlsaPlayback.StoreRefines | alsa/pcm_mux.c:165-168 | a store in the ring is a write to the unbounded frame sequence |
| AlsaPlayback.SendRefines | alsa/pcm_mux.c:127-142 | a packet out of the ring is the next stretch of that sequence |
| AlsaPlayback.WriteIsLocal | alsa/pcm_mux.c:165-168 | a write changes no earlier frame, and none other within one ring |
| AlsaPlayback.PlaybackPcm.Position | alsa/pcm_mux.c:35-39 | the clock's position, never behind what was sent |
| AlsaPlayback.PlaybackPcm.Application | alsa/pcm_mux.c:41-50 | the true application position, from its value modulo the boundary |
| AlsaPlayback.PlaybackPcm.Start | alsa/pcm_mux.c:60-68 | runs from the base, or stays prepared when the command fails |
| AlsaPlayback.PlaybackPcm.Stop | alsa/pcm_mux.c:70-75 | freezes the position |
| AlsaPlayback.PlaybackPcm.Prepare | alsa/pcm_mux.c:99-114 | silence, position zero, nothing written or sent; a dead device is refused, and a timer that cannot be armed is reported after the reset |
| AlsaPlayback.PlaybackPcm.Transfer | alsa/pcm_mux.c:146-168 | records exactly the written frames at the application position, rewinds and skips included |
| AlsaPlayback.PlaybackPcm.Packetise | alsa/pcm_mux.c:128-135 | a packet of the next frames, in bytes the receiver accepts |
| AlsaPlayback.PlaybackPcm.Pointer | alsa/pcm_mux.c:116-144 | every frame up to the returned position has been packetised once, in order, with the value last written for it; underrun exactly when the clock passed the application; draining stops at the application |
| AlsaCapture.CapturePcm.Enqueue | alsa/pcm_mux.c:89-94 | the queue is the newest 8192 samples |
| AlsaCapture.CapturePcm.ReceiveCapture | alsa/pcm_mux.c:77-97 | up to 32 receives: the queue is the newest 8192 of old and received samples, and the device dies exactly on a broken peer or a bad datagram |
| AlsaCapture.CapturePcm.Next | alsa/pcm_mux.c:169-179 | one resampled frame, read out of the ring in place |
| AlsaCapture.CapturePcm.Transfer | alsa/pcm_mux.c:146-185 | receives, chooses the step, and fills the buffer with the resampled signal |
| AlsaCapture.NoUnderflow | alsa/pcm_mux.c:170-177 | at most two samples are consumed at once and the phase stays in [0, 1), so `count` never underflows |
| AlsaCapture.ResampleExact | alsa/pcm_mux.c:160-182 | the k-th output is the queue's piecewise linear signal at phase + k * step exactly, for any number of frames, starved or not |
| AlsaCapture.FedReader | alsa/pcm_mux.c:170-177 | after n fed frames the reader stands exactly at its time |
| AlsaCapture.Conserved | alsa/pcm_mux.c:173-177 | samples consumed plus phase after equal phase before plus n * step |
| AlsaCapture.Interpolate | alsa/pcm_mux.c:171-172 | lies between its two samples, so the conversion stays in 16 bits |
| AlsaSamples.JoinSplit | alsa/pcm_mux.c:132-134 | a sample's two bytes give the sample back |
| SplitTree.RemoveUndoesInsert | app/Sources/Tiling/SplitTree.swift:64-120 | removing a freshly inserted leaf gives back the exact tree, ratios included |
| SplitTree.RemoveLeaves | app/Sources/Tiling/SplitTree.swift:103-120 | drops exactly the target, keeps the order of the rest, and no tree remains exactly when nothing else was there |
| SplitTree.InsertLeaves | app/Sources/Tiling/SplitTree.swift:80-99 | the target is replaced in place by the target and the new leaf, on the side asked for, everything else in order; without the target nothing changes |
| SplitTree.ContainsIsMembership | app/Sources/Tiling/SplitTree.swift:50-62 | `contains` is membership in `leaves` |
| SplitLayout.Tiling | app/Sources/Tiling/SplitTree.swift:122-150 | one rectangle per leaf, inside the bounds, pairwise a gap apart, covering all but dividers, areas adding up to the whole |
| SplitLayout.SizedExactly | app/Sources/Tiling/SplitTree.swift:127-150 | the bounds lay the tree out without a negative size if and only if they reach a stated need |
| SplitLayout.DepthBoundsSuffice | app/Sources/Tiling/SplitTree.swift:122-150 | bounds stated from the depth alone suffice for the tiling |
| SplitLayout.NeedWithinDepth | app/Sources/Tiling/SplitTree.swift:122-150 | the need is at most the depth's bound |
| SplitLayout.LayoutKeys | app/Sources/Tiling/SplitTree.swift:127-150 | the rectangles' keys are the leaves |
| SplitLayout.AreaConserved | app/Sources/Tiling/SplitTree.swift:127-150 | leaf and divider areas sum to the bounds' area |
| SplitLayout.LeavesApart | app/Sources/Tiling/SplitTree.swift:127-150 | any two leaves are at least one gap apart along some axis |
| SplitResize.Resize | app/Sources/Tiling/SplitTree.swift:207-228 | refused exactly when no ancestor has the axis; otherwise leaves and legal ratios stay, the pane responds in the delta's direction whenever the adjusted split has room for its divider and against it when not, its orthogonal place and every pane outside the adjusted split stay |
| SplitResize.AdjustableExactly | app/Sources/Tiling/SplitTree.swift:207-228 | nil if and only if no ancestor split has that axis |
| SplitResize.ResizePane | app/Sources/Tiling/SplitTree.swift:207-228 | with room at the adjusted split a non-negative delta never shrinks the pane along the axis, through nested splits, and nothing changes across it |
| SplitResize.ResizeLeavesOthers | app/Sources/Tiling/SplitTree.swift:207-228 | panes outside the adjusted split do not move |
| PaneFocus.Neighbor | app/Sources/Tiling/SplitTree.swift:154-177 | nothing exactly when no pane is eligible, otherwise a nearest eligible one |
| PaneFocus.MoveKeepsPanes | app/Sources/Tiling/SplitTree.swift:179-205 | a move keeps the same distinct leaves and legal ratios, and is refused exactly when the pane is absent, alone or spans that edge |
| PaneFocus.HopShrinks | app/Sources/Mux/Tiling/Session.swift:341-344 | each hop leaves strictly fewer panes beyond it |
| PaneFocus.FarSide | app/Sources/Mux/Tiling/Session.swift:341-345 | the wrap-around walk ends, for every finite set of rectangles, on a pane with no neighbour on that side |
| PaneFocus.Session.FocusDirection | app/Sources/Mux/Tiling/Session.swift:329-350 | focuses the neighbour or, at the edge, the far side; otherwise stays |
| PaneFocus.Session.ResizeFocused | app/Sources/Mux/Tiling/Session.swift:360-369 | right and down grow the focused pane on whichever side of its split it is |
| PaneFocus.Session.MoveFocused | app/Sources/Mux/Tiling/Session.swift:243-250 | the tree changes only by a move, with the same panes |
| ScreenLines.SliceExact | crates/agents/src/engine.rs:670-681 | the computed slice starts at line i, and has exactly the lines from i on, if and only if no more returns were stripped before i than an unended last line makes up for |
| ScreenLines.WidthsMiss | crates/agents/src/engine.rs:675-681 | how far the computed sum misses the true start, for every text |
| ScreenLines.ReturnShiftsTheSlice | crates/agents/src/engine.rs:670-681 | an input on which the slice is wrong |
| ScreenLines.JoinedLines | crates/muxd/src/manager.rs:165-170 | the lines of newline-joined rows are the rows, less an empty last one, and no return is in them |
| ScreenRegions.JoinedIsPlain | crates/muxd/src/manager.rs:165-170 | so every region theorem applies to the daemon's own screens |
| ScreenRegions.BottomShortest | crates/agents/src/engine.rs:496-510 | the shortest suffix on line boundaries with min(k, n) non-blank lines |
| ScreenRegions.TopShortest | crates/agents/src/engine.rs:512-526 | the shortest such prefix |
| ScreenRegions.AfterLastHorizontalRule | crates/agents/src/engine.rs:616-627 | the running offset gives the index-based slice after the last rule, on every text |
| ScreenRegions.AfterLastRuleLines | crates/agents/src/engine.rs:616-627 | exactly the lines after the last rule, none of them a rule |
| ScreenRegions.PromptBoxTopBorderIndex | crates/agents/src/engine.rs:637-648 | the backward count finds the second rule from the bottom, or that there is none |
| ScreenRegions.PromptBoxExact | crates/agents/src/engine.rs:595-614 | a box exists exactly with two rules; its body is the lines strictly between the last two, above it the lines before both |
| ScreenRegions.Evaluate | crates/agents/src/engine.rs:47-60 | the first of the matching rules of highest priority, or none exactly when none matches |
| RuleGates.Compiler.CompileGate | crates/agents/src/engine.rs:272-313 | succeeds if and only if every gate of the tree meets its own limits and the whole tree meets the totals; the counters then hold its size |
| RuleGates.Compiler.Enter | crates/agents/src/engine.rs:278-288 | the gate's own limits and its share of the totals |
| RuleGates.Compiler.CompileEach | crates/agents/src/engine.rs:289-303 | the same for a list of gates, stopping at the first failure |
| RuleGates.Compiler.ValidateMatcherLimits | crates/agents/src/engine.rs:322-351 | per-gate count, running total and matcher length |
| RuleGates.CompiledMeans | crates/agents/src/engine.rs:397-424 | a compiled gate matches a text exactly when the manifest's gate says so, at every depth and under every negation |
| WireFrames.ReadPrefix | crates/mux-proto/src/frame.rs:113-130 | reading any prefix of a stream of frames gives exactly its whole frames and never a wrong one; the end for a cut at a boundary or in a header, an error for one in a payload |
| WireFrames.ReadWhole | crates/mux-proto/src/frame.rs:40-130 | reading the encodings of any legal frames gives that list and then the end |
| WireFrames.ReadSound | crates/mux-proto/src/frame.rs:58-130 | on arbitrary bytes, the frames read re-encode to exactly the bytes consumed |
| WireFrames.WholeFramesExact | crates/mux-proto/src/frame.rs:113-130 | the number of frames a cut leaves whole |
| WireFrames.ByteReader.ReadLane | crates/mux-proto/src/frame.rs:115-130 | one frame, the end, or the error, and what is left to read |
| WireFrames.ByteReader.ReadMessage | crates/mux-proto/src/frame.rs:142-148 | one message or the error, and what is left to read |
| WireFrames.MessageRoundTrip | crates/mux-proto/src/frame.rs:77-148 | a message reads back and leaves what follows; cut anywhere it is an error |
| WireFrames.MessageIsEncoding | crates/mux-proto/src/frame.rs:77-148 | whatever is read is what those bytes encode |

## Left out

- The resize re-dump (crates/muxd/src/server.rs:449-462): it renders under the terminal lock but sends after releasing it, so it is outside the lossless-attach claim.
- The ghostty terminal and its reattach renderer: foreign code, an abstract value with the laws above.
- fork, exec, waitpid, signals, window-size calls: only their outcomes are steps; an adopted child may outlive the end of its pty.
- Successor sessions after the handoff: kills and closes in the successor are in `PtyTable`, not in `Handoff`.
- How much of a stream `read_exact` has used up when it fails: the model's reader is then empty.
- The window size in a handoff message: the size is the terminal's, where the code asks the kernel; every resize in the model sets both.
- `decode_payload` of version 1 payloads, and postcard encoding: a payload is a value.
- The audio provider's requests and the attachment checks between awaits of `acquire`: a failed check is a cancelled or failed acquisition.
- `ConnectionLease`, the provider registration loop, QUIC, TLS, tokens and host pins.
- The capture direction's `pointer` and `prepare`, and `sw_params`, in the ALSA plugin: the boundary is fixed when the model's device is made.
- AlsaPlayback.PlaybackPcm.Pointer: the claim is about packets handed to the socket, because the code counts a packet that a full socket refuses as sent.
- Floating-point rounding in layout and in the resampler: real numbers.
- Negative rectangle sizes are kept as they are, where CoreGraphics would report absolute widths; the tiling theorem's bounds rule them out.
- Which of several equally near neighbours is chosen: any of them, as the dictionary's order decides.
- `is_horizontal_rule`, blankness, regular expressions and lower-casing: parameters of the models.
- The codex prompt-marker regions of crates/agents/src/engine.rs: the same slices as the modelled regions.
- Slicing a text inside a multi-byte character, which panics in the source: texts are bytes here; with no stripped return every offset is just after a line feed, at the start or at the end.
- `emit` compares, records and sends an event as one step; only its own lock covers all three.
- WatchFeed.WatchConverges: says nothing of ptys that left the table while the subscriber lagged, because their exit event can be lost.
- AppKit, key handling, clipboard, themes, snapshot files and JSON: user interface and input/output.
