# yaasa-go, modelled and proved in Dafny

yaasa-go drives a Jiecang FE60 standing desk over Bluetooth: a daemon owns the one
connection and serves commands from a socket, a newer command preempts the older one,
and everything the desk is told goes out as frames on characteristic FE61. This project
models the four parts that carry the difficulty, and their shared observable, the trace
of FE61 writes:

* `Packet`, `PacketTheory`, `Heights`: the frame encoder, the resynchronising FE62
  scanner and the height arithmetic.
* `Registry`, `Desk` (module `Desks`): the index-based listener registries, the caches
  and the notification fanout.
* `Dispatch`, `DispatchTheory`, `WaitTheory`, `QueryTheory`, `TimingTheory`,
  `RequestTheory`, `DispatchCode`: one dispatched request. `Dispatch` is a step machine
  over the blocking points of `dispatch`, `WaitForHeight`, `WaitForPreset`,
  `CurrentHeight` and `FetchSitStandTime`; the theories prove what every run of it keeps,
  `RequestTheory` in literal opcodes, milliseconds and millimetres; `DispatchCode` is the
  code itself, loops, channels and timers included, each method proved to follow the
  machine.
* `Server`, `ServerTheory`, `ServerTheorems`, `ServerPreemption`, `ServerTiming`,
  `ServerCode`: any number of connection handlers in any interleaving with each other,
  with the keep-alive and with the BLE callback. `ServerCode` is `handle` in its own form, and calls the code of
  `DispatchCode`.
* `Handshake`, `HandshakeCode`: the connect handshake of the darwin adapter, as a step
  machine and as code.

A concurrent part appears twice. The step machine has one atomic step per lock
operation, channel operation or write, and its theorems hold for every finite trace of
steps. The code of one goroutine is a class method that lets the other goroutines take
arbitrary steps (its `script`) between its own, and its contract ties it to the machine.
In a script, steps that cannot be taken are skipped, so a method accepts every script.

Where the code and the prose beside it differ, the model follows the code:

* `docs/protocol.md` lines 57-60 ask that each frame be found and validated on its own.
  The scanner gives up at the first header whose claimed length overruns the buffer, so
  a stray byte in front of a frame can hide it (`StrayStartByteHidesStats`). Exactly
  which valid frames are missed is `MissedIffOverlappedOrCutOff`.
* `desk/desk.go` lines 22-23 and 234-236 offer listeners to concurrent callers. A cancel
  function deletes whatever sits at the index it remembered, so the registry is right
  exactly as long as no two lifetimes cross (`CorrectIffNoCrossing`,
  `CrossedCancelRemovesAnother`). The daemon never lets them cross (`AtMostOneListener`).
* `desk/monitor.go` lines 141-143 equate success with silence. A loop that keeps up
  within some lag has silence up to that lag before the success (`QuietMeansSilence`);
  a height reported in the last moment does not prevent success, even of a loop
  without any lag (`QuietIsNotAlwaysSilence`).
* `desk/stats.go` lines 87-91 say that the value returned reflects the current second.
  The listener is registered before the request is written, and a report that comes in
  between is returned (`StaleReportIsReturned`, `FreshIffNoneEarly`).
* `internal/ipc/server.go` lines 44-47 promise that a cancelled dispatch ends within
  200 ms. Only the select of a motion loop heeds the context (`OnlyTheLoopHeedsCancel`):
  a query goes on until it has a report or five seconds have passed
  (`WaitingQueryStays`, `CancelledQueryOutlivesPulse`), and waking takes 300 ms
  (`WakesAreSpaced`). A loop on time keeps the promise but for its latency, provided
  that its select does not take a waiting tick instead (`CancelledLoopEnds`). Whatever
  the time, `BoundedBypass` says who can get in between.
* `desk/adapter_darwin.go` lines 284-287 drain the pending entry of a call that timed
  out. That entry may by then be another call's; which calls lose their events is
  `LostIffClobbered`, and with one call at a time per peripheral none does. A timeout
  counts once the loop takes it: a success that comes after the deadline has passed
  still connects if the select takes it first (`ConnectsIffDeadlineNotTaken`,
  `LateSuccessCanConnect`).

Time is in milliseconds, heights are `real`, and bytes are integers below 256 with their
wrap-around written out. `dafny verify dfyconfig.toml` checks the project.

## Model

| member | source | states |
|---|---|---|
| Packet.ComputeChecksum | internal/protocol/packet.go:78-84 | the wrapping loop computes the sum of opcode, length and payload modulo 256 |
| Packet.MakeCommand | internal/protocol/packet.go:28-35 | the appended buffer, byte by byte: F1 F1, opcode, wrapped length, payload, a check byte that is the sum of everything between the start mark and itself modulo 256, 7E |
| Packet.FrameLayout | internal/protocol/packet.go:3-11 | the same layout for frames in either direction and any payload |
| Packet.SumConcat | internal/protocol/packet.go:78-84 | the sum adds up over concatenation; with `SumOne` for single bytes that determines it |
| Packet.DecodeResponses | internal/protocol/packet.go:40-66 | the scanner loop returns `Decode`, for every buffer; what `Decode` is, is said by the next rows |
| Packet.DecodeResponse | internal/protocol/packet.go:70-76 | the first packet of the buffer, and whether there is one |
| Packet.FrameBytes | internal/protocol/packet.go:43-62 | in bytes alone: a frame is valid at an offset if and only if F2 F2, a length that fits, 7E and a check byte equal to the sum are there; which packet it holds; and when a header overruns |
| PacketTheory.DecodeIsLeftmostParse | internal/protocol/packet.go:37-66 | the result is exactly the packets of a leftmost-first parse: valid, disjoint, in order, no skipped offset starting a frame or ending the scan, and the scan ending only with fewer than six bytes left or at an overrunning header; if and only if |
| PacketTheory.MissedIffOverlappedOrCutOff | internal/protocol/packet.go:42-59 | a valid frame is not reported if and only if it begins inside a reported one or lies beyond the overrunning header at which the scan broke off |
| PacketTheory.PrefixStability | internal/protocol/packet.go:42-65 | extending a buffer never changes or retracts an earlier packet |
| PacketTheory.NoiseThenFrame | internal/protocol/packet.go:42-63 | noise without `F2 F2` and not ending in `F2`, then a frame with any payload, then anything: that packet, then what the rest decodes to |
| PacketTheory.RoundTripThroughNoise | internal/protocol/packet.go:28-66 | any list of frames separated by such noise decodes to exactly those frames in order |
| PacketTheory.StrayStartByteHidesStats | internal/protocol/packet.go:48-52 | one stray `F2` in front of a sit/stand report hides it |
| PacketTheory.RoundTripIffLengthFits | internal/protocol/packet.go:28-66 | a frame decodes to itself if and only if its payload has at most 255 bytes |
| PacketTheory.FrameInjective | internal/protocol/packet.go:28-35 | two different commands never share an encoding |
| PacketTheory.ChecksumNoticesByte | internal/protocol/packet.go:78-84 | changing one payload byte changes the checksum |
| PacketTheory.SingleByteErrorDetected | internal/protocol/packet.go:43-60 | changing any one byte of a frame but its length byte leaves no frame, and no break, at its offset |
| PacketTheory.DamagedFrameYieldsNothing | internal/protocol/packet.go:40-66 | a buffer holding one such damaged frame and no later `F2 F2` decodes to nothing |
| PacketTheory.LengthByteErrorCanPass | internal/protocol/packet.go:48-59 | a changed length byte can expose a different valid frame |
| Heights.RoundIsNearest | desk/height.go:67-71 | on [0, 65535] the rounded value is a uint16 within half a millimetre |
| Heights.ReportedHeight | desk/height.go:67-71 | a desk that reports the commanded bytes is decoded, through framing and scanner, as the rounded target |
| Heights.EndToEndHeight | desk/height.go:67-103 | that report is at most 0.5 mm below or above the target and accepted by `Near` under every tolerance of at least 0.5 |
| Heights.ToleranceThreshold | desk/height.go:97-103 | every target in range is recognised, and lies within the tolerance of its report on either side, if and only if the tolerance is at least 0.5 |
| Heights.ReencodeIsIdentity | desk/desk.go:190-207 | every reported uint16 height re-encodes to the bytes it came in |
| Heights.NearIff | desk/height.go:97-103 | a height is near another if and only if it lies within the tolerance on either side |
| Heights.RoundIff | desk/height.go:67-71 | the rounding of any height: which integer it is, if and only if, halves going away from zero |
| Heights.BytesAreNearest | desk/height.go:67-71 | the two command bytes, read big-endian, are the whole millimetre nearest to the target |
| Heights.MeasuredReport | desk/desk.go:190-207 | the nine bytes sent by a desk measured at 793 mm decode to 793 mm |
| Registry.CorrectIffNoCrossing | desk/desk.go:237-250 | with each cancel run once, the list equals the live listeners in registration order at every moment if and only if no two lifetimes cross |
| Registry.CancelCorrectIff | desk/desk.go:243-249 | a cancel removes its own listener, and only that, if and only if no older listener was cancelled in its lifetime |
| Registry.CrossedCancelRemovesAnother | desk/desk.go:243-249 | register three, cancel the first, then the second: the third is removed instead |
| Registry.RepeatedCancelRemovesAnother | desk/desk.go:243-249 | running one cancel twice removes the next listener |
| Desks.HeightsInNonempty | desk/desk.go:190-207 | a packet list holds a height if and only if some packet has opcode 0x01 and three payload bytes; the same for 0xA2 and six |
| Desks.OneFrame | desk/desk.go:190-207 | what any one frame amounts to: opcode 0x01 and three payload bytes, the height of the first two big-endian; opcode 0xA2 and six, the counters standing then sitting; anything else, nothing |
| Desks.HeightsInConcat | desk/desk.go:143-180 | handling two packet lists in turn is handling them together |
| Desks.ReportsThroughNoise | desk/desk.go:143-180 | reports separated by noise reach the listeners as if sent alone |
| Desks.ConnectWith | desk/desk.go:84-120 | no desk if the adapter does not connect; else the subscription precedes every FE61 write, its failure is remembered, wake and 0x07 follow as frames, and no failure after connecting is fatal |
| Desks.Desk.HandleNotification | desk/desk.go:143-180 | the height and stats streams grow by exactly what the buffer decodes to, caches stay the last of their stream, and each registered listener has received exactly the values since it registered, in order |
| Desks.Desk.HandlePacket | desk/desk.go:145-178 | one packet extends exactly the stream it belongs to, or neither |
| Desks.Desk.LastKnownHeight | desk/desk.go:211-215 | a height is known if and only if one was ever decoded, and it is the last one |
| Desks.Desk.AddHeightListener | desk/desk.go:237-242 | each registration, also a repeated one of the same callback, is a new entry at the end, hears everything from now on, and captures its index |
| Desks.Desk.CancelHeightListener | desk/desk.go:243-249 | the in-place deletion is the registry's, and the other listeners' streams are kept |
| Desks.Desk.AddSitStandListener | desk/stats.go:65-69 | as for heights |
| Desks.Desk.CancelSitStandListener | desk/stats.go:70-76 | as for heights |
| DispatchTheory.SettledIffNotMoving | internal/ipc/server.go:158-181 | every successful motion write has a later stop attempt if and only if a desk that follows the trace is not left moving |
| DispatchTheory.TranscriptReached | internal/ipc/server.go:140-272 | every run of every operation writes a transcript of one permitted shape at each program point |
| DispatchTheory.FinishedIsSettled | internal/ipc/server.go:146-181 | however an operation ends (cancel, arrival, quiescence, deadline, failed pulse, failed wake, unsupported preset), each successful motion write is followed by a stop attempt, the transcript is complete, and the response reports a write failure exactly when a wake, a pulse or the only command failed |
| RequestTheory.FinishedSays | internal/ipc/server.go:140-272 | per request, in literal opcodes: an Up writes 0x00 three times, 0x01 until one 0x2B; Down 0x02; Move 0x1B with the nearest millimetre; presets 0x05 and 0x06; saves 0x03 and 0x04; Stop 0x2B; stats 0xA2; height nothing or 0x07; the rest nothing; what a failed write leaves of it; and the answers possible |
| RequestTheory.ResponseExplains | internal/ipc/server.go:140-272 | the response says how the operation ended: cancelled, arrived, quiet, at its deadline, refused, answered, or at a failed write |
| RequestTheory.EndsAtItsLimit | internal/ipc/server.go:147-165 | the deadline is ready if and only if the request's limit has passed since its clocks were started (500 ms, 30 s or 5 s unless it says otherwise), and a request that ends at it has lasted that long since its first pulse |
| RequestTheory.SucceedsAtItsTarget | internal/ipc/server.go:189-218 | a move succeeds only within its tolerance, 2 mm by default, of its target; a preset only after half a second without a height taken |
| RequestTheory.PresetEndsAfterHalfASecond | internal/ipc/server.go:211-217 | in a preset's loop the timer that ends it can fire if and only if half a second has passed since the last height taken |
| RequestTheory.MotionOpcodes | docs/protocol.md:127-131 | the motion commands are exactly 0x01, 0x02, 0x05, 0x06 and 0x1B |
| DispatchTheory.NeverStuck | desk/monitor.go:118-135 | an unfinished operation always has a next step that needs no notification and no cancellation |
| DispatchTheory.ListenReached | desk/monitor.go:93-104 | the operation's listener is registered exactly between its registration and its deferred cancel |
| WaitTheory.HeardIsReported | desk/monitor.go:93-104 | the listener has been called with exactly the heights reported while it was registered |
| WaitTheory.ArrivalExact | desk/monitor.go:91-135 | success only if a height reported since registration lay between target minus and target plus tolerance; and while the loop waits, its arrival case is ready if and only if one did, so no arrival is lost |
| WaitTheory.InboxIsQueue | desk/monitor.go:161-170 | the channel holds the newest heights that found room, in order, and every other reported height came while four were pending |
| WaitTheory.QuiescenceSound | desk/monitor.go:184-212 | success only after a height was taken and the whole quiescence passed since the last one taken; no stale timer value survives; a first notification is never lost |
| WaitTheory.QuiescenceReady | desk/monitor.go:194-212 | the timer can fire if and only if a height was taken and the quiescence has passed since the last one, and then, and only then, the loop can succeed |
| WaitTheory.QuietMeansSilence | desk/monitor.go:141-143 | if the loop leaves no height pending for more than `lag` ms, then on success every height reported since registration came by the last one taken, a whole quiescence earlier, or in the last `lag` ms; and for a lag below the quiescence nothing came after the last one taken if and only if no height is pending |
| WaitTheory.InboxIsBacklogAndNews | desk/monitor.go:161-170 | the number of pending heights is what was pending after the last one taken plus what was reported since, at most four |
| WaitTheory.LateReportIsOverlooked | desk/monitor.go:194-212 | once the timer has fired, a further report does not keep the select from reporting success |
| WaitTheory.QuietIsNotAlwaysSilence | desk/monitor.go:194-212 | a concrete run without any lag, every tick served when due, in which a height reported in the very millisecond of the success is overlooked |
| TimingTheory.DeskKeepsMovingUntilStopped | desk/monitor.go:109-135 | with successful writes and a total loop latency of at most 50 ms, the documented firmware never auto-stops on a pulse gap: it moves by the operation's own command from the first pulse to the stop |
| TimingTheory.FirmwareByOpcode | docs/protocol.md:99-117 | the documented transitions by opcode, and the stop after more than 250 ms without a pulse |
| ServerTiming.DaemonKeepsDeskMoving | docs/protocol.md:99-117 | the same of the daemon's whole FE61 trace, over any dispatches one after the other and any keep-alives in between; and between dispatches the desk is at rest |
| ServerTiming.TimelyWithinPeriod | desk/monitor.go:114-135 | punctuality asks only that the clock stays within the latency of the next tick of a waiting motion loop |
| TimingTheory.PulseUpperBound | internal/ipc/server.go:146-181 | an `up` or `down` of d ms that takes its deadline when due writes at most 1 + d/200 pulses, however late its ticks and whichever writes fail, cancelled or not; and one stop if it wrote a pulse at all, else none |
| TimingTheory.PulseLowerBound | internal/ipc/server.go:146-181 | not cancelled, with successful writes and ticks served at most `latency` ms late, it writes at least 1 + (d - 1 - latency)/200 pulses, for any delay before the ticker, and exactly one stop |
| RequestTheory.PulseBoundsAreReached | internal/ipc/server.go:163-180 | concrete runs on time to the millisecond that reach the upper and the lower bound |
| TimingTheory.OnlyTheLoopHeedsCancel | internal/ipc/server.go:44-47 | an operation can leave on cancellation if and only if it is in the select of a motion loop |
| TimingTheory.CancelledLoopEnds | internal/ipc/server.go:44-47 | a punctual motion loop is past its stop write 200 + latency ms after its cancellation or its start, whichever is later, plus 200 ms for each tick that its select takes instead |
| TimingTheory.WakesAreSpaced | desk/commands.go:39-48 | wakes are at least 100 ms apart and the first pulse comes at least 300 ms after the first wake, cancelled or not |
| QueryTheory.AnswerIsFirstReport | desk/monitor.go:42-65 | a query that succeeds returns the cached height or the first matching report since its listener was registered; while it waits, its data case is ready if and only if there has been one |
| QueryTheory.CacheIsAskedFirst | desk/monitor.go:28-31 | a cached height answers at once without a write, and nothing is written before the cache was missed |
| QueryTheory.FreshIffNoneEarly | desk/stats.go:87-103 | the report returned came after the request if and only if none came between registering the listener and writing the request |
| QueryTheory.CountersInSeconds | desk/stats.go:29-61 | six report bytes, from the frame to the answer: hours, minutes and seconds of standing, then of sitting, in seconds |
| QueryTheory.StaleReportIsReturned | desk/stats.go:94-104 | from every point at which a query registers its listener, a report that comes before the request is written is returned |
| QueryTheory.WaitingQueryStays | desk/monitor.go:63-72 | a waiting query, cancelled or not, stays until it takes a report or its deadline has come, at least 5 s after the wait began |
| QueryTheory.CancelledQueryOutlivesPulse | internal/ipc/server.go:44-47 | a concrete stats query that is still waiting at any time before 5000 ms, whatever happens but a report |
| DispatchCode.EveryRunIsPlayed | internal/ipc/server.go:140-272 | every complete run of the machine is the effect of some script, so the code's contracts under all scripts cover all runs |
| DispatchCode.FinalIsReached | internal/ipc/server.go:140-272 | where a script ends is where a run of the machine ends |
| DispatchCode.Session.constructor | internal/ipc/server.go:140-141 | a session starts at the operation's first blocking point, bound to the state its script leads to |
| DispatchCode.Session.Callback | desk/monitor.go:93-103 | the listeners' non-blocking sends into channels of capacity 1, 4 and 1 drop only when full |
| DispatchCode.Session.WakeUp | desk/commands.go:39-48 | writes three successful wakes at least 100 ms apart and returns 100 ms after the last, or returns at the first that fails, having written nothing else |
| DispatchCode.Session.MoveToHeight | desk/commands.go:95-98 | writes 0x1B with the target's millimetre bytes, the pulse the machine expects |
| DispatchCode.Session.GoToPreset | desk/commands.go:104-113 | presets 1 and 2 write 0x05 and 0x06; any other number is an error and writes nothing |
| DispatchCode.Session.Stop | desk/commands.go:68-70 | attempts the stop and goes on to return the decided result, whether or not the write succeeded |
| DispatchCode.Session.SelectCase | desk/monitor.go:118-135 | a select takes only a ready case, receives from its channel, and each case leads to its own exit |
| DispatchCode.Session.RestartQuiescence | desk/monitor.go:196-208 | after Stop, drain and Reset the timer is armed for the full quiescence with an empty channel, under both runtimes |
| DispatchCode.Session.WaitForHeight | desk/monitor.go:84-136 | the select loop ends, with the error the machine ends with |
| DispatchCode.Session.WaitForPreset | desk/monitor.go:150-223 | the same, for the loop with the quiescence timer |
| DispatchCode.Session.CurrentHeight | desk/monitor.go:27-73 | for any timeout: the cached height, or the first height reported since its listener was registered, or an error |
| DispatchCode.Session.FetchSitStandTime | desk/stats.go:92-119 | for any timeout: the first counters reported since its listener was registered, or an error |
| DispatchCode.Session.DriveFor | internal/ipc/server.go:146-181 | the `up` and `down` loop ends, with the response the machine ends with |
| DispatchCode.Session.SaveAs | desk/commands.go:125-134 | one write for presets 1 and 2, an error without a write otherwise |
| DispatchCode.Session.Run | internal/ipc/server.go:140-272 | whatever the environment does, the code of dispatch and the machine agree on FE61 transcript and response; the transcript is what the request calls for, opcode by opcode; and no motion is left without a stop attempt |
| ServerTheory.InvReachable | internal/ipc/server.go:97-138 | the invariant of the protocol: mutex ownership, registration order, supersession, listener lifetimes and the wire, at every reachable state |
| ServerTheorems.SerialRefinement | internal/ipc/server.go:97-138 | with the keep-alive erased, the FE61 trace of any interleaving is the transcripts of the dispatches in registration order, never interleaved: the trace of a server that serves the surviving requests one at a time |
| ServerTheorems.MotionSafety | internal/ipc/server.go:120-130 | whenever no handler is in dispatch, every successful motion write has a later stop attempt in the trace, and no listener is registered |
| ServerTheorems.AtMostOneListener | desk/desk.go:237-250 | in the daemon each registry holds at most the running dispatch's listener, at the index it captured |
| ServerTheorems.OneResponse | internal/ipc/server.go:125-131 | each decoded request gets exactly one response: its own dispatch's, or that a newer one preempted it, and then a newer one registered |
| ServerTheorems.PreemptedIffSuperseded | internal/ipc/server.go:123-128 | a handler is turned away if and only if a newer one had cancelled it when it looked |
| ServerTheorems.LastCommandWins | internal/ipc/server.go:106-128 | the last request to register is never turned away |
| ServerTheorems.AtMostOneLive | internal/ipc/server.go:109-116 | at most one registered, unfinished context is uncancelled |
| ServerTheorems.BoundedBypass | internal/ipc/server.go:118-130 | while a registered request is in line and uncancelled, no other dispatch starts, and only the one handler already in dispatch can write |
| ServerPreemption.DispatchSteps | internal/ipc/server.go:130-130 | a running dispatch can take exactly its operation's next steps, its cancellation only when superseded |
| ServerPreemption.CancellableIffSuperseded | internal/ipc/server.go:109-113 | in the select of its loop a dispatch can stop on its context if and only if a newer handler has superseded it |
| ServerPreemption.CancelledOnlyIfSuperseded | internal/ipc/server.go:109-113 | a dispatch takes its cancellation, and answers that it was cancelled, only if a newer request has registered |
| ServerPreemption.SupersededStopsAtOnce | internal/ipc/server.go:168-181 | from its select a superseded dispatch reaches its answer, after one 0x2B, without report, tick, deadline or any time passing |
| ServerPreemption.ReportsReachTheListener | desk/desk.go:153-176 | every report reaches the running dispatch if its listener is registered for that kind, and nobody else |
| ServerPreemption.KeepAliveAnytime | cmd/yaasa/main.go:120-131 | the keep-alive can write its 0x07 at any moment and changes nothing but trace and clock |
| ServerPreemption.AcceptsUntilQuit | internal/ipc/server.go:133-137 | connections are accepted if and only if no quit has been answered |
| ServerPreemption.NobodyAfterQuit | internal/ipc/server.go:82-95 | once the listener is closed there is never another handler |
| ServerPreemption.DispatchedSays | internal/ipc/server.go:130-131 | every answered dispatch in any interleaving has written, and answered, what its request calls for |
| ServerPreemption.EachServesItsOwn | internal/ipc/server.go:82-104 | every accepted connection has its own handler, which serves its own request to the end |
| ServerPreemption.OnlyKeepAliveIsErased | cmd/yaasa/main.go:120-131 | the erased trace holds every handler's write as often as the trace does, and nothing else |
| ServerTheorems.NoDeadlock | internal/ipc/server.go:97-138 | while a handler is not through, some handler can take a step |
| ServerTheorems.OnlyTheRunnerWrites | cmd/yaasa/main.go:120-131 | across a step that starts no dispatch, whoever is in dispatch was before, and apart from the keep-alive only it writes |
| ServerTheorems.KeepAliveFollows | cmd/yaasa/main.go:120-131 | whatever no handler wrote is the keep-alive's 0x07 |
| ServerTheorems.KeepAliveMovesNothing | cmd/yaasa/main.go:120-131 | erasing the keep-alive does not change whether the desk is left moving |
| ServerCode.Service.DecodeRequest | internal/ipc/server.go:101-104 | a request that does not decode is dropped without an answer |
| ServerCode.Service.LockCancelMu | internal/ipc/server.go:109-109 | takes the free mutex and the next registration number |
| ServerCode.Service.CancelPredecessor | internal/ipc/server.go:110-112 | cancels exactly the context of the handler registered last, never the handler's own |
| ServerCode.Service.RegisterOwn | internal/ipc/server.go:113-116 | installs its own cancel function and releases the mutex |
| ServerCode.Service.CheckOwnContext | internal/ipc/server.go:125-128 | answers that it was preempted if its context is cancelled, else begins its dispatch |
| ServerCode.Service.RunDispatch | internal/ipc/server.go:130-130 | the code of dispatch returns the response and has written the commands that the daemon's history holds for this handler |
| ServerCode.Service.Respond | internal/ipc/server.go:131-137 | the response is written once, and a quit request closes the listener and quitCh |
| ServerCode.Service.Handle | internal/ipc/server.go:97-138 | between any steps of the other goroutines the handler either still waits while a mutex is held, or is through, holds no mutex, has cancelled its context and answered exactly once and rightly |
| Handshake.SendNeverBlocks | desk/adapter_darwin.go:203-214 | in every interleaving, and with any number of calls, a delegate's send finds room in its channel |
| Handshake.ConnectionIsOwnAndInTime | desk/adapter_darwin.go:295-320 | a call returns a connection only to its own peripheral, only if a success event came while it was registered, and never once its loop has taken the deadline |
| Handshake.ConnectsIffDeadlineNotTaken | desk/adapter_darwin.go:297-307 | a received report makes a connection if and only if it is a success, the peripheral is connected and the deadline has not been taken; whether it has passed does not matter |
| Handshake.ExpiredSuccessIsARace | desk/adapter_darwin.go:295-318 | after expiry, with a success in the channel, both cases are ready: one connects, the other makes the call time out |
| Handshake.LateSuccessCanConnect | desk/adapter_darwin.go:295-307 | a concrete run in which the deadline passes, then the success event comes, and the call connects |
| Handshake.DeadlineIsRemembered | desk/adapter_darwin.go:308-318 | a call counts as timed out if and only if its loop ever took the deadline |
| Handshake.EntriesAreInFlight | desk/adapter_darwin.go:277-280 | the map holds no entry for a peripheral without a call in flight |
| Handshake.LostIffClobbered | desk/adapter_darwin.go:277-320 | a call in flight can be reached by no event any more if and only if its entry was overwritten by another call for the same peripheral or deleted by one that gave up |
| Handshake.NothingIsLost | desk/adapter_darwin.go:203-320 | one call at a time per peripheral: each call in flight is registered, or its report can be sent, or can be received |
| Handshake.NoEntryAfterReturn | desk/adapter_darwin.go:295-320 | one call at a time per peripheral: when a call returns, on any path, no entry for its peripheral is left |
| Handshake.OverlapStrandsTheSecond | desk/adapter_darwin.go:309-314 | two overlapping calls for one peripheral after which no event reaches the second |
| HandshakeCode.Manager.CompletePending | desk/adapter_darwin.go:203-214 | the registered call's entry is removed and its empty channel gets exactly this report; without an entry nothing changes |
| HandshakeCode.Manager.Connect | desk/adapter_darwin.go:277-321 | between any steps of the other goroutines, other calls for the same peripheral included, the wait loop ends in the state `Wait` defines, returns once its timer has twice fired and been chosen, and returns a connection only to its own peripheral, announced while registered and before the deadline was taken; with one call at a time it leaves no entry behind |
| HandshakeCode.Manager.ReadReport | desk/adapter_darwin.go:297-307 | the report decides the outcome in the order of the source's checks; with one call at a time no entry is left |
| HandshakeCode.Manager.MarkTimedOut | desk/adapter_darwin.go:316-318 | the first deadline taken marks the call as timed out and re-arms its timer |
| HandshakeCode.Manager.GiveUp | desk/adapter_darwin.go:309-314 | at the second deadline taken the entry is deleted and the call returns |

## Left out

- BLE calls, service discovery, reading device information and scanning: foreign behaviour; a connection is what its FE61 writes, FE62 buffers and connect events show.
- `readCh`, `notifyCh` and `deliver` of `desk/adapter_darwin.go`: completions are not matched to their own operations there.
- Sockets, JSON, the connection's fixed 60 s deadline, file paths and daemon start: a connection is one request in and one response out. That a response is produced is proved, not that it reaches the client.
- Command line, printing, verbose logging and error texts: errors are the kinds a caller could tell apart by reading them.
- `clib/clib.go`: handle tables and a copy of the up/down loop without cancellation.
- IEEE rounding, NaN and heights outside [0, 65535]: heights are `real`, and the 16-bit conversion outside that range takes the low 16 bits, about which nothing is proved.
- Overflow of `time.Duration`: durations are unbounded.
- Inches, tenths of a millimetre and formatting: not used on the FE60 path.
- Progress callbacks: the daemon passes nil. `PollHeightDirect` is one more caller of `HandleNotification`.
- The process's exit after quit or a signal, and `Serve`'s return: after quit no further connection is accepted, handlers already accepted go on.
- The backing arrays of the listener slices: the lists are sequences, so `append` on a shared array is not captured; the callback works on a copy, as in the source.
- Firmware transitions that the host does not cause (target reached, idle to standby, buttons): a trace that ignores them is the one that asks most of the pulses.
- Clocks: in a dispatch, tickers and deadlines are ready when they are due; the firing of the quiescence timer and of the connect deadline are events of their own. How late a loop looks is up to the run. How long the connect deadline and the 5 s after it last is not modelled.
- `time.Timer`: what Stop, drain and Reset do is taken from the runtime's documentation, in both of its versions; the methods that say so are assumptions, and `RestartQuiescence` is what follows from them.
- A callback that runs after its listener's cancel, on a copy of the list taken before it: it finds a channel nobody reads, so it is left out.
- The value of the height cache as `CurrentHeight` finds it comes from the environment; that the cache is right is proved of the class `Desk`.
- ServerCode.Service.Dispatch: the operation's events are taken first, between the other goroutines' steps, and the code of dispatch answers to them afterwards; nothing it writes can differ, by `RunDispatch`.
