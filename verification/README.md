# Verified model of a KUKA soft force control stack

The repository moves a KUKA robot by small corrections and keeps its force sensor, its management channel and its
calibration in order. This project models the cores that carry that logic and proves what they keep over every run:

* **RSI closed loop** (`RsiMonitor`, `RsiEndpoints`, `RsiKrc`, `RsiRuns`): two parties exchange state frames and
  corrections over a network that may lose, duplicate, delay and reorder frames but never forges one.
* **EKI management channel** (`EkiStreamSplitter`, `EkiSplitterLaws`, `EkiSession`, `EkiBridge`, `EkiRuns`, `EkiTime`,
  `EkiAnswers`, `EkiStatistics`): a TCP stream is cut into documents, and a caller, an io thread and the KRC exchange
  commands and acknowledgements.
* **SRI sensor stream** (`SriFrame`, `SriLaws`, `SriResync`, `SriSession`, `SriSessionLaws`, `SriOutputLaws`): a byte
  state machine with a checksum, its encoder, sequence gaps, and the tare of the sensor.
* **Manager** (`SystemState`, `Calibration`, `CalibrationRuns`, `Manager`, `ManagerRuns`, `ManagerServo`,
  `ManagerCalibration`): the system state machine, the calibration sequencer, and a worker thread that interleaves with
  serialized commands.
* **Control mathematics** (`RealMath`, `Motion`, `MotionLaws`, `Geometry`, `PayloadModel`, `Compliance`,
  `ComplianceLaws`, `AdmittanceLaws`, `FrameLaws`, `PipelineLaws`, `YieldLaws`, `OpposingRuns`): goal-seeking
  orientation control, force compliance with a learned deadband, gravity compensation.

## How it is built

Every source class is a class with the source's fields; each of its methods is proved to do exactly what a specification
function says (`View()` is the object's value). The laws are lemmas about those functions: over all inputs, over all
runs, and over all interleavings. A critical section under a mutex is one atomic step; a run is a sequence of events,
and `Can` says when an event is possible. `hide` statements only keep a proof small.

Where a promised property is false of the code, the project holds a concrete input that shows it and the exact condition
under which the code meets it:

* Cutting the EKI stream into calls matters for oversized spans: `CuttingMatters` and `LeftoversMatter`, and the exact
  conditions in `CuttingIsInvisibleIff` (what is delivered) and `CuttingLeavesNoTraceIff` (what is kept as well).
* A caller may be told ACCEPTED about a request that the KRC never saw: `OutcomeCanBeForeign`, and the exact condition
  in `OwnOutcomeIff`; `PromptRunsAreOwn` says when it cannot happen in a run with clocks.
* A motion result that overtakes the emission of its goal breaks a calibration: `ShippedPlanOvertaken`, what is lost in
  `OvertakenReturnIsLost`, and the exact conditions in `PlanKeptIff` and `ArrivalsAnswerGoalsIff`.
* A corrupted header can cost more than its own frame (the header file of the assembler promises at most one):
  `HeaderCorruptionCanLoseTwo`, and the exact condition in `HeaderCorruptionLosesOneFrameIff`.
* Both request flags of the state machine can be set, and a fault can leave the servo flag set: `OverlapSurvivesFault`,
  and the exact conditions in `BothFlagsIff`, `FaultWithServoIff` and `ServoingNeedsRestartIff`.
* A late calibration teardown can stop the controller of a servo, whether it is waiting or under way when the servo is
  started: `LateTeardown` and `TeardownUnderServo`, and the exact condition in `ServoStaysOnIff`.
* The compliance output can move against the force. Under an acceleration limit: `RateLimitedOutputCanOppose`, exactly
  as `AxisOpposesIff` says and no longer than `OppositionEnds` says. When it is saturated: `SaturatedOutputCanOppose`;
  where the caps fit the limits, exactly as `NeverClampsIff` says, nothing saturates.
* A correction can exceed its configured limit on the wire, because four decimals may round the limit up:
  `WireCanExceedLimit`, and the exact condition in `WireKeepsLimitIff`.
* A comment in the sensor driver (sri_stream_session.cpp:65-66) counts 66 frames in the longest read; the code can
  complete 67 (`ReadCanComplete67`), which still fits its buffers (`ReadFits`).
* The package number of a sensor frame is not protected by the checksum: `PackageNumberIsUnprotected`.

Assumptions that the model states openly: one requester of the tare at a time (`SriSessionLaws.Can`); commands arrive at
the KRC at most once (`EkiRuns.Can`); while a command is pending, the io thread comes round once per period
(`EkiTime.Possible`); sine, cosine, square root and arc cosine are parameters that satisfy `RealMath.Sound`; the solver
of the payload fit is a parameter. Motion results may arrive at any time.

## Model

| member | source | states |
|---|---|---|
| `RsiRuns.FaultStopsMotion` | ros_ws/src/kuka_rsi_hw_interface/src/kuka_rsi_robot_hw.cpp:64-114 | In every run over the lossy, duplicating, reordering network: from the moment the fault is latched until it is cleared, the KRC integrates at most one further nonzero correction, and that one answers the frame it was awaiting at that moment |
| `RsiRuns.IntegrationIsAccounted` | ros_ws/src/kuka_rsi_hw_interface/src/rsi_mock_core.cpp:14-81 | In every run each state frame has its correction integrated at most once although a write may echo one IPOC many times; replies = integrations + echo errors; integrations never exceed frames sent; no axis moves more than frames sent times its limit as it is on the wire, for every command, non-finite ones included |
| `RsiRuns.WireKeepsLimitIff` | ros_ws/src/kuka_rsi_hw_interface/src/command_limiter.cpp:9-28 | The bound per frame is the configured limit itself, for every command, exactly when rounding the limit to the wire's four decimals does not raise it |
| `RsiRuns.WireCanExceedLimit` | ros_ws/src/kuka_rsi_hw_interface/src/command_limiter.cpp:9-28 | A concrete limit and command where the value on the wire exceeds the limit |
| `RsiRuns.LosslessCycleMoves` | ros_ws/src/kuka_rsi_hw_interface/src/kuka_rsi_robot_hw.cpp:64-114 | Whatever happened before, when one state frame and its answer get through, the robot interface knows the KRC's pose, and every axis moves by what the command says: by itself to half a unit of the last decimal, by the limit on its side beyond it, by nothing if it is no number or a fault stands, with the stop flag; the command is consumed |
| `RsiRuns.ReportedPoseIsTrue` | ros_ws/src/kuka_rsi_hw_interface/src/kuka_rsi_robot_hw.cpp:64-87 | In every run the pose that the robot interface reports is, to half a unit of the last decimal, the start plus every correction integrated for a frame before the one with its IPOC |
| `RsiRuns.LinkIsSupervised` | ros_ws/src/kuka_rsi_hw_interface/src/kuka_rsi_robot_hw.cpp:64-87 | In every run the reported link statistics are the monitor's over the history of reads, with a requested clear before the read that serves it; the fault stands exactly when enough misses came in a row in that history |
| `RsiRuns.KrcCounts` | ros_ws/src/kuka_rsi_hw_interface/src/rsi_mock_core.cpp:35-81 | In every run the KRC counts exactly what it could not parse, and the windows in which nothing came |
| `RsiRuns.IpocStep` | ros_ws/src/kuka_rsi_hw_interface/src/rsi_mock_core.cpp:14-81 | Every step keeps the accounting of IPOCs, frames, replies and integrations |
| `RsiRuns.MotionStep` | ros_ws/src/kuka_rsi_hw_interface/src/kuka_rsi_robot_hw.cpp:89-114 | Every step keeps all corrections on the wire within their limits and the pose equal to its start plus the integrated corrections |
| `RsiRuns.SinceFaultStep` | ros_ws/src/kuka_rsi_hw_interface/src/kuka_rsi_robot_hw.cpp:89-114 | With the fault latched, every step adds only zero corrections to the network and at most the awaited reply to the integrations |
| `RsiEndpoints.ClampBound` | ros_ws/src/kuka_rsi_hw_interface/src/command_limiter.cpp:9-20 | Whatever the command, NaN and infinities included, the clamped value is finite and within the limit; a command inside the limit is kept |
| `RsiEndpoints.WireBound` | ros_ws/src/kuka_rsi_hw_interface/src/command_limiter.cpp:9-28 | Rounding to the wire's four decimals keeps a bounded value within the rounded bound |
| `RsiEndpoints.WriteTells` | ros_ws/src/kuka_rsi_hw_interface/src/kuka_rsi_robot_hw.cpp:89-114 | Nothing before the first state frame; then one frame with the last IPOC and the next watchdog value: a stop and six zeros under a fault, otherwise on each axis the command itself to half a unit of the last decimal, the limit on its side beyond it, or zero for what is no number; a write that limited something is counted |
| `RsiEndpoints.ReadClearsFirst` | ros_ws/src/kuka_rsi_hw_interface/src/kuka_rsi_robot_hw.cpp:64-87 | A requested clear comes before what the read finds: a frame leaves neither fault nor misses, a miss on a connected link is the first again |
| `RsiEndpoints.CommandLimiter.ClampAxis` | ros_ws/src/kuka_rsi_hw_interface/src/command_limiter.cpp:9-20 | Clamps one element in place, reports whether it changed, and leaves the others alone |
| `RsiEndpoints.CommandLimiter.Clamp` | ros_ws/src/kuka_rsi_hw_interface/src/command_limiter.cpp:23-28 | Clamps the six elements in place, the first three by the translation limit and the others by the rotation limit; reports a change exactly when there was one |
| `RsiEndpoints.KukaRsiRobotHW.Read` | ros_ws/src/kuka_rsi_hw_interface/src/kuka_rsi_robot_hw.cpp:64-87 | Serves a pending fault clear first; a timeout and an unparsable frame count as misses; a frame updates monitor, IPOC and pose |
| `RsiEndpoints.KukaRsiRobotHW.Write` | ros_ws/src/kuka_rsi_hw_interface/src/kuka_rsi_robot_hw.cpp:89-114 | Sends nothing before the first frame; then echoes the last IPOC with a new watchdog value, zeros and the stop flag under a fault, the clamped command otherwise, and clears the command |
| `RsiMonitor.FaultIff` | ros_ws/src/kuka_rsi_hw_interface/src/rsi_session_monitor.cpp:5-38 | For a threshold of at least 1 the fault flag is set exactly when, since the last clear, that many misses came with no good frame between them after the first connection |
| `RsiMonitor.ThresholdZeroIsOne` | ros_ws/src/kuka_rsi_hw_interface/src/rsi_session_monitor.cpp:26-31 | A threshold of 0 behaves like 1 |
| `RsiMonitor.JumpsCounted` | ros_ws/src/kuka_rsi_hw_interface/src/rsi_session_monitor.cpp:5-12 | `ipoc_jumps` is the number of adjacent non-increasing IPOC pairs in the history |
| `RsiMonitor.ConsecutiveCounted` | ros_ws/src/kuka_rsi_hw_interface/src/rsi_session_monitor.cpp:5-38 | The miss counter is at least n exactly when the history ends in n misses after the first connection, with no good frame and no clear between |
| `RsiMonitor.MissesCounted` | ros_ws/src/kuka_rsi_hw_interface/src/rsi_session_monitor.cpp:14-24 | Timeouts and bad frames are counted from the first frame on, each in its own counter |
| `RsiMonitor.RsiSessionMonitor.OnFrame` | ros_ws/src/kuka_rsi_hw_interface/src/rsi_session_monitor.cpp:5-12 | One good frame: jump counted, IPOC stored, connected, misses in a row ended |
| `RsiMonitor.RsiSessionMonitor.OnTimeout` | ros_ws/src/kuka_rsi_hw_interface/src/rsi_session_monitor.cpp:14-18 | One timeout: ignored before the first frame, otherwise a counted miss |
| `RsiMonitor.RsiSessionMonitor.OnBadFrame` | ros_ws/src/kuka_rsi_hw_interface/src/rsi_session_monitor.cpp:20-24 | One bad frame: ignored before the first frame, otherwise a counted miss |
| `RsiMonitor.RsiSessionMonitor.CountMiss` | ros_ws/src/kuka_rsi_hw_interface/src/rsi_session_monitor.cpp:26-31 | The miss that reaches the threshold latches the fault |
| `RsiMonitor.RsiSessionMonitor.ClearFault` | ros_ws/src/kuka_rsi_hw_interface/src/rsi_session_monitor.cpp:35-38 | Clears the latch and the misses in a row, and nothing else |
| `RsiKrc.RsiMockCore.BuildStateFrame` | ros_ws/src/kuka_rsi_hw_interface/src/rsi_mock_core.cpp:14-33 | Sends the pose with the next IPOC, awaits its echo, and advances the IPOC by the step |
| `RsiKrc.RsiMockCore.ApplyReply` | ros_ws/src/kuka_rsi_hw_interface/src/rsi_mock_core.cpp:35-81 | Integrates the correction exactly when the reply echoes the awaited IPOC, and then awaits nothing; otherwise only counts |
| `RsiKrc.RsiMockCore.NoteReplyTimeout` | ros_ws/src/kuka_rsi_hw_interface/include/kuka_rsi_hw_interface/rsi_mock_core.h:42 | A window without a reply is only counted |
| `RsiKrc.ReceiveReplyWindow` | ros_ws/src/kuka_rsi_hw_interface/src/rsi_mock_server.cpp:7-40 | Takes datagrams up to the first fresh reply, all of them if none is fresh, and notes a timeout only if none came |
| `EkiSplitterLaws.CuttingIsInvisibleIff` | ros_ws/src/kuka_eki_bridge/src/eki_stream_splitter.cpp:12-38 | Every way of cutting the stream into calls delivers the documents of one single call, exactly when no span is oversized and resumable (a start tag lies in its last 8192 bytes but not exactly 8193 bytes before its end) |
| `EkiSplitterLaws.CuttingLeavesNoTraceIff` | ros_ws/src/kuka_eki_bridge/src/eki_stream_splitter.cpp:12-38 | Every way of cutting the stream delivers the documents of one single call and also keeps the same bytes, exactly when no span is resumable and every oversized one has a start tag exactly 8193 bytes before its end, or a start tag or at least nine bytes after it |
| `EkiSplitterLaws.CuttingKeepsShort` | ros_ws/src/kuka_eki_bridge/src/eki_stream_splitter.cpp:12-38 | With start-to-end spans of at most 8192 bytes, every cutting delivers the same documents in the same order and leaves the same buffer as one call |
| `EkiSplitterLaws.CuttingMatters` | ros_ws/src/kuka_eki_bridge/src/eki_stream_splitter.cpp:27-36 | A concrete stream and cutting that deliver different documents |
| `EkiSplitterLaws.LeftoversMatter` | ros_ws/src/kuka_eki_bridge/src/eki_stream_splitter.cpp:27-36 | A concrete stream and cutting that deliver the same documents and keep different bytes |
| `EkiSplitterLaws.DeliversDocuments` | ros_ws/src/kuka_eki_bridge/src/eki_stream_splitter.cpp:14-37 | Every delivered document begins with the start tag, ends at its first end tag and has at most 8192 bytes |
| `EkiSplitterLaws.KeepsNoDocument` | ros_ws/src/kuka_eki_bridge/src/eki_stream_splitter.cpp:14-37 | At most 8192 bytes stay buffered, and they hold no start tag followed by an end tag |
| `EkiSplitterLaws.FramedIsDelivered` | ros_ws/src/kuka_eki_bridge/src/eki_stream_splitter.cpp:14-37 | Documents in noise that holds no start tag are delivered exactly once each and in order |
| `EkiSplitterLaws.ScanPrefix` | ros_ws/src/kuka_eki_bridge/src/eki_stream_splitter.cpp:12-38 | Bytes that arrive later do not change what an earlier call did |
| `EkiStreamSplitter.Splitter.Feed` | ros_ws/src/kuka_eki_bridge/src/eki_stream_splitter.cpp:12-38 | Terminates, delivers what the scan of the whole connection's stream says, and keeps exactly the stream from the kept position on |
| `EkiStreamSplitter.Splitter.ScanOnce` | ros_ws/src/kuka_eki_bridge/src/eki_stream_splitter.cpp:14-37 | One turn of the loop: no start tag, an unfinished document, an oversized unfinished one, or a finished span |
| `EkiStreamSplitter.Splitter.Reset` | ros_ws/src/kuka_eki_bridge/include/kuka_eki_bridge/eki_stream_splitter.h:19 | A new connection starts with an empty buffer |
| `EkiStreamSplitter.NextMeaning` | ros_ws/src/kuka_eki_bridge/src/eki_stream_splitter.cpp:15-25 | Searching a tag answers -1 exactly when the window holds none, and the first one otherwise |
| `EkiRuns.AtMostOnce` | ros_ws/src/kuka_eki_bridge/src/eki_bridge_runtime.cpp:69-202 | Over all interleavings within one lifetime of the io thread: nothing is pending while disconnected, every command is begun at most once and handled at most once, and every request is resolved at most once |
| `EkiRuns.OutcomeIsTrue` | ros_ws/src/kuka_eki_bridge/src/eki_bridge_runtime.cpp:69-98 | If nothing was pending on a live link at the post: ACCEPTED means the KRC handled exactly that sequence number once and accepted it, and the returned state is its reply, which shows the KRC after it; REJECTED by an acknowledgement means it handled it once with no change, and code and state are the reply's; the bridge's own code comes with no state |
| `EkiRuns.OwnOutcomeIff` | ros_ws/src/kuka_eki_bridge/src/eki_bridge_runtime.cpp:69-98 | Whatever follows, the outcome of a request comes from its own command or from the link, exactly when no other command was pending on a live link at its post |
| `EkiTime.OutcomeCanBeForeign` | ros_ws/src/kuka_eki_bridge/src/eki_bridge_runtime.cpp:83-96 | With the default times, a reachable state in which a caller was told ACCEPTED about a request that the KRC never handled: its predecessor waited out the back-off, was begun late and given up, and its own reply came in time |
| `EkiTime.GivingUpLate` | ros_ws/src/kuka_eki_bridge/src/eki_bridge_runtime.cpp:83-96 | A command still pending when `execute` gives up was begun in the last second before that, or within one loop period more |
| `EkiTime.PromptRunsAreOwn` | ros_ws/src/kuka_eki_bridge/src/eki_bridge_runtime.cpp:69-202 | What the extra second buys: if every command is begun less than a response timeout and one loop period before its `execute` gives up, every outcome of a run comes from the request's own command or from the link, and every caller is told what the KRC did |
| `EkiTime.PatienceIs` | ros_ws/src/kuka_eki_bridge/src/eki_bridge_runtime.cpp:83-86 | `execute` waits for the response timeout plus a second, less at most a millisecond |
| `EkiRuns.CommandGoesThrough` | ros_ws/src/kuka_eki_bridge/src/eki_bridge_runtime.cpp:69-202 | From every reachable state with an idle live link a posted command can go all the way: begun once, handled once as it was posted, and the caller is told the KRC's verdict with the state of its reply, or a timeout if the KRC does not answer |
| `EkiAnswers.AnswersAreTruthful` | ros_ws/src/kuka_eki_bridge/src/eki_bridge_runtime.cpp:60-98 | In every run, for a request posted with nothing pending on a live link: ACCEPTED means the KRC carried out exactly the posted command, once, and the returned state is its reply and shows what was asked for (the tool of a SetToolBase, the mode of a SetMode, RSI active or not, no fault); a refusal has its reason, which the returned state shows |
| `EkiAnswers.RejectedWasNotSent` | ros_ws/src/kuka_eki_bridge/src/eki_bridge_runtime.cpp:112-179 | In every run, a caller that is told REJECTED for want of a link gets no state, and its command was not sent: the KRC can have handled it only if its sending failed half way |
| `EkiAnswers.ConnectsIff` | ros_ws/src/kuka_eki_bridge/src/eki_bridge_runtime.cpp:112-143 | In every run, a disconnected bridge tries to connect exactly when it reconnects by itself or was asked to since the last connection; every connection but the first counts as a reconnection |
| `EkiAnswers.UnreachableIsRejected` | ros_ws/src/kuka_eki_bridge/src/eki_bridge_runtime.cpp:112-152 | A request that finds no link and no wish for one, or whose connection attempt fails, is rejected at once, with no state |
| `EkiAnswers.HandleDoes` | ros_ws/src/kuka_eki_bridge/src/eki_mock_server.cpp:184-232 | Every command is answered unless the next answer is suppressed; an accepted one changes exactly what it asks for, a refused one nothing and for a reason that the reply shows |
| `EkiStatistics.ReportsAreTrue` | ros_ws/src/kuka_eki_bridge/src/eki_session_core.cpp:25-35 | In every run the session knows the last state document since the link was made and when it came, none without one, and its counters of good and bad documents make up every document received |
| `EkiStatistics.PendingEndsIff` | ros_ws/src/kuka_eki_bridge/src/eki_session_core.cpp:5-48 | In every step a pending command ends exactly when it is acknowledged or has expired, and is counted as a timeout exactly when it expired without acknowledgement |
| `EkiStatistics.NothingToTimeOut` | ros_ws/src/kuka_eki_bridge/src/eki_session_core.cpp:37-48 | Without a pending command no timeout is counted |
| `EkiRuns.LinkStep` | ros_ws/src/kuka_eki_bridge/src/eki_bridge_runtime.cpp:109-202 | Every step keeps: a command is pending only on a live link or one whose loss is about to be processed |
| `EkiRuns.BeginStep` | ros_ws/src/kuka_eki_bridge/src/eki_session_core.cpp:17-23 | Every step keeps: sequence numbers are begun once, and a begun open request is the pending one |
| `EkiRuns.SendStep` | ros_ws/src/kuka_eki_bridge/src/eki_bridge_runtime.cpp:148-167 | Every step keeps: a command on its way was begun and not yet handled |
| `EkiRuns.KrcStep` | ros_ws/src/kuka_eki_bridge/src/eki_mock_server.cpp:184-232 | Every step keeps: a refusal leaves the table unchanged, and every acknowledgement on the network was given by the KRC for that sequence number |
| `EkiRuns.ResolveStep` | ros_ws/src/kuka_eki_bridge/src/eki_bridge_runtime.cpp:60-67 | Every step keeps: each request is resolved at most once and with a justified outcome |
| `EkiBridge.EkiBridgeRuntime.ResolveLocked` | ros_ws/src/kuka_eki_bridge/src/eki_bridge_runtime.cpp:60-67 | Fills the result and marks it ready |
| `EkiBridge.EkiBridgeRuntime.Post` | ros_ws/src/kuka_eki_bridge/src/eki_bridge_runtime.cpp:69-82 | Claims the slot with a fresh sequence number and no result |
| `EkiBridge.EkiBridgeRuntime.Finish` | ros_ws/src/kuka_eki_bridge/src/eki_bridge_runtime.cpp:83-98 | Returns the result, or a timeout without connection when there is none, and frees the slot |
| `EkiBridge.EkiBridgeRuntime.Disconnected` | ros_ws/src/kuka_eki_bridge/src/eki_bridge_runtime.cpp:112-125 | Without link: a connection is wanted by configuration or on request; when none is wanted, an open request is rejected |
| `EkiBridge.EkiBridgeRuntime.Connected` | ros_ws/src/kuka_eki_bridge/src/eki_bridge_runtime.cpp:126-135 | A new connection starts with a reset session, so nothing is pending, and counts as a reconnect unless it is the first |
| `EkiBridge.EkiBridgeRuntime.ConnectFailed` | ros_ws/src/kuka_eki_bridge/src/eki_bridge_runtime.cpp:136-144 | A failed connection attempt rejects an open request |
| `EkiBridge.EkiBridgeRuntime.Service` | ros_ws/src/kuka_eki_bridge/src/eki_bridge_runtime.cpp:148-158 | Begins the open request exactly when no command is pending, and hands it to the sender |
| `EkiBridge.EkiBridgeRuntime.SendFailed` | ros_ws/src/kuka_eki_bridge/src/eki_bridge_runtime.cpp:159-167 | A failed send ends the link: the session is reset and the open request rejected |
| `EkiBridge.EkiBridgeRuntime.LinkLost` | ros_ws/src/kuka_eki_bridge/src/eki_bridge_runtime.cpp:171-179 | A lost link resets the session and, if a command was pending, times out the open request |
| `EkiBridge.EkiBridgeRuntime.OnDocument` | ros_ws/src/kuka_eki_bridge/src/eki_bridge_runtime.cpp:180-196 | A document that ends the pending command resolves the open request |
| `EkiBridge.EkiBridgeRuntime.Received` | ros_ws/src/kuka_eki_bridge/src/eki_bridge_runtime.cpp:180-201 | All documents of one read in order, then the deadline |
| `EkiSession.EkiSessionCore.Reset` | ros_ws/src/kuka_eki_bridge/src/eki_session_core.cpp:5-15 | Drops the pending command and forgets the last state; answers with a counted timeout exactly when a command was pending |
| `EkiSession.EkiSessionCore.BeginCommand` | ros_ws/src/kuka_eki_bridge/src/eki_session_core.cpp:17-23 | Accepts a command exactly when none is pending |
| `EkiSession.EkiSessionCore.OnState` | ros_ws/src/kuka_eki_bridge/src/eki_session_core.cpp:25-35 | Ends the pending command exactly when the acknowledgement carries its sequence number |
| `EkiSession.EkiSessionCore.OnBadFrame` | ros_ws/src/kuka_eki_bridge/include/kuka_eki_bridge/eki_session_core.h:44 | An unparsable document is only counted |
| `EkiSession.EkiSessionCore.Tick` | ros_ws/src/kuka_eki_bridge/src/eki_session_core.cpp:37-44 | Times out the pending command exactly past its deadline |
| `EkiSession.EkiMockServer.HandleCommand` | ros_ws/src/kuka_eki_bridge/src/eki_mock_server.cpp:184-232 | The KRC's behaviour table: what each action changes, and how it is acknowledged |
| `SriLaws.RoundTrip` | ros_ws/src/sri_force_torque_driver/src/sri_frame.cpp:13-74 | Frames of the encoder, separated by noise without a sync pair and cut into calls anywhere, decode to exactly those package numbers and data bytes in order |
| `SriLaws.FrameBytes` | ros_ws/src/sri_force_torque_driver/src/sri_mock_server.cpp:95-113 | An encoded frame byte by byte: the sync pair, the length, the big-endian package number, the data, and the sum of the data modulo 256 |
| `SriLaws.CuttingIsInvisible` | ros_ws/src/sri_force_torque_driver/src/sri_frame.cpp:13-74 | How the bytes are cut into calls does not matter |
| `SriLaws.EveryByteIsAccounted` | ros_ws/src/sri_force_torque_driver/src/sri_frame.cpp:16-69 | Bytes fed = skipped + 4 * bad lengths + 31 * (frames + bad checksums) + bytes in flight, at most 30 |
| `SriLaws.ReadFits` | ros_ws/src/sri_force_torque_driver/src/sri_driver_runtime.cpp:86-122 | A read of at most 2048 bytes completes at most 67 frames, so 80 slots receive all of them |
| `SriLaws.ReadCanComplete67` | ros_ws/src/sri_force_torque_driver/src/sri_stream_session.cpp:65-68 | 67 frames in one read are reached |
| `SriLaws.DriverNeverDrops` | ros_ws/src/sri_force_torque_driver/src/sri_driver_runtime.cpp:86-122 | In no run of reads and reconnections does the driver drop a frame |
| `SriLaws.BodyCorruptionLosesOneFrame` | ros_ws/src/sri_force_torque_driver/src/sri_frame.cpp:46-69 | A changed data or checksum byte is always counted as a bad checksum, and every other frame of the stream still decodes |
| `SriResync.HeaderCorruptionLosesOneFrameIff` | ros_ws/src/sri_force_torque_driver/src/sri_frame.cpp:18-69 | One changed header byte costs only its own frame, whatever frames follow, exactly when the payload and the noise up to the next frame are harmless: no sync pair met in them is followed by a length or payload cut short by the next frame, or by a payload that passes the checksum |
| `SriResync.HeaderCorruptionCanLoseTwo` | ros_ws/src/sri_force_torque_driver/include/sri_force_torque_driver/sri_frame.h:29-31 | A payload without a sync pair whose corrupted header also costs the next frame: its checksum byte and one byte of noise form a sync pair |
| `SriResync.LastHeaderLosesOneFrame` | ros_ws/src/sri_force_torque_driver/src/sri_frame.cpp:18-69 | A corrupted header of the last frame costs only that frame |
| `SriResync.NextFrameSurvivesIff` | ros_ws/src/sri_force_torque_driver/src/sri_frame.cpp:18-69 | The next frame, whatever it is, decodes and nothing else comes out, exactly when the bytes before it are harmless |
| `SriResync.HarmlessMeans` | ros_ws/src/sri_force_torque_driver/src/sri_frame.cpp:18-69 | Exactly the harmless bytes leave the assembler in the hunt with nothing delivered |
| `SriLaws.PackageNumberIsUnprotected` | ros_ws/src/sri_force_torque_driver/src/sri_frame.cpp:46-69 | A changed package number byte goes unnoticed: the result is a valid frame with another number |
| `SriLaws.RunEncoded` | ros_ws/src/sri_force_torque_driver/src/sri_frame.cpp:18-69 | From any hunting state one encoded frame yields exactly its sample and one more counted frame |
| `SriLaws.RunNoise` | ros_ws/src/sri_force_torque_driver/src/sri_frame.cpp:18-30 | Noise without a sync pair yields nothing and only counts skipped bytes |
| `SriLaws.SriMockServer.BuildFrame` | ros_ws/src/sri_force_torque_driver/src/sri_mock_server.cpp:95-113 | Writes the encoding of the incremented package number and the wrench, with an inverted checksum byte on request |
| `SriFrame.FeedMeaning` | ros_ws/src/sri_force_torque_driver/src/sri_frame.cpp:13-74 | A call delivers the first `max_out` valid frames and counts the others as dropped; nothing else depends on the room |
| `SriFrame.SriFrameAssembler.Feed` | ros_ws/src/sri_force_torque_driver/src/sri_frame.cpp:13-74 | Writes the delivered frames to the buffer, leaves the rest of it alone, and leaves the assembler as specified |
| `SriFrame.SriFrameAssembler.OnByte` | ros_ws/src/sri_force_torque_driver/src/sri_frame.cpp:18-69 | One byte in each of the five states |
| `SriFrame.SriFrameAssembler.OnPayload` | ros_ws/src/sri_force_torque_driver/src/sri_frame.cpp:46-69 | The last payload byte is checked against the sum of the 24 data bytes |
| `SriFrame.SriFrameAssembler.Reset` | ros_ws/src/sri_force_torque_driver/src/sri_frame.cpp:7-11 | A new connection hunts for a header; counters stay |
| `SriSessionLaws.GapsAreBreaks` | ros_ws/src/sri_force_torque_driver/src/sri_stream_session.cpp:70-80 | `package_gaps` grows by the number of adjacent samples of the connection whose numbers do not follow each other modulo 2^16 |
| `SriSessionLaws.LosslessStreamHasNoGaps` | ros_ws/src/sri_force_torque_driver/src/sri_stream_session.cpp:70-80 | A lossless stream, cut anywhere, adds no gap, also across the 16-bit wrap |
| `SriSessionLaws.GapsOverConnections` | ros_ws/src/sri_force_torque_driver/src/sri_stream_session.cpp:23-30 | Over any number of connections the gaps are the breaks within each: what is lost between two connections is no gap |
| `SriSessionLaws.TareIsHonest` | ros_ws/src/sri_force_torque_driver/src/sri_driver_runtime.cpp:50-68 | With one requester, across all interleavings of samples, polls, deadlines and reconnections: the bias is zero or the mean of exactly the configured number of consecutive samples of one connection, within the limit; the request answers true only if those samples directly followed it, and the bias is then their mean |
| `SriSessionLaws.TareAnswersIff` | ros_ws/src/sri_force_torque_driver/src/sri_driver_runtime.cpp:50-68 | A request followed by the configured number of samples and a poll answers true exactly when their mean is within the limit; then the bias is that mean, otherwise it stays |
| `SriSessionLaws.CaptureEnds` | ros_ws/src/sri_force_torque_driver/src/sri_stream_session.cpp:44-61 | The last sample of a capture: accepted, the bias is the mean of the samples since the request; rejected, nothing changes |
| `SriOutputLaws.PublishedIsUnbiased` | ros_ws/src/sri_force_torque_driver/src/sri_stream_session.cpp:90-98 | With the filter off, every published wrench and the bias in force after its sample make up the raw wrench, one for each sample and in order, tares included |
| `SriOutputLaws.TareTakesLoadAway` | ros_ws/src/sri_force_torque_driver/src/sri_stream_session.cpp:44-98 | A tare from its request on, whatever the filter: accepted exactly when the mean is within the limit (none without a positive one), it publishes its last sample without the mean, and the captured load fed again without the filter totals zero; refused, it is counted and the bias stays |
| `SriOutputLaws.TaredLoadIsZero` | ros_ws/src/sri_force_torque_driver/src/sri_stream_session.cpp:90-98 | The samples whose mean is the bias are published, without the filter, with a total of zero |
| `SriOutputLaws.FirstIsUnfiltered` | ros_ws/src/sri_force_torque_driver/src/sri_stream_session.cpp:23-30 | The first sample of a new connection is published without the bias and unfiltered, whatever the cutoff |
| `SriOutputLaws.PublishedIsLowPassed` | ros_ws/src/sri_force_torque_driver/src/sri_stream_session.cpp:90-98 | With the filter running, the unbiased wrench is published through a first-order low-pass at the configured sample rate |
| `SriOutputLaws.FilterIsLowPass` | ros_ws/src/soft_force_control_core/src/force_torque_filter.cpp:5-21 | A running filter satisfies rc * dy = dt * (x - y) on every axis, with rc = 1 / (2 pi cutoff), and keeps what it puts out |
| `SriSession.SriStreamSession.Reset` | ros_ws/src/sri_force_torque_driver/src/sri_stream_session.cpp:23-30 | A new connection forgets numbering, capture and filter, and keeps the bias |
| `SriSession.SriStreamSession.StartZero` | ros_ws/src/sri_force_torque_driver/src/sri_stream_session.cpp:32-35 | Starts a capture over the configured number of samples |
| `SriSession.SriStreamSession.CancelZero` | ros_ws/src/sri_force_torque_driver/src/sri_stream_session.cpp:37 | Ends a capture without touching the bias |
| `SriSession.SriStreamSession.FinishZeroCapture` | ros_ws/src/sri_force_torque_driver/src/sri_stream_session.cpp:44-61 | Takes over the mean unless it exceeds the limit |
| `SriSession.SriStreamSession.Feed` | ros_ws/src/sri_force_torque_driver/src/sri_stream_session.cpp:63-107 | Decodes, counts, captures, unbiases and filters each frame in order, up to the room of the buffer |
| `SriSession.SriStreamSession.OnSamples` | ros_ws/src/sri_force_torque_driver/src/sri_stream_session.cpp:70-107 | The loop over the decoded frames |
| `SriSession.SriStreamSession.OnSample` | ros_ws/src/sri_force_torque_driver/src/sri_stream_session.cpp:70-95 | One sample of the loop |
| `SystemState.BothFlagsIff` | ros_ws/src/soft_force_control_manager/src/system_state_core.cpp:67-96 | In a run both flags are set at some point exactly when an accepted start and an accepted calibration overlap with no update between them (and no end of a calibration requested first) |
| `SystemState.FaultLatches` | ros_ws/src/soft_force_control_manager/src/system_state_core.cpp:31-65 | FAULT holds until an accepted reset and sets no flag; both are clear unless requests overlapped |
| `SystemState.FaultWithServoIff` | ros_ws/src/soft_force_control_manager/src/system_state_core.cpp:31-65 | A run reaches a FAULT with the servo flag set exactly when an update loses a calibration while both flags are set |
| `SystemState.ServoingNeedsRestartIff` | ros_ws/src/soft_force_control_manager/src/system_state_core.cpp:67-105 | From FAULT, every way back to SERVOING takes an accepted reset and after that an accepted start, exactly when the fault cleared the servo flag |
| `SystemState.RestartNeeded` | ros_ws/src/soft_force_control_manager/src/system_state_core.cpp:67-105 | The same for every later point of a run |
| `SystemState.FaultMaskedIff` | ros_ws/src/soft_force_control_manager/src/system_state_core.cpp:17-65 | In every run an update that reports an RSI fault goes without FAULT exactly when the controller reports none, the heartbeat shows an inactive RSI context, and no accepted start or calibration is still under way; so never during a requested servo or calibration |
| `SystemState.StateAfterUpdate` | ros_ws/src/soft_force_control_manager/src/system_state_core.cpp:8-65 | In every run the state after an update outside FAULT follows from the health report, condition by condition, and from which accepted requests stand: FAULT, CALIBRATING, SERVOING, DEGRADED, OFFLINE, READY or CONNECTED |
| `SystemState.AcceptedIff` | ros_ws/src/soft_force_control_manager/src/system_state_core.cpp:67-106 | In every run a start, calibration, stop or reset is accepted exactly in its states and under its conditions, written out |
| `SystemState.OverlapSurvivesFault` | ros_ws/src/soft_force_control_manager/src/system_state_core.cpp:31-105 | A concrete run in which overlapping requests lead from FAULT to SERVOING without a start |
| `SystemState.SystemStateCore.Update` | ros_ws/src/soft_force_control_manager/src/system_state_core.cpp:31-65 | One update of state and flags |
| `SystemState.SystemStateCore.RequestStart` | ros_ws/src/soft_force_control_manager/src/system_state_core.cpp:67-78 | Accepted exactly in READY with a fresh RSI topic and all ready conditions |
| `SystemState.SystemStateCore.RequestStop` | ros_ws/src/soft_force_control_manager/src/system_state_core.cpp:80-85 | Accepted exactly in SERVOING and DEGRADED |
| `SystemState.SystemStateCore.RequestCalibration` | ros_ws/src/soft_force_control_manager/src/system_state_core.cpp:87-96 | Accepted exactly in READY with a fresh, connected RSI and a streaming sensor |
| `SystemState.SystemStateCore.CalibrationFinished` | ros_ws/src/soft_force_control_manager/src/system_state_core.cpp:98 | Clears the calibration flag and nothing else |
| `SystemState.SystemStateCore.RequestReset` | ros_ws/src/soft_force_control_manager/src/system_state_core.cpp:100-105 | Accepted exactly in FAULT |
| `CalibrationRuns.PlanKeptIff` | ros_ws/src/soft_force_control_manager/src/calibration_sequencer.cpp:10-97 | Whatever motion results arrive when: throughout a run the emitted goals are a prefix of the poses followed by the return pose, each once, every finished pose contributed the mean of exactly `samples_per_pose` wrenches taken after settling, and DONE means all goals, all samples and an ok fit of exactly these samples; exactly when no result arrives while RETURNING with the return goal not yet emitted |
| `CalibrationRuns.ArrivalsAnswerGoalsIff` | ros_ws/src/soft_force_control_manager/src/calibration_sequencer.cpp:10-97 | All that, and every pose is sampled after an arrival that was reported after the pose's own goal (DONE after one at the return pose), exactly when no result is taken for the answer to a goal not yet emitted |
| `CalibrationRuns.CalibrationIsComplete` | ros_ws/src/soft_force_control_manager/src/calibration_sequencer.cpp:10-97 | All that holds if each result answers the latest emitted goal at most once |
| `CalibrationRuns.FailedIsQuiet` | ros_ws/src/soft_force_control_manager/src/calibration_sequencer.cpp:10-47 | After FAILED no goal is emitted until the next start, whatever results arrive |
| `CalibrationRuns.Do` | ros_ws/src/soft_force_control_manager/src/calibration_sequencer.cpp:10-97 | No call, in any order, makes the sequencer read past the configured poses |
| `CalibrationRuns.CanAlwaysFinish` | ros_ws/src/soft_force_control_manager/src/calibration_sequencer.cpp:10-97 | No dead end: every active run that kept its plan can go on to DONE and keep it, if the solver accepts |
| `CalibrationRuns.EndIsReported` | ros_ws/src/soft_force_control_manager/src/calibration_sequencer.cpp:10-102 | In every run, whatever results arrive when: FAILED reports the cause of the failure, DONE whether the return move succeeded, and no other phase reports a failure or a fit |
| `CalibrationRuns.StartIff` | ros_ws/src/soft_force_control_manager/src/calibration_sequencer.cpp:17-30 | In every run a start takes effect exactly when the sequencer is not active and there are poses and samples to take |
| `CalibrationRuns.StartForgets` | ros_ws/src/soft_force_control_manager/src/calibration_sequencer.cpp:17-30 | A start keeps nothing of the runs before it but the time of the last settling |
| `CalibrationRuns.OvertakingResult` | ros_ws/src/soft_force_control_manager/src/calibration_sequencer.cpp:49-61 | Every plan with a solver that accepts as many samples as it has poses can be run to the point where a result overtakes its return goal |
| `CalibrationRuns.OvertakenReturnIsLost` | ros_ws/src/soft_force_control_manager/src/calibration_sequencer.cpp:49-61 | For every configuration and every run: a result that finds the return goal waiting makes the sequencer DONE with the goals of the poses only, and the next tick emits the last pose once more instead of the return pose |
| `CalibrationRuns.ShippedPlanOvertaken` | ros_ws/src/soft_force_control_manager/config/calibration.yaml:4-16 | The shipped plan of eight poses, with a solver that refuses fewer than four samples, has a run that is DONE without the return move and emits the eighth pose twice |
| `Calibration.CalibrationSequencer.Fail` | ros_ws/src/soft_force_control_manager/src/calibration_sequencer.cpp:10-15 | Only an active sequencer fails; the pending goal is dropped |
| `Calibration.CalibrationSequencer.Start` | ros_ws/src/soft_force_control_manager/src/calibration_sequencer.cpp:17-30 | Accepted exactly when inactive with poses and a positive sample count; starts over |
| `Calibration.CalibrationSequencer.Tick` | ros_ws/src/soft_force_control_manager/src/calibration_sequencer.cpp:32-47 | Ends settling after the settle time, and emits a pending goal once |
| `Calibration.CalibrationSequencer.OnMotionResult` | ros_ws/src/soft_force_control_manager/src/calibration_sequencer.cpp:49-61 | Settles, fails, or ends the return move |
| `Calibration.CalibrationSequencer.OnWrench` | ros_ws/src/soft_force_control_manager/src/calibration_sequencer.cpp:63-97 | Accumulates; the last sample of a pose stores its mean and moves on; the last pose solves |
| `ManagerRuns.AtMostOneController` | ros_ws/src/soft_force_control_manager/src/manager_runtime.cpp:105-129 | Over all interleavings of the worker's teardown with commands, including the gap between listing and switching: at most one of the two controllers ever runs |
| `ManagerRuns.PayloadAppliedOncePerRun` | ros_ws/src/soft_force_control_manager/src/manager_runtime.cpp:131-201 | The payload is applied at most once per accepted sequencer start, and only with the ok fit of a run that ended DONE |
| `ManagerRuns.EveryStepIsDefined` | ros_ws/src/soft_force_control_manager/src/manager_runtime.cpp:131-201 | In no interleaving is the sequencer made to read past its poses, whenever motion results arrive |
| `ManagerRuns.StartServoStarts` | ros_ws/src/soft_force_control_manager/src/manager_runtime.cpp:203-287 | From READY, with the listing and the switch answered, a start that the core accepts leaves exactly the mode's controller running, and the manager's mode, profile and active controller say so |
| `ManagerCalibration.ManagerRunsCalibration` | ros_ws/src/soft_force_control_manager/src/manager_runtime.cpp:131-201 | In every run of the manager, whatever the interleaving, its sequencer goes through the calibration run that ticks, stream losses, results, wrenches, cancels and starts make up, and hands that run's goals to the motion client |
| `ManagerCalibration.ManagerKeepsPlan` | ros_ws/src/soft_force_control_manager/src/manager_runtime.cpp:131-201 | So in every run of the manager in which no motion result overtakes the return goal, the goals sent are a prefix of the poses and the return pose, and DONE means all of them and an ok fit of as many samples as poses |
| `ManagerCalibration.CalibrationStarts` | ros_ws/src/soft_force_control_manager/src/manager_runtime.cpp:312-368 | From READY, with the calls answered, an accepted calibration leaves exactly the correction controller running and the sequencer at its first goal |
| `ManagerCalibration.StopServoStops` | ros_ws/src/soft_force_control_manager/src/manager_runtime.cpp:289-310 | An accepted stop, with the calls answered, takes the active controller down and leaves the manager idle |
| `ManagerCalibration.TeardownFinishes` | ros_ws/src/soft_force_control_manager/src/manager_runtime.cpp:139-201 | A finished calibration is torn down at the next tick: the payload of a DONE one with an ok fit is applied, no other; the correction controller is taken down, and the manager is idle |
| `ManagerCalibration.UnfilteredIsRefused` | ros_ws/src/soft_force_control_manager/src/manager_runtime.cpp:113-129 | Without the listing hook a request goes out as it is, and STRICT refuses it as a whole if it starts what runs or stops what does not |
| `ManagerServo.ServoStaysOnIff` | ros_ws/src/soft_force_control_manager/src/manager_runtime.cpp:131-201 | In every run: a servo of the mode's controller that from now on only the worker and the callbacks act on stays what it is, exactly when no calibration waits for its teardown and the worker is not inside one |
| `ManagerServo.LateTeardown` | ros_ws/src/soft_force_control_manager/src/manager_runtime.cpp:131-201 | A run from the start, for every configuration with a pose: calibration, fault, reset, servo; then the late teardown stops the servo's controller, and SERVOING goes on with nothing running |
| `ManagerServo.TeardownUnderServo` | ros_ws/src/soft_force_control_manager/src/manager_runtime.cpp:131-201 | A run from the start in which the servo is started while the worker is already inside the teardown, which then stops its controller: no calibration waits any more, and the servo flag is set with nothing running |
| `ManagerServo.CarefulServoRuns` | ros_ws/src/soft_force_control_manager/src/manager_runtime.cpp:131-368 | If every start and calibration is asked for outside the calibration mode and without a servo, then in every run, whenever nothing is under way, the servo flag means that exactly the mode's controller runs |
| `ManagerRuns.ControllerStep` | ros_ws/src/soft_force_control_manager/src/manager_runtime.cpp:203-310 | Every step keeps: a switch that starts one controller stops the other in the same request, or the other does not run |
| `ManagerRuns.PayloadStep` | ros_ws/src/soft_force_control_manager/src/manager_runtime.cpp:131-201 | Every step keeps the bookkeeping of finished and applied runs |
| `Manager.ControllerManager.Switch` | ros_ws/src/soft_force_control_manager/src/manager_runtime.cpp:105-129 | The STRICT controller manager: refuses to start a running controller and to stop one that does not run, as a whole |
| `Manager.ManagerRuntime.SwitchFiltered` | ros_ws/src/soft_force_control_manager/src/manager_runtime.cpp:113-129 | Drops no-op entries by the listing, does nothing if none is left, refuses if the listing fails, and passes everything on without a listing hook |
| `Manager.ManagerRuntime.Tick` | ros_ws/src/soft_force_control_manager/src/manager_runtime.cpp:139-174 | The worker's locked section: update, stream loss, one goal, and the end of a calibration reported once |
| `Manager.ManagerRuntime.Teardown` | ros_ws/src/soft_force_control_manager/src/manager_runtime.cpp:187-191 | The worker's section after a finished calibration |
| `Manager.ManagerRuntime.Started` | ros_ws/src/soft_force_control_manager/src/manager_runtime.cpp:203-287 | The section after a successful switch: the mode is taken over exactly when the core accepts the start |
| `Manager.ManagerRuntime.Stopped` | ros_ws/src/soft_force_control_manager/src/manager_runtime.cpp:289-310 | The section after a stop |
| `Manager.ManagerRuntime.CalibrationRequested` | ros_ws/src/soft_force_control_manager/src/manager_runtime.cpp:342-368 | The first section of a calibration request |
| `Manager.ManagerRuntime.CalibrationStarted` | ros_ws/src/soft_force_control_manager/src/manager_runtime.cpp:342-368 | The section after the switch: the sequencer starts, or the request is taken back |
| `Manager.ManagerRuntime.CancelCalibration` | ros_ws/src/soft_force_control_manager/src/manager_runtime.cpp:370-373 | Fails an active sequencer as cancelled |
| `MotionLaws.Converges` | ros_ws/src/soft_force_control_core/src/orientation_motion_core.cpp:10-53 | With a robot that turns by the limited correction, constant dt > 0, positive gain, tolerance and limits, gain * dt <= 1 and enough timeout: from any pose the goal is CONVERGED after ceil(180 / delta) + max(1, ceil(hold / dt)) updates, delta = min(gain * tol * dt, vmax * dt, max_corr_rot) |
| `MotionLaws.AxisStep` | ros_ws/src/soft_force_control_core/src/orientation_motion_core.cpp:17-53 | Each wrapped axis error keeps its sign, never grows, and shrinks by delta outside the tolerance |
| `MotionLaws.LeavesRunning` | ros_ws/src/soft_force_control_core/src/orientation_motion_core.cpp:17-53 | On any sequence of poses a goal leaves RUNNING within floor(timeout / dt) + 1 updates |
| `MotionLaws.ConvergedIff` | ros_ws/src/soft_force_control_core/src/orientation_motion_core.cpp:17-53 | On any poses: CONVERGED exactly when, at some update within the timeout, all three wrapped axis errors had been below the tolerance in as many updates in a row as the hold time takes, and in at least one; TIMED OUT exactly when that never happened and the time is over |
| `PipelineLaws.TurnsWhileRunning` | ros_ws/src/soft_force_control_core/src/orientation_motion_core.cpp:17-53 | A goal turns the robot only while it keeps running, and then every axis the short way toward the goal at gain times the error, up to the speed |
| `MotionLaws.CycleTurns` | ros_ws/src/soft_robot_controllers/src/direct_correction_core.cpp:21-39 | While the goal keeps running, a cycle turns every axis by its limited correction |
| `MotionLaws.DirectPrecedence` | ros_ws/src/soft_robot_controllers/src/direct_correction_core.cpp:21-39 | A running goal has precedence and never translates; otherwise a stream command within its timeout is passed on, clamped; otherwise nothing moves and the stream is stale; always within the limits |
| `Motion.WrapMeans` | ros_ws/src/soft_force_control_core/include/soft_force_control_core/rotation.h:11-15 | The wrapped angle lies in [-180, 180) and differs from the angle by whole turns |
| `Motion.WrapIs` | ros_ws/src/soft_force_control_core/include/soft_force_control_core/rotation.h:11-15 | ... and is the only angle that does |
| `Motion.OrientationMotionCore.SetGoal` | ros_ws/src/soft_force_control_core/src/orientation_motion_core.cpp:10-15 | A goal starts RUNNING with both clocks at zero |
| `Motion.OrientationMotionCore.Cancel` | ros_ws/src/soft_force_control_core/include/soft_force_control_core/orientation_motion_core.h:23 | A cancelled goal is INACTIVE |
| `Motion.OrientationMotionCore.Update` | ros_ws/src/soft_force_control_core/src/orientation_motion_core.cpp:17-53 | Timeout first, then the hold time inside the tolerance, else the clamped proportional turn |
| `Motion.DirectCorrectionCore.Update` | ros_ws/src/soft_robot_controllers/src/direct_correction_core.cpp:21-39 | Goal, else fresh stream, else nothing, then the limiter |
| `Motion.DirectCorrectionCore.StartGoal` | ros_ws/src/soft_robot_controllers/src/direct_correction_core.cpp:12-15 | Starts a goal and leaves the stream alone |
| `Motion.DirectCorrectionCore.Reset` | ros_ws/src/soft_robot_controllers/src/direct_correction_core.cpp:7-10 | Forgets the stream and cancels the goal |
| `ComplianceLaws.NothingOutWithinDeadband` | ros_ws/src/soft_robot_controllers/src/force_compliance_core.cpp:25-125 | After activation with the adaptive deadband and no motion goal, for non-negative limits and periods, the correction is exactly zero in every cycle for as long as no compensated force or torque norm exceeds the loudest one of the ramp plus its margin |
| `ComplianceLaws.RampLearns` | ros_ws/src/soft_force_control_core/src/adaptive_deadband.cpp:7-28 | In every run the deadbands after the ramp are the loudest norms during it plus the margins; until then no cycle complies |
| `ComplianceLaws.EveryOutputIsSafe` | ros_ws/src/soft_robot_controllers/src/force_compliance_core.cpp:45-125 | In every run compliance plus embedded motion stays within the per-cycle limits; above a ceiling, during the ramp and without a current wrench nothing is put out; the cutoff is reported exactly above a ceiling |
| `ComplianceLaws.TareNeedsLeaving` | ros_ws/src/soft_robot_controllers/src/force_compliance_core.cpp:77-94 | In every run the residual is absorbed at most once per return: only after a cycle away from the reference orientation, with no other absorption in between |
| `ComplianceLaws.TareStep` | ros_ws/src/soft_robot_controllers/src/force_compliance_core.cpp:77-94 | Absorbing disarms and leaves a compensated wrench of exactly zero in that cycle |
| `PipelineLaws.TaresIff` | ros_ws/src/soft_robot_controllers/src/force_compliance_core.cpp:77-94 | A cycle tares exactly when it is enabled, the ramp is over, the tool has been away or is, it is within the tolerance of the reference, and what is felt is below both deadbands |
| `PipelineLaws.TareLasts` | ros_ws/src/soft_robot_controllers/src/force_compliance_core.cpp:77-94 | After a tare the same filtered wrench at the same pose is felt as nothing in later cycles too |
| `PipelineLaws.StopsIff` | ros_ws/src/soft_robot_controllers/src/force_compliance_core.cpp:45-75 | A cycle times out exactly without a current wrench, and is cut off exactly when a norm of the compensated wrench exceeds its ceiling; either way nothing is put out, and the law starts again from rest |
| `PipelineLaws.RestartsSlowly` | ros_ws/src/soft_force_control_core/src/compliance_law.cpp:16-39 | From rest no axis moves faster than its acceleration limit times the period |
| `PipelineLaws.LimiterMeans` | ros_ws/src/soft_force_control_core/src/safety_limiter.cpp:8-30 | Above a ceiling nothing; otherwise every component is the nearest within its limit, and a change is reported |
| `PipelineLaws.GoalIsAdded` | ros_ws/src/soft_robot_controllers/src/force_compliance_core.cpp:96-125 | An output that is neither cut off nor saturated is the law's correction in the base frame plus the turn of the embedded motion goal, which goes on by one update |
| `PipelineLaws.StartForgets` | ros_ws/src/soft_robot_controllers/src/force_compliance_core.cpp:7-43 | Configured and activated, the controller is the same whatever it did before, but for the values of a cancelled goal; it ramps exactly with the adaptive deadband |
| `PipelineLaws.ConfigureForgets` | ros_ws/src/soft_robot_controllers/src/force_compliance_core.cpp:7-19 | A change of profile forgets everything but the frame, the reference, and the values of a goal that it cancels |
| `PipelineLaws.ActivationStartsAgain` | ros_ws/src/soft_robot_controllers/src/force_compliance_core.cpp:25-43 | After an activation the next sample initializes the filter, the law is at rest, no tare is armed, and no goal runs |
| `ComplianceLaws.AxesWithin` | ros_ws/src/soft_force_control_core/src/frame_resolver.cpp:17-30 | A rotation keeps the norm, so no axis of the turned vector leaves a deadband that holds the norm |
| `ComplianceLaws.AxisKeepsLimits` | ros_ws/src/soft_force_control_core/src/compliance_law.cpp:16-26 | An axis keeps its speed cap and changes by at most the acceleration limit times dt |
| `YieldLaws.YieldsToWrench` | ros_ws/src/soft_robot_controllers/src/force_compliance_core.cpp:96-125 | For every acceleration limit: if the limit can take back what every axis did against its force before, an unsaturated output without a running goal shifts along the force and turns along the torque seen from the base; saturated or not, its shift and its turn each do so where the speed cap fits the per-cycle limit, and where both fit nothing saturates |
| `YieldLaws.SteadyRunYields` | ros_ws/src/soft_robot_controllers/src/force_compliance_core.cpp:45-125 | In every run of the pipeline without a goal: once each axis of the wrench in the tool frame has kept its sign for as long as the acceleration limits need to take back the speed caps, every unsaturated output yields to the wrench, and where the speed caps fit the per-cycle limits every output does |
| `OpposingRuns.SaturatedOutputCanOppose` | ros_ws/src/soft_force_control_core/src/safety_limiter.cpp:8-30 | For every sound library and a pose with the sines -9/41 and 9/41: an output that the limiter, clamping each base axis for itself, turns against the force |
| `OpposingRuns.RateLimitedOutputCanOppose` | ros_ws/src/soft_robot_controllers/config/soft_robot_controllers.yaml:39-54 | The shipped drag profile, from activation at any pose and with any tool: after a quiet ramp, two cycles of a push and one of a stronger pull, the output is neither saturated nor cut off, and its shift works against the force |
| `OpposingRuns.ShippedFits` | ros_ws/src/soft_robot_controllers/config/soft_robot_controllers.yaml:22-67 | At a period of 4 ms the shipped speed caps fit the shipped limits for every shift, and in the precision profile for every turn; the drag profile's turns do not fit |
| `YieldLaws.NeverClampsIff` | ros_ws/src/soft_force_control_core/src/safety_limiter.cpp:8-30 | No pose and no velocities within a cap make the limiter clamp an axis, exactly when 3 * (cap * dt)^2 is at most the square of the limit |
| `YieldLaws.VelocitiesYieldIff` | ros_ws/src/soft_force_control_core/src/compliance_law.cpp:16-39 | No axis moves against its force after a cycle, exactly when the acceleration limit can take back what each did before it |
| `AdmittanceLaws.AxisOpposesIff` | ros_ws/src/soft_force_control_core/src/compliance_law.cpp:9-26 | An axis moves against its force exactly when there is an acceleration limit and its last velocity did so by more than the limit times dt |
| `AdmittanceLaws.OppositionEnds` | ros_ws/src/soft_force_control_core/src/compliance_law.cpp:16-26 | Under a force of constant sign, for any periods, an axis stops moving against it after max_speed / max_accel seconds |
| `AdmittanceLaws.OppositionEndsAfter` | ros_ws/src/soft_force_control_core/src/compliance_law.cpp:16-26 | With a constant period: after ceil(max_speed / (max_accel * dt)) cycles |
| `AdmittanceLaws.TargetMeans` | ros_ws/src/soft_force_control_core/src/compliance_law.cpp:9-26 | The speed a force calls for: gain and scale times what exceeds the deadband, on its side, up to the cap |
| `AdmittanceLaws.AxisSettles` | ros_ws/src/soft_force_control_core/src/compliance_law.cpp:16-26 | Under a constant force an axis is at its target velocity after the time that the acceleration limit needs for the difference |
| `YieldLaws.YieldsInProportion` | ros_ws/src/soft_force_control_core/src/compliance_law.cpp:9-39 | Where no cap or limit is active, the correction in base coordinates is gain, scale and period times what the tool-frame wrench exceeds its deadbands by, turned to the base |
| `AdmittanceLaws.FilterMovesToward` | ros_ws/src/soft_force_control_core/src/force_torque_filter.cpp:5-21 | A running filter moves every axis from its state toward the input and never past it |
| `Compliance.AdaptiveDeadband.Start` | ros_ws/src/soft_force_control_core/src/adaptive_deadband.cpp:7-15 | A ramp starts with no maxima; the deadbands of the last one stay |
| `Compliance.AdaptiveDeadband.Update` | ros_ws/src/soft_force_control_core/src/adaptive_deadband.cpp:17-28 | Keeps the maxima; the cycle that ends the window sets the deadbands |
| `Compliance.ComplianceLaw.Axis` | ros_ws/src/soft_force_control_core/src/compliance_law.cpp:9-26 | Deadzone, gain, speed cap, acceleration limit of one axis |
| `Compliance.ComplianceLaw.Compute` | ros_ws/src/soft_force_control_core/src/compliance_law.cpp:28-39 | fx, fy, fz drive x, y, z and tz, ty, tx drive a, b, c, each with its own memory |
| `Compliance.ComplianceLaw.Reset` | ros_ws/src/soft_force_control_core/src/compliance_law.cpp:41-43 | Forgets every velocity |
| `Compliance.ForceTorqueFilter.Apply` | ros_ws/src/soft_force_control_core/src/force_torque_filter.cpp:5-21 | First-order low-pass; the first sample initializes it; a cutoff of at most 0 passes through |
| `Compliance.ForceTorqueFilter.Reset` | ros_ws/src/soft_force_control_core/include/soft_force_control_core/force_torque_filter.h:12 | The next sample initializes the filter again |
| `Compliance.ForceComplianceCore.Configure` | ros_ws/src/soft_robot_controllers/src/force_compliance_core.cpp:7-19 | A profile switch rebuilds the filter and the ramp and loads payload and fixed deadbands |
| `Compliance.ForceComplianceCore.Activate` | ros_ws/src/soft_robot_controllers/src/force_compliance_core.cpp:25-43 | Locks the frame, resets filter and law, disarms, records the reference, and starts the ramp if the profile uses it |
| `Compliance.ForceComplianceCore.Learn` | ros_ws/src/soft_robot_controllers/src/force_compliance_core.cpp:62-75 | One ramp cycle: learn, take over the deadbands when the ramp ends, put out nothing, keep the cutoff armed |
| `Compliance.ForceComplianceCore.Tare` | ros_ws/src/soft_force_control_core/src/auto_retare.cpp:13-22 | Arms away from the reference; absorbs the residual back at it, when it is inside the deadbands |
| `Compliance.ForceComplianceCore.Comply` | ros_ws/src/soft_robot_controllers/src/force_compliance_core.cpp:96-125 | Admittance in the tool frame, back to base, plus motion, then the limiter; a cutoff resets the law |
| `Compliance.ForceComplianceCore.Update` | ros_ws/src/soft_robot_controllers/src/force_compliance_core.cpp:45-125 | One cycle of the whole pipeline, stage by stage |
| `Geometry.KukaIsRotation` | ros_ws/src/soft_force_control_core/include/soft_force_control_core/rotation.h:18-24 | For all angles the A/B/C matrix and its transpose preserve lengths (which turns it makes: `AbcTurns`) |
| `FrameLaws.AbcTurns` | ros_ws/src/soft_force_control_core/include/soft_force_control_core/rotation.h:18-24 | The A/B/C matrix turns every vector about x by C, then about the fixed y by B, then about the fixed z by A, in components |
| `FrameLaws.AbcTurnsBack` | ros_ws/src/soft_force_control_core/include/soft_force_control_core/rotation.h:18-24 | ... and its transpose turns back, in the opposite order |
| `FrameLaws.AbcEntries` | ros_ws/src/soft_force_control_core/include/soft_force_control_core/rotation.h:18-24 | The nine entries in sines and cosines of the angles |
| `FrameLaws.DistanceOfTurn` | ros_ws/src/soft_force_control_core/include/soft_force_control_core/rotation.h:27-33 | Two orientations that differ in A only are as far apart as their A angles, whatever the tilt |
| `AdmittanceLaws.DistanceIsSymmetric` | ros_ws/src/soft_force_control_core/include/soft_force_control_core/rotation.h:27-33 | The angular distance does not depend on which orientation is the reference |
| `Geometry.TcpFromSensorIsRotation` | ros_ws/src/soft_force_control_core/src/frame_resolver.cpp:7-15 | ... and so does the sensor-to-tool matrix of every tool and mount |
| `FrameLaws.TcpFromSensorTurns` | ros_ws/src/soft_force_control_core/src/frame_resolver.cpp:7-15 | From the sensor to the tool: turned by the mount's angles, then back by the tool's |
| `FrameLaws.SensorFromTcpTurns` | ros_ws/src/soft_force_control_core/src/frame_resolver.cpp:7-15 | ... and the other way by the transpose |
| `Geometry.ComponentBound` | ros_ws/src/soft_force_control_core/src/frame_resolver.cpp:17-30 | No component of a vector exceeds its norm |
| `AdmittanceLaws.RotationKeepsDot` | ros_ws/src/soft_force_control_core/src/frame_resolver.cpp:17-45 | A rotation keeps the inner product |
| `AdmittanceLaws.ThirdRowIgnoresA` | ros_ws/src/soft_force_control_core/include/soft_force_control_core/rotation.h:18-24 | A turn about the base's vertical, the A angle, leaves the third row of the A/B/C matrix alone |
| `Geometry.FrameResolver.Configure` | ros_ws/src/soft_force_control_core/src/frame_resolver.cpp:7-15 | The sensor-to-tool matrix of tool and mount |
| `PayloadModel.ForceLeftIsResidual` | ros_ws/src/soft_force_control_core/src/payload_estimator.cpp:30-39 | At every orientation and for every parameter vector, compensation leaves exactly the force residual of the fit |
| `PayloadModel.TorqueLeftIsResidual` | ros_ws/src/soft_force_control_core/src/payload_estimator.cpp:44-57 | ... and the torque residual plus the moment of the force residual about the centre of mass |
| `PayloadModel.AnglesLeaveResiduals` | ros_ws/src/soft_force_control_core/src/tool_gravity_compensator.cpp:26-29 | The same for the overload that takes the robot's angles, on a sample at these angles |
| `PayloadModel.ExactFitIff` | ros_ws/src/soft_force_control_core/src/tool_gravity_compensator.cpp:9-29 | Both residuals of a sample vanish exactly when compensation gives zero |
| `PayloadModel.AbsorbedIsZero` | ros_ws/src/soft_force_control_core/src/tool_gravity_compensator.cpp:31-38 | A wrench recompensated after absorbing its own residual is zero |
| `FrameLaws.StillToolIsWeightless` | ros_ws/src/soft_force_control_core/src/tool_gravity_compensator.cpp:9-29 | At every A/B/C a still tool whose raw wrench is bias, weight seen from these angles, and the weight's moment, written out, compensates to zero |
| `FrameLaws.StillToolIsLeftAlone` | ros_ws/src/soft_robot_controllers/src/force_compliance_core.cpp:45-125 | The whole cycle, for every payload, angles, tool and mount: the weight of a still tool compensates to zero, nothing is put out, and the controller stays at rest |
| `AdmittanceLaws.VerticalTurnKeepsCompensation` | ros_ws/src/soft_force_control_core/src/tool_gravity_compensator.cpp:9-29 | Compensation at one inclination is the same for every A angle |
| `PayloadModel.ForceSystem` | ros_ws/src/soft_force_control_core/src/payload_estimator.cpp:25-39 | The matrix and right-hand side of the force fit, built block by block |
| `PayloadModel.TorqueSystem` | ros_ws/src/soft_force_control_core/src/payload_estimator.cpp:44-57 | The matrix and right-hand side of the torque fit, with the force bias of the first fit |
| `PayloadModel.ToolGravityCompensator.AbsorbResidual` | ros_ws/src/soft_force_control_core/src/tool_gravity_compensator.cpp:31-38 | Adds the residual to the bias |
| `PayloadModel.ToolGravityCompensator.SetParams` | ros_ws/src/soft_force_control_core/include/soft_force_control_core/tool_gravity_compensator.h:22 | Replaces payload and bias |
| `PayloadModel.ToolGravityCompensator.Compensate` | ros_ws/src/soft_force_control_core/src/tool_gravity_compensator.cpp:9-24 | Bias, weight and the weight's moment are subtracted |

## Left out

- Sockets, poll loops, real threads and clocks: they are nondeterministic steps and parameters here.
- XML parsing and printing: messages are values; only the four decimals of the wire are modelled, as rounding half to even. A frame that does not fit its send buffer is not modelled.
- The width of IPOC, watchdog and command sequence numbers: they are unbounded naturals, so wrap-around after 2^32 or 2^64 steps is not modelled. The 16-bit package number of the sensor is.
- Floating-point rounding: control mathematics is over reals; the four bytes of a sensor float stay opaque and `toWrench` is a parameter. Axis values on the RSI wire may be non-finite.
- The QR decomposition, R-squared values and pose count of the payload estimator: the model holds its linear systems, and the sequencer takes the solver as a parameter.
- AdmittanceLaws.OppositionEnds: the time is the longest that an axis can take; a run in which it takes that long is not built.
- More than one lifetime of the EKI io thread (`start` and `stop`): at-most-once sending holds within one.
- Status snapshots, diagnostics, the time stamps behind freshness and the stamp and package number published beside a sensor wrench, `setFilterCutoff`, tool synchronisation, `zeroSensor`, mode publishing and result messages: easy members around the modelled state.
- Joint angles, the degree conversion of joint feedback and the controller plugins: wiring.
- ROS nodes, launch files, the web interface, the simulation, the KRL program: outside the cores.
- `Splitter.ScanOnce`, `SriFrameAssembler.OnByte`, `SriFrameAssembler.OnPayload`, `SriStreamSession.OnSample`, `ForceComplianceCore.Learn`, `Tare`, `Comply`: loop bodies and stages of one source function, as methods of their own.
- `AutoReTare` keeps a second copy of the reference orientation; the model keeps one.
- MotionLaws.Converges: the robot turns by exactly the limited correction in each cycle; the lemma about the timeout assumes nothing about the robot.
