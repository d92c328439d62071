# Verification of the C4G bridge, PATH simulator and teleport handover

A Dafny model of the parts of the robot software in which several programs must agree, with proofs of
what they agree on. `dafny verify dfyconfig.toml` checks all of it.

The repository moves robot PATHs from a planner to a Comau C4G controller. A Python bridge validates a
goal and prints it as text commands; each command goes through an echo/start/result handshake with a
PDL2 program, which parses it and fills a native PATH that it later runs, stopping at wait nodes until a
continue signal arrives. A C++ simulator validates the same goals with its own code and runs them in
batches cut at the waits. An offline editor records planned motions as blocks, merges and edits them, and
a server runs the resulting sequences. Beside these stand the trajectory post-processing, the pose
composition of the planning scene, and two state machines that teleport the simulated robot onto the
real one.

## How the model is built

Routines that update variables in place are methods, with the loops of the source, of classes whose
fields are the source's variables. Each method's contract equates the new fields with a function of the
old ones. The theorems are about those functions, so that they can speak of whole uploads and of every
run of several parties, and through the contracts they hold of the methods. Code that only computes is
written as functions. Protocols between threads or programs are state machines whose steps are the
atomic sections of the code; a run is any sequence of enabled steps, with replies, failures, times and
messages chosen freely. The controller's service of one command, the executors of the simulator and of
the sequence server, the reset service and the sync node are also written out as methods that let
interruptions and other threads act between their steps; ghost state records where they are in a run, so
that the theorems about runs give their results to the caller.

| topic | files |
|---|---|
| numbers and commands as text | `decimal_text`, `pdl_strings`, `pdl_text`, `round_trip` |
| goals, validation, upload commands | `path_messages`, `path_actions`, `path_protocol` |
| the controller's PATH routines | `movements_state` (functions and invariant), `movements_program` (as they run), `movements_execution` (serving a command) |
| the upload end to end | `upload`, `upload_limits` |
| whole runs of the controller and of its moves | `controller`, `execution` |
| whole runs of bridge and controller: lockstep, upload, result | `handshake`, `upload_scripts`, `delivery`, `upload_loop`, `path_callback` |
| the simulator's PATH model and runs | `cutting`, `path_model`, `path_sequence_builder`, `simulator` |
| offline blocks, editor, preview | `path_blocks`, `offline_sequence`, `offline_sequence_manager`, `offline_preview`, `offline_preview_session` |
| the sequence server | `sequence_server` |
| trajectories | `wrist_turns`, `speed_limits`, `trajectory_scaling`, `trajectory_paths`, `fly_paths`, `blend_radii` |
| poses | `pose_chains` |
| reset and teleport | `joint_reset`, `gazebo_sync`, `gazebo_session` |
| shared | `wrappers`, `folding`, `rounding`, `reals`, `joint_names`, `coupled_joints` |

The main results are the upload theorem (`Upload.UploadIsExact`, carried through the bridge's loop and the
handshake by `UploadLoop.LoopDelivers` and to the end of the move by `PathCallback.GoalIsCarriedOut`), safety of
the receiver under arbitrary clients (`Controller.ReadyIsComplete`, `Controller.ExecutionNeedsNewUpload`),
lockstep of the handshake (`Handshake.LockstepHolds`), agreement of the two validators and of the two
backends (`PathModel.ValidatePathGoal`, `Execution.BackendsAgree`), which batches can be planned
(`PathSequenceBuilder.BuildBatch`, `PathSequenceBuilder.ReverseCheck`), the editor's invariants
(`OfflineSequence.BlocksStaySound`, `OfflineSequence.ExportsLoseNoWait`) and what its preview shows
(`OfflinePreview.PreviewStays`), ordered sequences without leaking signals
(`SequenceServer.WaitsNeedGrants`, `SequenceServer.PathSequenceServer.ExecuteCallback`), the simulator's
executor (`Simulator.PathServer.ExecutePathGoal`), optimal wrist turns (`WristTurns.PreserveAbsoluteTurns`),
minimal time scaling (`TrajectoryScaling.Trajectory.ApplySpeedLimits`), rigid pose chains
(`PoseChains.ChainIsRigid`), and the two handover protocols (`JointReset.JointResetSystem.HandleResetRequest`,
`GazeboSync.LiveIsHandedOver`, `GazeboSync.ErrorLeavesPaused`).

## Where the code does less than its parts suggest

Each of these is a theorem with its exact condition, some with a concrete instance beside it.

- The bridge accepts JOINT goals with frames and overrides that print as zero; the controller refuses
  both. A valid goal is uploadable exactly without them (`Upload.UploadIsExact`,
  `UploadLimits.JointFramesAreRefused`, `UploadLimits.TinyOverridesAreRefused`).
- A number is read back exactly if its text fits 25 characters (`RoundTrip.TokenRoundTrip`).
- An abort that arrives after the abort flag's reset and before the command is called makes an executePath
  unavailable instead of aborting its move (`Controller.AbortBeforeCall`).
- Both validators accept JOINT targets that the simulator's planner refuses; a batch is planned exactly if
  joints 3 and 7 keep their limits at every destination (`PathSequenceBuilder.BuildBatch`).
- The simulator's reverse check looks only at batches of two or more nodes: it lets an arc at the end of the
  range through exactly if a wait precedes it (`PathSequenceBuilder.ReverseCheck`,
  `PathSequenceBuilder.ReverseCheckMissesLoneArcs`).
- The controller waits at a wait on the last node of a range, the simulator does not
  (`Execution.BackendsAgree`); exported sequences contain no such wait (`OfflineSequence.ExportsLoseNoWait`).
- A preview shows what was requested exactly if no changing draft was merged into its blocks before it
  starts; it always does if recording is not started again (`OfflinePreview.PreviewStays`,
  `OfflinePreview.NotRecordingKeepsPreview`, `OfflineSequenceManagers.PreviewSeesLaterEdits`).
- Generated path ids are distinct exactly up to 1000 blocks (`SequenceServer.GeneratedIdsDiffer`).
- The wrist search refuses a start far outside the limits although an equivalent exists
  (`WristTurns.RefusalsAreHonest`).
- In Cartesian FLY mode the blend radius ignores the route: blends stay apart on every route exactly if the
  configured distance is zero, in PATH batches if every Cartesian node's own is
  (`BlendRadii.CartesianBlendsOverlap`, `BlendRadii.MixedBlends`).
- A controller deactivation that times out but takes effect is not undone (`JointReset.ControllersAfter`), and
  a switch that was given up on may take effect during a later request; only then can a success leave other
  controllers active (`JointReset.SuccessIsVerified`, `JointReset.SwitchesAreUndisturbed`).
- A failed handover leaves the passive solver paused exactly if its service was not ready or refused to
  resume, and the node's record can then say the opposite (`GazeboSync.ErrorLeavesPaused`,
  `GazeboSync.RecordAfterFailure`, `GazeboSync.FailedResetLeavesPaused`).

## Model

| member | source | states |
|---|---|---|
| `RoundTrip.NumberRoundTrip` | src/arm_tcp_bridge/arm_tcp_bridge/path_protocol.py:26-29 | for every real, the controller's parse of the printed number is that number to six decimals; a value that rounds to minus zero comes back as zero |
| `RoundTrip.NumberCharacters` | src/arm_tcp_bridge/arm_tcp_bridge/path_protocol.py:26-29 | a printed number is never empty and contains neither the comma nor the colon that delimit commands |
| `RoundTrip.NumberIsCanonical` | src/arm_tcp_bridge/arm_tcp_bridge/path_protocol.py:26-29 | two values have the same text exactly if they agree to six decimals |
| `DecimalText.RoundingIsMonotone` | src/arm_tcp_bridge/arm_tcp_bridge/path_protocol.py:26-29 | printing keeps the order of values, so a range the validator checked still holds for what the controller reads |
| `DecimalText.RoundingIsClose` | src/arm_tcp_bridge/arm_tcp_bridge/path_protocol.py:26-29 | printing moves a value by at most half a millionth |
| `DecimalText.MicroOfInt` | src/arm_tcp_bridge/arm_tcp_bridge/path_protocol.py:26-29 | ids, indexes and flags are printed without any loss |
| `PdlText.Str2Real` | C4G_PDL2/ROS2_MOVEMENTS_1.txt:177-250 | the character loop returns the value of the text it has scanned, or 0 with the parse flag down; the meaning of that value is ScanMeaning's |
| `PdlText.ScanMeaning` | C4G_PDL2/ROS2_MOVEMENTS_1.txt:212-237 | the scanner accepts exactly digit strings with at most one dot, and what it has accumulated is the integer of the digits divided by the power of ten of the places after the dot |
| `PdlText.ReadTokens` | C4G_PDL2/ROS2_MOVEMENTS_1.txt:287-331 | the comma loop yields all values, -1 for an empty or unreadable token, -2 for text left after 64 values |
| `PdlText.GetParameter` | C4G_PDL2/ROS2_MOVEMENTS_1.txt:268-332 | the same for a whole command; no colon or nothing after it is zero parameters |
| `RoundTrip.LongTokenIsMisread` | C4G_PDL2/ROS2_MOVEMENTS_1.txt:272 | a number longer than the 25-character token is cut to a text that still parses, always to another number |
| `RoundTrip.TokenRoundTrip` | C4G_PDL2/ROS2_MOVEMENTS_1.txt:294-320 | a token gives back the printed value if and only if its text fits 25 characters |
| `RoundTrip.ModerateValuesFit` | src/arm_tcp_bridge/arm_tcp_bridge/path_protocol.py:26-29 | every value of magnitude below 10^17 fits the token |
| `RoundTrip.JoinRoundTrip` | src/arm_tcp_bridge/arm_tcp_bridge/path_protocol.py:32-35 | reading a printed value list with any number of free slots gives each value to six decimals, or too-many when the slots run out |
| `RoundTrip.CommandRoundTrip` | src/arm_tcp_bridge/arm_tcp_bridge/path_protocol.py:32-35 | the controller recovers the name, the count and every value of a printed command; past 64 values it reports too many parameters |
| `RoundTrip.JoinLength` | src/arm_tcp_bridge/arm_tcp_bridge/path_protocol.py:32-35 | n fitting values print to less than 26n characters |
| `PathActions.NamesAreDistinct` | C4G_PDL2/ROS2_MOVEMENTS_1.txt:1588-1749 | the eleven PATH command names are pairwise distinct, fit the action variable, hold no colon and are not among the commands dispatched before parsing |
| `PathProtocol.CollectFrames` | src/arm_tcp_bridge/arm_tcp_bridge/path_protocol.py:83-94 | the frame loop accepts exactly tables with indexes 1..7, all different, and six-number poses, and collects precisely their indexes |
| `PathProtocol.CollectSlots` | src/arm_tcp_bridge/arm_tcp_bridge/path_protocol.py:96-105 | likewise for condition slots 1..32 with positive handlers |
| `PathProtocol.CheckMask` | src/arm_tcp_bridge/arm_tcp_bridge/path_protocol.py:190-203 | the bit loop accepts a signed 32-bit mask exactly if every set bit has a defined slot |
| `PathProtocol.CheckNode` | src/arm_tcp_bridge/arm_tcp_bridge/path_protocol.py:110-207 | the per-node checks accept exactly the valid nodes: ranges, defined frames and masks, JOINT restrictions |
| `PathProtocol.CheckNodes` | src/arm_tcp_bridge/arm_tcp_bridge/path_protocol.py:107-211 | the loop with its one remembered motion type accepts exactly the lists in which vias and arcs come in adjacent pairs |
| `PathProtocol.ValidatePathGoal` | src/arm_tcp_bridge/arm_tcp_bridge/path_protocol.py:56-229 | validation succeeds if and only if the goal is valid, and then only makes the execution range explicit |
| `PathProtocol.HeaderTexts` | src/arm_tcp_bridge/arm_tcp_bridge/path_protocol.py:232-264 | the announcement, frames and conditions, in order |
| `PathProtocol.BuildUploadCommands` | src/arm_tcp_bridge/arm_tcp_bridge/path_protocol.py:232-326 | the appended command texts are the upload in protocol order: announcement, frames, conditions, five commands per node, commit |
| `PathProtocol.BeginsOnce` | src/arm_tcp_bridge/arm_tcp_bridge/path_protocol.py:232-326 | an upload opens with its one announcement, and no later command announces, aborts or executes |
| `MovementsState.BeginKeeps` | C4G_PDL2/ROS2_MOVEMENTS_1.txt:1121-1155 | the receiver invariant survives any announcement, well- or ill-formed |
| `MovementsState.TablesKeep` | C4G_PDL2/ROS2_MOVEMENTS_1.txt:1158-1203 | it survives any frame or condition command |
| `MovementsState.TargetKeeps` | C4G_PDL2/ROS2_MOVEMENTS_1.txt:1206-1276 | it survives any target command, including an unknown motion type, which leaves a stray appended node behind |
| `MovementsState.MotionKeeps` | C4G_PDL2/ROS2_MOVEMENTS_1.txt:1279-1344 | it survives any motion command |
| `MovementsState.BlendKeeps` | C4G_PDL2/ROS2_MOVEMENTS_1.txt:1347-1397 | it survives any blend command |
| `MovementsState.SyncKeeps` | C4G_PDL2/ROS2_MOVEMENTS_1.txt:1400-1430 | it survives any sync command |
| `MovementsState.CommitsKeep` | C4G_PDL2/ROS2_MOVEMENTS_1.txt:1433-1497 | it survives any node commit, path commit or upload abort: READY is only reached with exactly the announced nodes, all complete |
| `MovementsState.MoveKeeps` | C4G_PDL2/ROS2_MOVEMENTS_1.txt:134-164 | it survives abort requests, their reset, and the start and end of a move |
| `MovementsState.WaitKeeps` | C4G_PDL2/ROS2_MOVEMENTS_1.txt:1500-1576 | it survives continue signals, wait reports and event reports |
| `MovementsState.DispatchKeeps` | C4G_PDL2/ROS2_MOVEMENTS_1.txt:1588-1749 | it survives every dispatched PATH command with any parameters |
| `MovementsState.CallServiceKeeps` | C4G_PDL2/ROS2_MOVEMENTS_1.txt:1588-1749 | no command text whatever breaks the receiver invariant |
| `MovementsProgram.Program.ClearNativePaths` | C4G_PDL2/ROS2_MOVEMENTS_1.txt:1066-1085 | the two loops empty both node lists and all 32 condition slots of both paths and leave the frame table alone |
| `MovementsProgram.Program.CallServiceRoutine` | C4G_PDL2/ROS2_MOVEMENTS_1.txt:1588-1749 | a command is parsed and dispatched; a parse error changes nothing, and the invariant holds afterwards |
| `Upload.FeedIsPerform` | src/arm_tcp_bridge/arm_tcp_bridge/path_protocol.py:232-326 | feeding printed commands to the controller is performing the commands on their rounded values: printing and parsing in between changes nothing |
| `Upload.NodePerforms` | src/arm_tcp_bridge/arm_tcp_bridge/path_protocol.py:266-318 | the five commands of a node succeed exactly if its printed override is positive, and then commit exactly that node |
| `Upload.UploadPerforms` | C4G_PDL2/ROS2_MOVEMENTS_1.txt:1121-1475 | from every state the invariant allows, a resolved path is accepted in full if and only if a JOINT path has no frames and no override prints as zero; the controller then holds it |
| `Upload.UploadIsExact` | src/arm_tcp_bridge/arm_tcp_bridge/path_protocol.py:232-326 | end to end over texts: for every valid goal whose numbers fit the tokens, all upload commands return RESULT_OK if and only if the goal is uploadable, and the controller ends READY holding precisely that goal |
| `Upload.ReadyNodesResolve` | C4G_PDL2/ROS2_MOVEMENTS_1.txt:1450-1475 | in a controller holding a goal, native node i is goal node i after rounding and percent defaults, every frame and tool index it uses holds a frame of this upload (the frame table is never cleared), and every condition bit selects one of this goal's handlers |
| `Upload.ExecuteStarts` | src/arm_tcp_bridge/arm_tcp_bridge/path_protocol.py:329-333 | a controller holding the goal and not aborted passes the guards of execute_path and starts the move |
| `Upload.CommandsAreShort` | src/arm_tcp_bridge/arm_tcp_bridge/path_protocol.py:232-326 | no upload command is longer than 248 characters, below the 254 the link carries |
| `UploadLimits.ModerateGoalsFit` | src/arm_tcp_bridge/arm_tcp_bridge/path_protocol.py:56-229 | every valid goal with fields below 10^17 in magnitude meets the token condition of the upload theorem |
| `UploadLimits.JointFramesAreRefused` | C4G_PDL2/ROS2_MOVEMENTS_1.txt:1166-1168 | a JOINT goal with a frame passes validation and is refused by every controller |
| `UploadLimits.TinyOverridesAreRefused` | C4G_PDL2/ROS2_MOVEMENTS_1.txt:1288-1290 | so is a goal whose override is positive but prints as zero |
| `Controller.NextIsSafe` | C4G_PDL2/PDL2_ROS2_main_1.txt:306-345 | the flag's reset, the call of a command, node visits, aborts, continue signals and condition events in any order keep the run invariant that ties path state, current move and consumed signals together |
| `Controller.RunsAreSafe` | C4G_PDL2/PDL2_ROS2_main_1.txt:232-370 | every state of every run satisfies it |
| `Controller.ReadyIsComplete` | C4G_PDL2/ROS2_MOVEMENTS_1.txt:1450-1475 | in every reachable state a pending node implies an active upload, and READY implies native length, committed and announced counts equal with all four parts of every node set |
| `Controller.DispatchStates` | C4G_PDL2/ROS2_MOVEMENTS_1.txt:1588-1749 | which command may cause which change of path state |
| `Controller.ServedStates` | C4G_PDL2/ROS2_MOVEMENTS_1.txt:1588-1749 | the same for arbitrary command texts; any other text leaves the PATH variables alone |
| `Controller.StateChanges` | C4G_PDL2/ROS2_MOVEMENTS_1.txt:1121-1554 | UPLOADING is entered only by an announcement, READY only by a commit while uploading, a move only from READY |
| `Controller.UploadHistory` | C4G_PDL2/ROS2_MOVEMENTS_1.txt:1121-1475 | a state that is READY after one that was neither READY nor UPLOADING is separated from it by one uninterrupted upload from its announcement to its commit |
| `Controller.ExecutionNeedsNewUpload` | C4G_PDL2/ROS2_MOVEMENTS_1.txt:134-158 | after an abort request, an upload abort or a finished move, no move starts until a complete new upload |
| `Controller.WaitNeedsSignal` | C4G_PDL2/ROS2_MOVEMENTS_1.txt:1500-1519 | a suspended move goes on only by an accepted signal or an abort, and a signal is accepted exactly if it names the path and either no node or the one waited at |
| `Controller.WaitsAtItsNode` | C4G_PDL2/ROS2_MOVEMENTS_1.txt:1557-1576 | in every run a suspended move waits at the wait node it visited last, and the current node is that one, through all condition events |
| `Controller.AbortBeforeCall` | C4G_PDL2/PDL2_ROS2_main_1.txt:308-310 | an abort between the flag's reset and the call of the command wins: no move starts, and an executePath is answered unavailable or not parsed |
| `Controller.SignalsAreNotQueued` | C4G_PDL2/ROS2_MOVEMENTS_1.txt:1500-1519 | a signal that arrives while nothing waits leaves no trace |
| `Controller.DoneVisitedEverything` | C4G_PDL2/ROS2_MOVEMENTS_1.txt:1522-1554 | a move that ends in DONE visited its whole range in order and consumed exactly one signal per wait node |
| `MovementsExecution.MovementService.ServeCommand` | C4G_PDL2/PDL2_ROS2_main_1.txt:306-345 | with aborts, signals and condition events arriving between its steps: any command is called on the variables with the abort flag cleared or on aborted ones, and a move it begins ends in DONE exactly after its whole range with one accepted signal per wait node, in ABORTED after an abort, or is suspended at the wait node it visited last |
| `MovementsExecution.MovementService.ExecuteGoal` | C4G_PDL2/ROS2_MOVEMENTS_1.txt:1522-1554 | the executePath of a goal the program holds, so served: RESULT_OK means the goal's range was visited in order with one accepted signal per wait node of the goal, any other answer that an abort arrived, and no answer that a wait node of the goal still waits |
| `Handshake.NextIsGood` | src/arm_tcp_bridge/arm_tcp_bridge/action_server.py:691-737 | every step of bridge, controller loop, channels and motion keeps the two at matching points of one transaction |
| `Handshake.InitialIsGood` | C4G_PDL2/PDL2_ROS2_main_1.txt:228-230 | a fresh bridge and controller are in step, so runs start in a state the invariant covers |
| `Handshake.RunsAreGood` | C4G_PDL2/PDL2_ROS2_main_1.txt:232-370 | so it holds in every state of every run |
| `Handshake.LockstepHolds` | src/arm_tcp_bridge/arm_tcp_bridge/action_server.py:691-737 | the commands the controller has run are those the bridge started, in order, each once, at most the last outstanding; the results the bridge returned are the controller's for those commands |
| `Handshake.RunningIsStarted` | C4G_PDL2/PDL2_ROS2_main_1.txt:111-130 | a command is only run after its unchanged echo was answered with start |
| `Handshake.EchoDecides` | src/arm_tcp_bridge/arm_tcp_bridge/action_server.py:698-715 | the bridge answers start exactly if the command survived the controller's 254-character buffer; otherwise it closes and nothing runs |
| `UploadScripts.UnstoppedIsPlain` | C4G_PDL2/ROS2_MOVEMENTS_1.txt:1121-1475 | commands among which no abort comes after the first have the results, and up to the abort flag the variables, of running the commands alone, whatever flag resets and aborts came before |
| `UploadScripts.StoppedIsDropped` | C4G_PDL2/ROS2_MOVEMENTS_1.txt:134-164 | aborts after the last command drop the upload and the wait and leave everything else |
| `UploadScripts.InterruptedIsRefused` | C4G_PDL2/ROS2_MOVEMENTS_1.txt:134-164 | whenever a command is called after an abort that followed the announcement, some result of the upload is not Movement finished |
| `Delivery.BoundariesReplay` | src/arm_tcp_bridge/arm_tcp_bridge/action_server.py:549-578 | at every transaction boundary of a run without execution, the controller's PATH variables and the returned results are those of running the run's commands, flag resets and aborts one after another |
| `UploadScripts.ReplayIsFeed` | src/arm_tcp_bridge/arm_tcp_bridge/action_server.py:549-578 | run without aborts, all results are Movement finished exactly if feeding succeeds, with the same variables |
| `UploadScripts.CommitsAreCounted` | src/arm_tcp_bridge/arm_tcp_bridge/action_server.py:570-571 | once the announcement was finished, the controller's committed nodes are the finished commands that begin with the commit prefix, whatever was refused and whenever aborts arrived |
| `UploadScripts.PrefixIsAction` | src/arm_tcp_bridge/arm_tcp_bridge/action_server.py:570-571 | the text prefix test recognises exactly the node commits |
| `UploadScripts.UploadIsPlayed` | C4G_PDL2/ROS2_MOVEMENTS_1.txt:1121-1475 | the first n commands of a goal's upload with aborts anywhere: the commit count, and when all are finished; for the whole upload if and only if the goal is uploadable and no abort came between two commands |
| `Delivery.UploadIsDelivered` | src/arm_tcp_bridge/arm_tcp_bridge/action_server.py:549-578 | the same for every run of the handshake at a boundary after a prefix of an upload: the committed count is the finished commits, no command of an uploadable goal is refused without an abort in between, one is with it; after a whole finished upload the controller holds the goal, or is ABORTED if an abort came after the last command |
| `UploadLoop.LoopHolds` | src/arm_tcp_bridge/arm_tcp_bridge/action_server.py:549-578 | in every state of every run of the loop over the handshake, aborts included, the bridge's transactions are those of the commands before its index, in order, all finished, plus the one refused if the loop failed on it, and uploaded_nodes counts the finished commits |
| `UploadLoop.LoopDelivers` | src/arm_tcp_bridge/arm_tcp_bridge/action_server.py:549-578 | whatever aborts arrive: at every boundary after the first command uploaded_nodes is the controller's committed count; a loop that is over on an open connection has failed if and only if the goal is not uploadable or an abort came after the announcement was called and before a later command was; if it ended by itself the controller holds the goal, or is ABORTED if an abort came after the last command |
| `PathCallback.ResultTells` | src/arm_tcp_bridge/arm_tcp_bridge/action_server.py:596-626 | the executePath of a controller that holds the goal or was aborted: the bridge gets Movement finished if and only if no abort arrived before the controller was done, and then a move has visited the goal's range in order with one accepted signal per wait node |
| `PathCallback.GoalIsCarriedOut` | src/arm_tcp_bridge/arm_tcp_bridge/action_server.py:522-626 | execute_path_callback end to end over the handshake, once its upload loop has ended by itself: the final result is Movement finished if and only if no abort arrived between the call of the announcement and the end of the move; the move then visited the goal's range in order, as many nodes as executed_nodes reports, with one accepted signal per wait node |
| `Execution.ExecuteBeginsMove` | src/arm_tcp_bridge/arm_tcp_bridge/action_server.py:596-604 | called on a controller that holds the goal and was not aborted since the flag's reset, the bridge's executePath begins the move along it |
| `Execution.MoveKeepsItsPath` | C4G_PDL2/ROS2_MOVEMENTS_1.txt:1522-1554 | no event during a move changes the path, range or nodes it runs along |
| `Execution.GoalIsExecuted` | src/arm_tcp_bridge/arm_tcp_bridge/action_server.py:606-613 | a move started on an uploaded goal and ending in DONE visited the goal's execution range in order and used one accepted signal per wait node of the goal |
| `Execution.BackendsAgree` | src/robot_arm3_moveit_control/src/moveit_command_server.cpp:628-735 | controller and simulator visit the same nodes for the same goal, and take the same number of signals except one more on the controller for a wait at the last node |
| `PathModel.InsertFrames` | src/robot_arm3_moveit_control/src/path_model.cpp:39-48 | the frame loop accepts exactly distinct indexes 1..7 and collects them |
| `PathModel.InsertConditions` | src/robot_arm3_moveit_control/src/path_model.cpp:50-57 | likewise for condition slots |
| `PathModel.CheckMasks` | src/robot_arm3_moveit_control/src/path_model.cpp:95-103 | the unsigned bit loop accepts exactly the masks the bridge accepts |
| `PathModel.CheckParameters` | src/robot_arm3_moveit_control/src/path_model.cpp:78-105 | the parameter checks accept exactly the nodes the bridge's validator accepts |
| `PathModel.CheckNodeList` | src/robot_arm3_moveit_control/src/path_model.cpp:59-107 | the node loop accepts exactly lists of valid nodes with paired arcs and, in a Cartesian PATH, no waiting via |
| `PathModel.ValidatePathGoal` | src/robot_arm3_moveit_control/src/path_model.cpp:22-114 | the simulator accepts a goal if and only if the bridge does and no Cartesian via waits; in particular whatever it accepts, the bridge accepts |
| `PathModel.ExecutionNodeIndexes` | src/robot_arm3_moveit_control/src/path_model.cpp:116-137 | the two loops give the execution range, forward or backward |
| `PathModel.PartitionPathAtWaits` | src/robot_arm3_moveit_control/src/path_model.cpp:139-155 | the loop computes the cut of the execution range after each wait node |
| `PathModel.BatchesAreExact` | src/robot_arm3_moveit_control/src/path_model.cpp:139-155 | the batches flatten to the execution range, contain a wait only as last element, all but the last end in one, and their lengths sum to the range's |
| `Cutting.CutIsExact` | src/robot_arm3_moveit_control/src/path_model.cpp:139-155 | for any list: cutting after each ending element loses nothing and cuts nowhere else |
| `Cutting.CutIsUnique` | src/robot_arm3_moveit_control/src/path_model.cpp:139-155 | no other list of batches has these properties |
| `Cutting.CutSeparates` | src/robot_arm3_moveit_control/src/path_model.cpp:139-155 | cutting a concatenation whose left part ends in a cut is cutting the parts |
| `Cutting.CutJoins` | src/robot_arm3_moveit_control/src/path_model.cpp:139-155 | when the left part does not, the two batches at the seam become one |
| `Cutting.CutCount` | src/robot_arm3_moveit_control/src/path_model.cpp:139-155 | one batch per ending element, and one for a rest |
| `PathModel.SimulatedWaits` | src/robot_arm3_moveit_control/src/moveit_command_server.cpp:701-724 | the simulator suspends once per wait node in the range, except at the last node |
| `PathSequenceBuilder.ArcsStayWhole` | src/robot_arm3_moveit_control/src/path_sequence_builder.cpp:231-234 | run forward, every arc shares its batch with the via right before it, so the missing-via error cannot occur |
| `PathSequenceBuilder.BatchEndsAtDestination` | src/robot_arm3_moveit_control/src/path_sequence_builder.cpp:161-166 | the last node of every batch, either way, is a destination, so the no-destination error cannot occur |
| `PathSequenceBuilder.BatchItems` | src/robot_arm3_moveit_control/src/path_sequence_builder.cpp:147-234 | how the builder's checks partition any list of nodes: empty, reversed arc or via, no destination, a coupled joint outside its limits, an arc without its via |
| `PathSequenceBuilder.BuildBatch` | src/robot_arm3_moveit_control/src/path_sequence_builder.cpp:83-234 | for an accepted goal a batch is built if and only if the reverse check passes and, in a JOINT PATH, every destination keeps joints 3 and 7 in their limits; those two are the only errors, the first only for a Cartesian goal run backwards |
| `PathSequenceBuilder.ReverseCheck` | src/robot_arm3_moveit_control/src/path_sequence_builder.cpp:151-158 | an accepted goal run backwards passes the check in every batch if and only if no arc or via lies in its range, except an arc at its very end that follows a wait |
| `PathSequenceBuilder.ReverseCheckMissesLoneArcs` | src/robot_arm3_moveit_control/src/path_sequence_builder.cpp:151-158 | that exception occurs: a goal whose last node is an arc, run backwards and built as a forward arc |
| `PathBlocks.MergeIsSound` | src/arm_tcp_bridge/arm_tcp_bridge/offline_sequence_manager.py:322-332 | merging two blocks that both validators accept, with equal tables and room for the nodes, gives such a block |
| `PathBlocks.EndWaitIsSound` | src/arm_tcp_bridge/arm_tcp_bridge/offline_sequence_manager.py:244-272 | so does setting or clearing the endpoint wait |
| `PathBlocks.SoundWithId` | src/arm_tcp_bridge/arm_tcp_bridge/path_sequence_action_server.py:170-179 | a sound block stays accepted under any in-range path id |
| `PathBlocks.BatchesAreNodeBatches` | src/robot_arm3_moveit_control/src/path_model.cpp:139-155 | the simulator's index batches of a full-range block are the cut of its node list |
| `PathBlocks.MergeBatches` | src/arm_tcp_bridge/arm_tcp_bridge/offline_sequence_manager.py:322-332 | a merge is executed as the left block's batches followed by the right's, joined at the seam exactly if the left does not end in a wait |
| `PathBlocks.MergedInOrder` | src/arm_tcp_bridge/arm_tcp_bridge/offline_sequence_manager.py:322-332 | a block merged from any number of drafts visits their nodes in order, starts where the first starts and ends where the last ends |
| `OfflineSequence.EveryWaitIsPlaced` | src/arm_tcp_bridge/arm_tcp_bridge/offline_sequence_manager.py:131-446 | in every reachable editor state only the last block may end in a node wait, and when not recording there is no draft and no block ends in one |
| `OfflineSequence.BlocksStaySound` | src/arm_tcp_bridge/arm_tcp_bridge/offline_sequence_manager.py:131-446 | if every draft is full-range and accepted, whatever its waits, every block and the draft stay accepted by both validators through any calls |
| `OfflineSequence.WaitsAreExclusive` | src/arm_tcp_bridge/arm_tcp_bridge/offline_sequence_manager.py:244-296 | if no draft arrives empty or with both kinds of wait, no block or draft ever has both |
| `OfflineSequence.AcceptKeepsBlocks` | src/arm_tcp_bridge/arm_tcp_bridge/offline_sequence_manager.py:310-358 | an accept leaves all earlier blocks as they were if and only if it does not merge a draft that changes the last one |
| `OfflineSequence.BlocksAreExplained` | src/arm_tcp_bridge/arm_tcp_bridge/offline_sequence_manager.py:310-427 | every block's nodes are those of the drafts accepted into it, in order, through accepts, merges and undos |
| `OfflineSequence.ExportsLoseNoWait` | src/arm_tcp_bridge/arm_tcp_bridge/offline_sequence_manager.py:448-476 | if every draft is full-range and accepted, whatever can be exported runs under both validators, has no wait on a final node, and is suspended by the simulator exactly once per wait node |
| `OfflineSequenceManagers.OfflineSequenceManager.DraftCallback` | src/arm_tcp_bridge/arm_tcp_bridge/offline_sequence_manager.py:131-149 | a draft is taken only while recording with none under review |
| `OfflineSequenceManagers.OfflineSequenceManager.StartRecording` | src/arm_tcp_bridge/arm_tcp_bridge/offline_sequence_manager.py:155-184 | recording starts only from rest: no motion, draft or goal |
| `OfflineSequenceManagers.OfflineSequenceManager.CannotFinalize` | src/arm_tcp_bridge/arm_tcp_bridge/offline_sequence_manager.py:202-213 | the block loop finds an obstacle exactly if motion runs, a draft waits or some block ends in a wait |
| `OfflineSequenceManagers.OfflineSequenceManager.StopRecording` | src/arm_tcp_bridge/arm_tcp_bridge/offline_sequence_manager.py:186-200 | recording stops exactly if nothing prevents finalising |
| `OfflineSequenceManagers.OfflineSequenceManager.SetDraftEndWait` | src/arm_tcp_bridge/arm_tcp_bridge/offline_sequence_manager.py:244-272 | the draft's last node is changed in place, never to a waiting via nor together with wait_after |
| `OfflineSequenceManagers.OfflineSequenceManager.SetDraftWaitAfter` | src/arm_tcp_bridge/arm_tcp_bridge/offline_sequence_manager.py:274-296 | wait_after is set in place unless the endpoint waits |
| `OfflineSequenceManagers.OfflineSequenceManager.IsCompatible` | src/arm_tcp_bridge/arm_tcp_bridge/offline_sequence_manager.py:360-379 | the merge test: no wait_after, equal tables, ends within the tolerance on all six joints, room for the nodes |
| `OfflineSequenceManagers.OfflineSequenceManager.Extend` | src/arm_tcp_bridge/arm_tcp_bridge/offline_sequence_manager.py:327-331 | the previous block object becomes the merge; the draft object is untouched |
| `OfflineSequenceManagers.OfflineSequenceManager.AcceptDraft` | src/arm_tcp_bridge/arm_tcp_bridge/offline_sequence_manager.py:310-358 | the draft extends the last block, becomes a new one, or is refused after a waiting block; the earlier block objects keep their values if and only if no changing draft is merged |
| `OfflineSequenceManagers.OfflineSequenceManager.RejectDraft` | src/arm_tcp_bridge/arm_tcp_bridge/offline_sequence_manager.py:381-400 | the draft, and nothing else, is dropped |
| `OfflineSequenceManagers.OfflineSequenceManager.UndoLast` | src/arm_tcp_bridge/arm_tcp_bridge/offline_sequence_manager.py:402-427 | the last block, and nothing else, is removed |
| `OfflineSequenceManagers.OfflineSequenceManager.Clear` | src/arm_tcp_bridge/arm_tcp_bridge/offline_sequence_manager.py:429-446 | everything is dropped unless motion or a goal is active |
| `OfflineSequenceManagers.OfflineSequenceManager.PreviewAll` | src/arm_tcp_bridge/arm_tcp_bridge/offline_sequence_manager.py:527-568 | the previewed sequence is a new list of the editor's own block objects |
| `OfflineSequenceManagers.PreviewSeesLaterEdits` | src/arm_tcp_bridge/arm_tcp_bridge/offline_sequence_manager.py:527-621 | an instance: as the list is shared by reference, a draft merged between request and start of the preview changes the previewed block, which gains nodes and a wait on its final node |
| `OfflinePreview.PreviewStays` | src/arm_tcp_bridge/arm_tcp_bridge/offline_sequence_manager.py:527-621 | through any calls between request and start, the requested list keeps its blocks as requested if and only if no accept merges a changing draft into one of them |
| `OfflinePreview.PreviewShowsRequest` | src/arm_tcp_bridge/arm_tcp_bridge/offline_sequence_manager.py:527-621 | for drafts with nodes, what is previewed is what was requested if and only if no draft was merged into one of its blocks |
| `OfflinePreview.NotRecordingKeepsPreview` | src/arm_tcp_bridge/arm_tcp_bridge/offline_sequence_manager.py:527-621 | as long as recording is not started again, the preview shows what was requested |
| `OfflinePreviewSession.UseEditor` | src/arm_tcp_bridge/arm_tcp_bridge/offline_sequence_manager.py:527-621 | any sequence of the editor's methods, run on shared block objects, leaves the requested list with exactly the blocks the three statements above speak of |
| `SequenceServer.NextIsSafe` | src/arm_tcp_bridge/arm_tcp_bridge/path_sequence_action_server.py:94-312 | every step of executor, signals, cancel callback and delayed cancel flag keeps the run invariant |
| `SequenceServer.BlocksGoInOrder` | src/arm_tcp_bridge/arm_tcp_bridge/path_sequence_action_server.py:216-262 | block i is sent once, as the (i+1)st, after all before it succeeded and its own start check passed |
| `SequenceServer.ResultsAreHonest` | src/arm_tcp_bridge/arm_tcp_bridge/path_sequence_action_server.py:262-304 | completed_paths is the number of blocks that succeeded; success means all were sent and succeeded in order |
| `SequenceServer.WaitsNeedGrants` | src/arm_tcp_bridge/arm_tcp_bridge/path_sequence_action_server.py:263-286 | a wait is passed exactly if a signal was accepted or a cancel callback ran since it began |
| `SequenceServer.GrantsAreFresh` | src/arm_tcp_bridge/arm_tcp_bridge/path_sequence_action_server.py:263-286 | nothing granted before a wait counts for it, and nothing but those two events is a grant |
| `SequenceServer.SignalsReachTheirWait` | src/arm_tcp_bridge/arm_tcp_bridge/path_sequence_action_server.py:115-141 | an accepted signal names the active sequence and, if any block, the one waited after; no signal is accepted while a block runs |
| `SequenceServer.AtMostOneLateBlock` | src/arm_tcp_bridge/arm_tcp_bridge/path_sequence_action_server.py:216-262 | once the cancel flag is visible at most one more block is sent |
| `SequenceServer.GeneratedIdsFit` | src/arm_tcp_bridge/arm_tcp_bridge/path_sequence_action_server.py:236-239 | over the accepted sequence ids, generated path ids stay in range exactly for up to 147483647 blocks |
| `SequenceServer.GeneratedIdsDiffer` | src/arm_tcp_bridge/arm_tcp_bridge/path_sequence_action_server.py:236-239 | they are pairwise distinct, within and across sequences, exactly for up to 1000 blocks |
| `SequenceServer.PathSequenceServer.GoalCallback` | src/arm_tcp_bridge/arm_tcp_bridge/path_sequence_action_server.py:94-106 | a goal is accepted, and the server reserved, if and only if it has blocks, an in-range id and no other goal is active |
| `SequenceServer.PathSequenceServer.SignalSequence` | src/arm_tcp_bridge/arm_tcp_bridge/path_sequence_action_server.py:115-141 | the answer is the acceptance SignalsReachTheirWait speaks of, and the fields stay those of a run |
| `SequenceServer.PathSequenceServer.RunBlocks` | src/arm_tcp_bridge/arm_tcp_bridge/path_sequence_action_server.py:216-304 | the loop over the blocks, with other threads between its steps: it ends with the outcome of a run of the server, counts the blocks that succeeded, and is canceled only on a request |
| `SequenceServer.PathSequenceServer.ExecuteCallback` | src/arm_tcp_bridge/arm_tcp_bridge/path_sequence_action_server.py:181-312 | with signals, cancels and flags arriving between its steps: the result counts the blocks that succeeded, success is reported only when all were sent and succeeded in order, a cancel only when one was requested, at most one block was sent without success, and however a goal ends the server is free again |
| `Simulator.NextIsSafe` | src/robot_arm3_moveit_control/src/moveit_command_server.cpp:628-773 | every step of executor, signal service and cancel handler keeps visited nodes, passed waits and accepted signals in agreement |
| `Simulator.DoneVisitedRange` | src/robot_arm3_moveit_control/src/moveit_command_server.cpp:628-735 | a PATH that succeeds visited its execution range in order, reports as many nodes as the bridge does, and used one accepted signal per wait before the last node |
| `Simulator.SignalsDoNotLeak` | src/robot_arm3_moveit_control/src/moveit_command_server.cpp:756-773 | a signal is accepted only while waiting at the node it names, at most once per wait, and never carries over |
| `Simulator.PathServer.ExecutePathGoal` | src/robot_arm3_moveit_control/src/moveit_command_server.cpp:628-754 | with signals and cancels arriving between its steps: a goal is refused if and only if it is not runnable, a PATH reported as succeeded executed its range in order, as many nodes as it reports, with one accepted signal per wait before the last node; a failed one reports the nodes of the batches it moved and waits for nothing |
| `WristTurns.SearchWindow` | src/robot_arm3_moveit_control/src/wrist_turn_preserver.cpp:27-41 | the loop finds the first of the nearest in-limit equivalents in its window, or none if there is none |
| `WristTurns.InsideIsCloser` | src/robot_arm3_moveit_control/src/wrist_turn_preserver.cpp:27-41 | an in-limit equivalent outside the window is farther than the window's edge on its side, if the window holds any |
| `WristTurns.WindowSuffices` | src/robot_arm3_moveit_control/src/wrist_turn_preserver.cpp:27-41 | so the window's best is the best over all integers, from any start |
| `WristTurns.RefusalsAreHonest` | src/robot_arm3_moveit_control/src/wrist_turn_preserver.cpp:42-43 | an empty window means no equivalent at all, for every position, if and only if the start is near the limits: less than 16.5 turns from everything in them, or 15.5 turns when they span a turn or more |
| `WristTurns.BestIsUnique` | src/robot_arm3_moveit_control/src/wrist_turn_preserver.cpp:33-40 | the nearest equivalent, ties to the smaller turn, is unique |
| `WristTurns.PreserveAbsoluteTurns` | src/robot_arm3_moveit_control/src/wrist_turn_preserver.cpp:11-47 | on success every wrist value is its input plus whole turns, in the limits and at least as near to the previous output as every equivalent; the throw comes at the first point with an empty window, which has no equivalent unless it is the first point and the start is far; other joints and later points are untouched |
| `SpeedLimits.MeasureVelocities` | src/robot_arm3_moveit_control/src/trajectory_speed_limiter.cpp:159-168 | the running maximum dominates every axis ratio of the point and is attained or unchanged |
| `SpeedLimits.MeasureAccelerations` | src/robot_arm3_moveit_control/src/trajectory_speed_limiter.cpp:170-186 | likewise with the phase of the input's own velocity sign |
| `SpeedLimits.MeasureSegment` | src/robot_arm3_moveit_control/src/trajectory_speed_limiter.cpp:188-204 | likewise for average velocities between points |
| `SpeedLimits.MeasureJoints` | src/robot_arm3_moveit_control/src/trajectory_speed_limiter.cpp:153-205 | the joint pass gives the largest ratio and at least 1, or the error of the first bad point |
| `SpeedLimits.MeasureTravel` | src/robot_arm3_moveit_control/src/trajectory_speed_limiter.cpp:220-240 | the TCP pass extends it by the travel ratios |
| `SpeedLimits.BoundMeaning` | src/robot_arm3_moveit_control/src/trajectory_speed_limiter.cpp:153-241 | a factor bounds all measured ratios if and only if a trajectory slowed by it meets every velocity, coupled joint, acceleration, segment and TCP limit |
| `SpeedLimits.MeasuredIsLeast` | src/robot_arm3_moveit_control/src/trajectory_speed_limiter.cpp:153-241 | a measured maximum is the least factor from 1 up with which every limit holds |
| `SpeedLimits.TimesStayApart` | src/robot_arm3_moveit_control/src/trajectory_speed_limiter.cpp:26-42 | slowed and rounded times stay strictly increasing and lose at most a nanosecond between two points |
| `SpeedLimits.SlowedIsLimited` | src/robot_arm3_moveit_control/src/trajectory_speed_limiter.cpp:243-253 | after slowing, every velocity, acceleration and segment is within its limit, up to one nanosecond of rounding |
| `SpeedLimits.ResultIsLimited` | src/robot_arm3_moveit_control/src/trajectory_speed_limiter.cpp:243-253 | slowed, or left alone in the dead band, a trajectory is within every limit up to the band's billionth (squared for accelerations) and a nanosecond |
| `TrajectoryScaling.CollapsedIncreases` | src/robot_arm3_moveit_control/src/trajectory_speed_limiter.cpp:89-117 | if only duplicates share a time, collapsing leaves strictly increasing times |
| `TrajectoryScaling.CollapsedTimes` | src/robot_arm3_moveit_control/src/trajectory_speed_limiter.cpp:89-117 | collapsing neither loses nor invents a time |
| `TrajectoryScaling.CollapsedIsIdle` | src/robot_arm3_moveit_control/src/trajectory_speed_limiter.cpp:89-117 | strictly increasing trajectories are left alone |
| `TrajectoryScaling.SecondsToDuration` | src/robot_arm3_moveit_control/src/trajectory_speed_limiter.cpp:26-42 | negative seconds are refused; otherwise seconds and nanoseconds, with their carry, denote the rounded total |
| `TrajectoryScaling.MeasureAll` | src/robot_arm3_moveit_control/src/trajectory_speed_limiter.cpp:153-241 | both passes succeed exactly on complete, strictly timed trajectories, and give the least sufficient factor |
| `TrajectoryScaling.Trajectory.Collapse` | src/robot_arm3_moveit_control/src/trajectory_speed_limiter.cpp:89-117 | the in-place loop is the collapse the three lemmas above speak of |
| `TrajectoryScaling.Trajectory.IsDuplicate` | src/robot_arm3_moveit_control/src/trajectory_speed_limiter.cpp:78-87 | same time and positions within 10^-12 |
| `TrajectoryScaling.Trajectory.Scale` | src/robot_arm3_moveit_control/src/trajectory_speed_limiter.cpp:245-252 | every point is slowed, in place |
| `TrajectoryScaling.Trajectory.ApplySpeedLimits` | src/robot_arm3_moveit_control/src/trajectory_speed_limiter.cpp:141-256 | the call succeeds exactly on acceptable settings and trajectories; its factor is the least one meeting every limit; beyond the 10^-9 dead band the trajectory is slowed by it, within it and on errors nothing is scaled; either way the resulting velocities, accelerations and segments are within their limits up to that billionth and a nanosecond |
| `PoseChains.Associative` | src/robot_arm3/scripts/moveit_environment_boxes.py:59-67 | quaternion multiplication as programmed is associative |
| `PoseChains.NormProduct` | src/robot_arm3/scripts/moveit_environment_boxes.py:59-67 | norms multiply |
| `PoseChains.ConjugateProduct` | src/robot_arm3/scripts/moveit_environment_boxes.py:59-67 | conjugation reverses products |
| `PoseChains.RotateIsSandwich` | src/robot_arm3/scripts/moveit_environment_boxes.py:70-80 | for a unit quaternion the programmed rotation is q v q* |
| `PoseChains.RotateTwice` | src/robot_arm3/scripts/moveit_environment_boxes.py:70-80 | rotating by a product is rotating twice |
| `PoseChains.RotateKeepsLength` | src/robot_arm3/scripts/moveit_environment_boxes.py:70-80 | rotation keeps length |
| `PoseChains.FromRpyTurns` | src/robot_arm3/scripts/moveit_environment_boxes.py:44-56 | given sin^2+cos^2=1, the angles' quaternion is a unit and turns about x, then y, then z |
| `PoseChains.ComposePoseChain` | src/robot_arm3/scripts/moveit_environment_boxes.py:83-93 | the loop computes the chain's transform, whose laws follow |
| `PoseChains.ChainIsUnit` | src/robot_arm3/scripts/moveit_environment_boxes.py:83-93 | every chain ends in a unit quaternion |
| `PoseChains.ComposeApplies` | src/robot_arm3/scripts/moveit_environment_boxes.py:83-93 | composing transforms is applying one after the other |
| `PoseChains.ChainsCompose` | src/robot_arm3/scripts/moveit_environment_boxes.py:83-93 | the pose of a concatenated chain is the composition of the two chains' poses |
| `PoseChains.ChainIsRigid` | src/robot_arm3/scripts/moveit_environment_boxes.py:83-93 | every chain keeps all distances |
| `FlyPaths.FlyQueue.Add` | src/robot_arm3_moveit_control/src/fly_queue.cpp:12-24 | a full queue and mixed kinds are refused without any change; the queue stays within capacity and of one kind |
| `FlyPaths.FlyQueue.Clear` | src/robot_arm3_moveit_control/src/fly_queue.cpp:26-30 | clearing forgets segments and kind |
| `FlyPaths.PublishFlyNodes` | src/robot_arm3_moveit_control/src/moveit_command_server.cpp:1350-1414 | the loop records the queue's node list |
| `FlyPaths.OnlyTheLastStops` | src/robot_arm3_moveit_control/src/moveit_command_server.cpp:1350-1414 | in it every node flies except vias and the final one, which is not a via |
| `FlyPaths.CheckFly` | src/robot_arm3_moveit_control/src/pilz_sequence_builder.cpp:126-160 | the guards accept exactly queues of two or more segments, flown in the mode of their kind, whose joint targets keep the coupled joints in their limits |
| `FlyPaths.ExecuteFlyQueue` | src/robot_arm3_moveit_control/src/moveit_command_server.cpp:1671-1772 | the queue is published if and only if the guards accept it, the sequence moves and its trajectory can be recorded; only then is it cleared |
| `FlyPaths.NodeCount` | src/robot_arm3_moveit_control/src/moveit_command_server.cpp:1350-1414 | a queue records one node per segment and one more per arc |
| `FlyPaths.PublishedIsRunnable` | src/robot_arm3_moveit_control/src/moveit_command_server.cpp:1350-1414 | the block of an accepted queue, with an id, is accepted by both validators if and only if its nodes fit |
| `TrajectoryPaths.ValidateCoupledTrajectory` | src/robot_arm3_moveit_control/src/coupled_trajectory_validator.cpp:11-35 | accepts exactly trajectories with both coupled joints present and within limits at every point |
| `TrajectoryPaths.ConvertPoint` | src/robot_arm3_moveit_control/src/ompl_trajectory_to_path.cpp:23-52 | fails exactly on incomplete points and limit violations |
| `TrajectoryPaths.NearlyEqual` | src/robot_arm3_moveit_control/src/ompl_trajectory_to_path.cpp:54-62 | near means within the threshold on all six axes |
| `TrajectoryPaths.SamplePoints` | src/robot_arm3_moveit_control/src/ompl_trajectory_to_path.cpp:86-92 | the loop keeps each sample farther than the threshold from the last kept one |
| `TrajectoryPaths.TrajectoryToJointPath` | src/robot_arm3_moveit_control/src/ompl_trajectory_to_path.cpp:65-120 | conversion succeeds exactly on convertible input whose kept samples fit, and records them |
| `TrajectoryPaths.DroppedAreNear` | src/robot_arm3_moveit_control/src/ompl_trajectory_to_path.cpp:86-92 | every sample is within the threshold of the last one kept by then |
| `TrajectoryPaths.KeptAreApart` | src/robot_arm3_moveit_control/src/ompl_trajectory_to_path.cpp:86-92 | consecutive kept samples exceed the threshold |
| `TrajectoryPaths.KeptAreSamples` | src/robot_arm3_moveit_control/src/ompl_trajectory_to_path.cpp:86-92 | every kept sample is one of the trajectory's |
| `TrajectoryPaths.ValidatedIsConvertible` | src/robot_arm3_moveit_control/src/coupled_trajectory_validator.cpp:11-35 | after coupled validation, conversion never fails on the limits |
| `TrajectoryPaths.RecordedIsSound` | src/robot_arm3_moveit_control/src/ompl_trajectory_to_path.cpp:98-120 | a recorded block with a node is accepted by both validators under any id |
| `TrajectoryPaths.ReplayReturnsJoints` | src/robot_arm3_moveit_control/src/path_sequence_builder.cpp:83-95 | re-planning a recorded sample accepts it and returns the planner's own joints |
| `TrajectoryPaths.EveryNodeReplays` | src/robot_arm3_moveit_control/src/path_sequence_builder.cpp:83-95 | so every kept sample of a convertible trajectory, and with them every recorded node, re-plans to joints of that trajectory |
| `BlendRadii.ComputeFlyBlendRadii` | src/robot_arm3_moveit_control/src/pilz_sequence_builder.cpp:104-123 | fewer than two targets are refused; otherwise the loop fills in the radius of every inner target and leaves the last at zero |
| `BlendRadii.BlendsStayApart` | src/robot_arm3_moveit_control/src/pilz_sequence_builder.cpp:104-123 | in normal mode the blends of every route stay apart, that is adjacent radii sum to less than the distance and the last is zero, if and only if factor times percentage is below one half |
| `BlendRadii.ConfiguredBlendsStayApart` | src/robot_arm3_moveit_control/src/moveit_command_server.cpp:307-310 | so every accepted configuration keeps the normal blends of every route apart |
| `BlendRadii.CartesianBlends` | src/robot_arm3_moveit_control/src/pilz_sequence_builder.cpp:112-113 | Cartesian blends stay apart if and only if twice the configured distance is less than the way between blended targets, and once it less than the last way |
| `BlendRadii.CartesianBlendsOverlap` | src/robot_arm3_moveit_control/src/pilz_sequence_builder.cpp:112-113 | they stay apart on every route if and only if the configured distance is zero |
| `BlendRadii.PathBlendsStayApart` | src/robot_arm3_moveit_control/src/path_sequence_builder.cpp:128-138 | blends of PATH batches in normal mode stay apart for any percentages up to 100 and every accepted factor |
| `BlendRadii.CartesianPathBlends` | src/robot_arm3_moveit_control/src/path_sequence_builder.cpp:128-138 | in a PATH batch whose flying nodes all blend in Cartesian mode, blends stay apart if and only if every way between targets exceeds the two nodes' own distances |
| `BlendRadii.MixedBlends` | src/robot_arm3_moveit_control/src/path_sequence_builder.cpp:128-138 | whatever the mix of modes, the blends of a valid batch stay apart on every route if and only if no Cartesian one before the last node has a positive distance |
| `JointReset.JointResetSystem.ApplyReset` | src/robot_arm3/src/joint_reset_system.cpp:374-392 | succeeds exactly if every requested joint exists |
| `JointReset.JointResetSystem.ResetMatches` | src/robot_arm3/src/joint_reset_system.cpp:404-436 | the loop accepts exactly if every joint reports its position and no velocity, within the tolerance |
| `JointReset.NextIsSafe` | src/robot_arm3/src/joint_reset_system.cpp:118-288 | every step of service and simulation thread keeps the invariant |
| `JointReset.NoResetIsPending` | src/robot_arm3/src/joint_reset_system.cpp:153-162 | the already-pending answer is never given |
| `JointReset.PausesAreReleased` | src/robot_arm3/src/joint_reset_system.cpp:175-254 | the phase is WAIT_PAUSED exactly while the last pause event asked for a pause, so no completed or timed-out request leaves the world asked to pause |
| `JointReset.JointResetSystem.HandleResetRequest` | src/robot_arm3/src/joint_reset_system.cpp:118-200 | the whole service call, with simulation updates and late switches of earlier requests between its steps: success means the reset was applied, found in place and at rest after the settle time, with exactly the controllers active that were before unless a late switch interfered; however it ends, the simulation is idle and no pause is asked for |
| `JointReset.JointResetSystem.ActiveResetControllers` | src/robot_arm3/src/joint_reset_system.cpp:301-336 | the loop finds exactly the configured controllers that are active |
| `JointReset.SuccessIsVerified` | src/robot_arm3/src/joint_reset_system.cpp:175-200 | in every run a successful answer means the reset was applied, found in place and at rest within the tolerance after the settle time, and the controllers it stopped are active again; exactly those active before are, unless a switch an earlier request gave up on took effect meanwhile |
| `JointReset.SwitchesAreUndisturbed` | src/robot_arm3/src/joint_reset_system.cpp:338-372 | no switch interferes as long as every one asked for took effect |
| `JointReset.ControllersAfter` | src/robot_arm3/src/joint_reset_system.cpp:138-200 | however a request ends that no late switch interfered with, the controllers are as before exactly if its last switch took effect or none was to be made; a timed-out deactivation that takes effect is not undone |
| `GazeboSync.C4GGazeboSync.TeleportLimitError` | src/robot_arm3/scripts/c4g_gazebo_sync_node.py:690-710 | the limit loop accepts exactly targets within all eight limits and the tolerance |
| `GazeboSync.C4GGazeboSync.ResetIsStable` | src/robot_arm3/scripts/c4g_gazebo_sync_node.py:811-840 | the stability loop accepts exactly eight joints in place and at rest |
| `GazeboSync.NextIsSafe` | src/robot_arm3/scripts/c4g_gazebo_sync_node.py:398-573 | every tick, message, service reply and enable call keeps the handover invariant |
| `GazeboSync.LiveIsHandedOver` | src/robot_arm3/scripts/c4g_gazebo_sync_node.py:398-809 | in every run the live mirror is preceded, in order, by a target in the limits, the solver's pause acknowledged, the reset's success, ticks that all saw a stable pose over at least the stable duration, and the resumption acknowledged; the solver is then neither paused nor recorded as paused |
| `GazeboSync.ObservationsAreReal` | src/robot_arm3/scripts/c4g_gazebo_sync_node.py:398-809 | each recorded milestone is a fact of the tick that recorded it: fresh feedback with its target in the limits and the service ready, the services' own positive answers, the joints as last reported; nothing else is recorded, and only a new target starts the record over |
| `GazeboSync.ErrorLeavesPaused` | src/robot_arm3/scripts/c4g_gazebo_sync_node.py:485-750 | in every run, after the step into or within an error, the solver is left paused, with no resumption on its way, if and only if the handover failed while the service was not ready, or a requested resumption was refused, or it was left so before |
| `GazeboSync.RecordAfterFailure` | src/robot_arm3/scripts/c4g_gazebo_sync_node.py:485-750 | after a failure since the reset was asked for, the node records the solver as paused exactly if the pose was stable; it records a solver left paused as running exactly if the service was not ready and the failure was any other |
| `GazeboSync.PauseOutlastsErrors` | src/robot_arm3/scripts/c4g_gazebo_sync_node.py:552-573 | a solver left paused stays so, through enabling and further handovers, until a tick sends it a resumption |
| `GazeboSync.FailedResetLeavesPaused` | src/robot_arm3/scripts/c4g_gazebo_sync_node.py:712-750 | an instance: a failed reset with the service not ready leaves the solver paused and recorded as running |
| `GazeboSession.Session.Drive` | src/robot_arm3/scripts/c4g_gazebo_sync_node.py:364-573 | the node's own methods, run on any list of ticks, messages, enable calls and service replies: what happens is a run, so a node in the live mirror has a whole handover behind it with the solver running, and an error leaves the solver paused exactly in the cases of ErrorLeavesPaused |

## Left out

- Floating point: values are exact reals, so rounding of doubles, NaN and infinity are not modelled; printing to six decimals, PDL's ROUND and rounding to nanoseconds are.
- PDL2 arithmetic: REAL is exact, so single precision (condition masks above 2^24, large ids) is not modelled; INTEGER overflow is not either. ROUND is taken to round halves away from zero, and copying into STRING[n] to keep the first n characters.
- Sockets, reconnection, timeouts as durations, and the splitting of TCP text into messages: the channels carry whole messages in order, a close may happen at any step; control characters and line ends stripped on receipt are not modelled.
- The non-strict echo mode of the bridge, in which a changed echo is accepted.
- The bridge's one-goal-at-a-time flag and its goal, cancel and feedback plumbing: one bridge sends one command at a time; the upload abort it sends after a failure is one of the arbitrary commands of the controller's runs, and a cancel's abortMotion an abort that arrives at any moment.
- The controller's other commands (frames, speeds, single moves, its own FLY queue): they touch no PATH variable, and the code they return is arbitrary.
- The native MOVE ALONG: a move visits its range node by node and suspends at wait nodes; speeds, blends and the meaning of condition handlers are not modelled. Condition events are those of `C4G_PDL2/PDL2_ROS2_main_1.txt` lines 209-222, at the start and end of a segment and at a via: they name the node last visited or the one headed for, and while the motion is suspended only the former.
- The controller configuration copied into Cartesian targets, and node attributes that are set to constants.
- Methods for `_perform_command`, the upload loop and the states of the controller's main loop that talk to the bridge: they are steps of state machines on values, because they run against each other.
- Other threads and interruptions inside an atomic section of the executor methods: they act at the points between sections, any number of times, and a wait that nothing ends is returned as such instead of going on.
- Planning, inverse kinematics, execution by MoveIt and feedback topics in the simulator: each batch is planned and executed with success or failure chosen freely; the TCP distance of the speed limiter and its square root are parameters with their defining property.
- Negative point times in the speed limiter, whose scaling it refuses, and the reported name of the limiting joint.
- Soundness of the block recorded for a trajectory that collapses to its omitted first sample: it has no nodes, and no validator accepts it.
- The FLY queue's refusal of a zero capacity, which the model's constructor requires not to happen.
- Node poses, constraints, planner choices and velocity scalings in the sequence builders, and their refusal of an invalid robot model or link.
- Distinctness of explicit path ids, which blocks keep and which may repeat; the start check's tolerances and feedback age, which are one free outcome.
- The editor's export file, sending of sequences, status replies and the simulated resets it requests after a rejection or undo; its own and the sequence server's action goals are flags.
- Sharing of frame and condition lists between messages: they are values, and each draft message is a new object; aliasing is captured between the editor and its preview.
- The resetting of link velocities and joint positions inside Gazebo; only what it reports afterwards is modelled.
- The sync node's blend mode, handover without the solver, and publishing of trajectories; a service reply that arrives after its call was dropped is ignored, as in the code. The passive solver handles requests in the order they were sent, and a request it refuses or that fails has no effect on it.
- Trigonometry, which is any pair of functions with sin^2+cos^2=1, SDF parsing and the collision objects.
- Message conversion, YAML files, launch files, command builders and parsers for single moves, sensor and peripheral nodes, bag analysis: tables and field copies.
