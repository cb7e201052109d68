# A robot bridge, verified

This project models the parts of a robot bridge that stand between a control client and a robot's motors, and of the
simulator and client around it, and proves what they promise. Nothing of the original program is run: everything below
is checked by Dafny's verifier (`dafny verify dfyconfig.toml`).

| files | what they model |
|---|---|
| `Estop`, `LinkWatch` | the e-stop latch and the robot link watch: classes, their values, and laws over runs of calls |
| `Bridge`, `Threads` | the state that the executor, the 1 kHz control loop and the shutdown callback share; its critical sections as methods; and the interleavings of the three threads, one event for each locked section, unlocked store or executor step |
| `Invariant`, `Safety`, `HoldLaws`, `FaultLaws`, `Streams` | what every step keeps, and what holds over every interleaving: no tracking after a stop, no gap in frames, absorbing shutdown and restart, the hold pose, which faults stop the robot and how, the command stream, the published texts |
| `Numbers`, `Gates`, `Ramp`, `RampTime` | the motor pipeline of one joint in exact reals: torque bounds, the two controllers, the ramp, and where it stands at every moment |
| `Pipeline`, `PipelineLaws`, `RobotRamp`, `Commands` | the same pipeline on the robot's arrays and on every float, NaN and infinities included; the ramp laws on those arrays; the command check |
| `Lowcmd`, `LowcmdTorque`, `LowcmdStores` | the three threads and the pipeline together: every frame on `/lowcmd`, field by field, its torques, and where an arming, a command and a pose take every joint |
| `Plane`, `Newton`, `Ankle`, `Cranks`, `CrankRoundTrip`, `CrankSigns` | the T1's parallel ankle: the crank map, the two Newton inverses, and the round trip through the simulator |
| `Crc`, `CrcStandard` | the frame CRC, bitwise and by table, and the polynomial division it is (CRC-32/MPEG-2, Annex A of ITU-T H.222.0) |
| `Pacer`, `Pacing` | the goal queue between two threads, and the deadlines of its loop |
| `Hands`, `HandLaws`, `HandSamples`, `HandThreads` | the two Dex3 hands: alone, in their messages, and beside the three threads |
| `Witnesses` | inputs at which the conditions proved elsewhere fail |

The source updates objects in place, so most operations are methods of classes over fields and arrays; each is proved
equal to a function of the old state, and the laws are lemmas about those functions and about runs of them. In
`Threads`, what the outside decides (faults seen, gates, clocks, whether a frame is finite or a command overdue) rides on
the event; in `Lowcmd` the last two are the pipeline's own answers.

## What the model found

Each item names the exact condition, and where it is not a run itself, the lemma at an input that fails it.

- `docs/low-level-controllers.md` says that arming always runs `motor_pd`. The code does not: a `/start_control` inside a
  `bridge_pd` stream ramps to the start pose under `bridge_pd`, because no step of an arming but a limp commit changes
  the controller. `Streams.ArmUnderBridgePd` is such a run; `Streams.ArmRunsMotorPdIff` says of the whole arming exactly
  when `motor_pd` runs.
- The torque bound of a tracking frame has exact conditions (`Gates.TorqueBoundIff`). It fails at kp up to 1e-6 when the
  damping and feedforward exceed the limit (`Witnesses.SpringlessOverLimit`), and for a converted parallel joint with a
  spring when the damping alone exceeds twice the limit (`Witnesses.ConvertedOverLimit`). The two controllers apply the
  same torque under an exact condition over all gains (`Gates.ControllersAgreeIff`); they part at kp 0 and at 1e-6
  (`Witnesses.ControllersPartAtZero`, `Witnesses.ControllersPartBelowThreshold`).
- A NaN measured position or speed that slips in after the state check does not stop a `motor_pd` frame on a serial joint
  with a spring: the target goes out without its torque window (`PipelineLaws.MotorPdFiniteIff`,
  `Witnesses.NaNGoesUnwindowed`).
- With an interpolation order strictly between 0 and 1 a NaN in `lastCommand_` stays in the target as long as the command
  has a spring, kp above 1e-6 (`RobotRamp.NaNTargetIff`). On the robot only a plugin can carry one on: a tick of `motor_pd`
  or `bridge_pd` that leaves a NaN there loses its own frame (`PipelineLaws.KeptNaNIsLost`), so the bridge latches, and no
  other tracking tick comes before a reset and an arming, which seeds it anew (`Lowcmd.NoSecondNaN`,
  `LowcmdStores.SeedOutcome`). Without a spring the NaN leaves after one tick, and on a finite state the frame of that tick
  goes out (`Witnesses.NaNLeavesWithoutSpring`).
- An arming does not always hold still until its second ramp: where holding the pose takes more than the torque limit at
  the measured speed, gate 4 moves `lastCommand_` and the next target with it (`RobotRamp.ArmingHoldsStillIff`,
  `LowcmdStores.ArmingStands`, `Witnesses.ArmingSlips`).
- The crank signs are read from the config without a check that they are 1 or -1. The limit of the crank motors needs
  exactly that in every pose (`CrankSigns.OnlyUnitSigns`, `Witnesses.SignTwoBreaksLimit`), and so does the round trip
  (`CrankSigns.RoundTripNeedsUnitSigns`).
- An operator hold that comes while the control loop has a fault in hand is undone by that stop if the fault is configured
  to damp (`HoldLaws.PendingFaultKeepsHoldIff`, `Witnesses.HoldUndone`).
- A latching stop does not always release the hands until they are started again. They look at the latch once a tick, and
  what releases them is exactly a tick that finds it latched (`HandThreads.LatchReleasesIff`, `HandThreads.LiveFrameIff`);
  `HandThreads.HandOutlivesStop` is a run from boot in which a stop and its reset fall between two ticks. No live frame goes
  out before that reset (`HandThreads.NoLiveFrameBeforeReset`), and none before a start once a tick saw the latch
  (`HandThreads.NoLiveHandAfterLatch`).
- The C++ inverse gives up at a singular Jacobian with an iteration left, where its Python twin returns the pose it has
  (`Newton.VerdictsAgreeIff`).

## Model

| member | source | states |
|---|---|---|
| `Estop.SafetyLatch.Trigger` | bridge/robot_bridge/src/estop.cpp:281-339 | A trigger moves the latch to the phase, mode, cause, publishing and generation the stop rules give, and reports a change and a hold snapshot exactly then |
| `Estop.SafetyLatch.Reset` | bridge/robot_bridge/src/estop.cpp:341-360 | A reset succeeds exactly on a latched, non-shutdown latch whose cause is gone, keeps the frame source, and otherwise says why not and changes nothing |
| `Estop.SafetyLatch.CommitArm` | bridge/robot_bridge/src/estop.cpp:362-372 | A commit succeeds exactly when nothing is latched and the generation is still the one read; a refused one changes nothing |
| `Estop.SafetyLatch.Silence` | bridge/robot_bridge/src/estop.cpp:374-383 | Only a publishing latch goes silent, and that voids an arming too |
| `Estop.TriggerKeepsCoherent` | bridge/robot_bridge/src/estop.cpp:281-339 | Every trigger keeps: Idle publishes nothing, Stopped publishes, a shut-down latch is latched in damp, a latched one has a latching cause |
| `Estop.LatchingTriggerVoidsArming` | bridge/robot_bridge/src/estop.cpp:289-337 | After any cause but /stop_control the latch is latched and no commit with an older generation passes |
| `Estop.StaleArmingIsRefused` | bridge/robot_bridge/src/estop.cpp:281-383 | An arming that read the generation before a stop or a silence is refused for ever, through resets, other armings and any other calls |
| `Estop.ShutdownIsFinal` | bridge/robot_bridge/src/estop.cpp:284-288 | After Shutdown no trigger, reset, commit or silence changes phase, mode or cause |
| `Estop.ShutdownAlwaysLatches` | bridge/robot_bridge/src/estop.cpp:323-337 | Shutdown takes the latch over from every state, in damp |
| `Estop.TriggerFromIdle` | bridge/robot_bridge/src/estop.cpp:289-322 | What every cause makes of an idle latch: phase, cause, frames and the mode it is to have, cause by cause |
| `Estop.TriggerFromStop` | bridge/robot_bridge/src/estop.cpp:289-339 | What every cause makes of a stopped or latched one: operators set the mode, a fault keeps hold only if it is configured to hold, /stop_control changes nothing |
| `Estop.Onset.Fault` | bridge/robot_bridge/src/estop.cpp:227-232 | A fault fires when it begins or changes, never while it lasts, and the memory follows the sample |
| `Estop.Onset.Remote` | bridge/robot_bridge/src/estop.cpp:234-240 | A combo fires on its press, and damp over hold; the memory follows the sample |
| `Estop.HeldDampHasFired` | bridge/robot_bridge/src/estop.cpp:234-240 | Over any run of samples, a damp combo held now has fired at the start of being held; hold fires exactly on a press from no combo |
| `LinkWatching.LinkWatch.OnState` | bridge/robot_bridge/src/estop.cpp:398-417 | A sample is remembered with its tick; a true return is exactly a gap over 0.2 s or a shown LOST; a false one leaves the text |
| `LinkWatching.LinkWatch.Poll` | bridge/robot_bridge/src/estop.cpp:419-429 | LOST is reported exactly when the last sample is over 0.2 s old and a new whole second of the gap began; a false return leaves the text |
| `LinkWatching.LinkWatch.Clear` | bridge/robot_bridge/src/estop.cpp:431-439 | Clears BACK only, never LOST or RESTARTED; a false return leaves the text |
| `LinkWatching.GapIsAge` | bridge/robot_bridge/src/estop.cpp:398-409 | Under a monotone clock a sample ends a gap exactly when the one before is over 0.2 s old, whatever polls came between |
| `LinkWatching.RestartedExactly` | bridge/robot_bridge/src/estop.cpp:398-439 | restarted() is true if and only if two neighbouring samples are over 0.2 s apart with a tick that did not grow, wherever polls and clears fall |
| `LinkWatching.RestartedForEver` | bridge/robot_bridge/src/estop.cpp:411-439 | No call ever clears a restart |
| `LinkWatching.OneReportASecond` | bridge/robot_bridge/src/estop.cpp:419-429 | Two LOST reports of one gap fall in different whole seconds of it, in order |
| `LinkWatching.PollReportsIff` | bridge/robot_bridge/src/estop.cpp:419-429 | Since the last sample: a poll reports a loss if and only if that sample is over 0.2 s old and no report fell in this whole second of the gap |
| `LinkWatching.BackOutcome` | bridge/robot_bridge/src/estop.cpp:398-439 | A sample that ends a gap shows it with its length and no loss; a clear takes BACK away exactly where no loss and no restart stand over it |
| `LinkWatching.TextNeverStale` | bridge/robot_bridge/src/estop.cpp:398-461 | If the text is published after every true return, the last one published always equals describe() |
| `Bridge.BridgeCore.SyncLatchFlags` | bridge/robot_bridge/src/bridge_core.cpp:1100-1104 | The two atomics become the latch phase and its publishing flag |
| `Bridge.BridgeCore.EnterStop` | bridge/robot_bridge/src/bridge_core.cpp:1125-1156 | One stop: tracking, limp and stream end, motor_pd runs, the latch triggers, the hold pose is the measured one when a hold begins, mirrors and text follow |
| `Bridge.BridgeCore.ResetSection` | bridge/robot_bridge/src/bridge_core.cpp:1421-1436 | The locked part of /estop_reset: the latch resets or not, the mirrors follow, the text is republished on success |
| `Bridge.BridgeCore.ArmRead` | bridge/robot_bridge/src/bridge_core.cpp:1193-1201 | The first locked part of an arming: refused exactly while latched, else the generation of this moment |
| `Bridge.BridgeCore.CommitSection` | bridge/robot_bridge/src/bridge_core.cpp:1223-1239 | The last locked part of an arming: granted exactly when the commit is, then mirrors, limp, stream, text and link text follow; refused it clears tracking |
| `Bridge.BridgeCore.CommandSection` | bridge/robot_bridge/src/bridge_core.cpp:706-730 | The locked part of /robot_cmd, as to stream and controller: taken only while tracking, not arming, not limp and for the controller of the stream |
| `Bridge.BridgeCore.PoseSection` | bridge/robot_bridge/src/bridge_core.cpp:1482-1493 | The locked part of Ready and Zero, as to stream and controller: motor_pd runs and limp ends, with the text republished |
| `Bridge.BridgeCore.PublishSection` | bridge/robot_bridge/src/bridge_core.cpp:775-801 | One locked tick: a stale latch goes silent first, then exactly one of tracking frame, stop frame, nothing |
| `Bridge.BridgeCore.NoteLink` | bridge/robot_bridge/src/bridge_core.cpp:160-181 | A sample reaches the link watch, its text is published on change, and a restart is reported only from a change |
| `Bridge.BridgeCore.PollLink` | bridge/robot_bridge/src/bridge_core.cpp:183-197 | A poll publishes exactly the changes it reports |
| `Bridge.BridgeCore.ClearLink` | bridge/robot_bridge/src/bridge_core.cpp:199-205 | A clear publishes exactly the changes it reports |
| `Bridge.BridgeCore.LowState` | bridge/robot_bridge/src/G1_bridge.cpp:174-252 | A state message overwrites the measured q of the joints it carries and of no others |
| `Invariant.StopClears` | bridge/robot_bridge/src/bridge_core.cpp:1125-1148 | From every reachable state a stop leaves nothing tracking, no stream, motor_pd, current text; a latching one latches and outdates every generation read before |
| `Invariant.StepKeepsInv` | bridge/robot_bridge/src/bridge_core.cpp:755-809 | Every step of every thread keeps the invariant: mirrors, tracking only when idle or in flight, generation current exactly while unlatched, current texts |
| `Invariant.InvAlways` | bridge/robot_bridge/src/bridge_core.cpp:755-1239 | The invariant holds at every point of every interleaving of the three threads |
| `Safety.LatchedTracksNothing` | bridge/robot_bridge/src/bridge_core.cpp:1125-1239 | While latched, with no arming between its store and its commit, controlStarted_ is false |
| `Safety.NoTrackingAfterLatch` | bridge/robot_bridge/src/bridge_core.cpp:1178-1239 | A tracking frame after a latched moment comes after a successful reset, then an arming begun after it, then that same arming passing its gates |
| `Safety.CommitIffNoStop` | bridge/robot_bridge/src/bridge_core.cpp:1193-1239 | commitArm succeeds if and only if no thread stopped the robot since this arming read the generation; then the robot is still tracking and ends armed, else latched |
| `Safety.TickOutcome` | bridge/robot_bridge/src/bridge_core.cpp:775-801 | What a tick sends and leaves in every case: a finite tracking frame, a stop frame, nothing, or the silence of a latch whose last state is over 1.2 s old |
| `Safety.LatchedKeepsPublishingIff` | bridge/robot_bridge/src/estop.cpp:204-207 | A latched robot that sends frames sends one at a tick, and goes on, if and only if the last state is at most 1.2 s old |
| `Safety.TickSends` | bridge/robot_bridge/src/bridge_core.cpp:784-801 | A tick with a finite frame sends one exactly while a source is on and no silence is due; a tracking frame only when tracking and not latched |
| `Safety.NoGap` | bridge/robot_bridge/src/bridge_core.cpp:775-801 | Once a frame source is on, only the silence of the latch ends it: no stop, fault, reset, refused or granted arming does, over any run |
| `Safety.NoGapOnFreshStates` | bridge/robot_bridge/src/bridge_core.cpp:775-801 | While states arrive, every later tick with a finite frame sends one: no stop, fault, reset, refused or granted arming opens a gap |
| `Safety.SilenceBegins` | bridge/robot_bridge/src/estop.cpp:374-383 | The tick that silences the latch sends nothing and leaves a silent state, even with an arming past its gates or its store |
| `Safety.SilentUntilArmed` | bridge/robot_bridge/src/estop.cpp:374-383 | A silent state sends nothing again before the gates of an arming pass, over any run |
| `Safety.NothingAfterSilence` | bridge/robot_bridge/src/bridge_core.cpp:775-801 | A frame after a silence comes after a successful reset, then an arming begun after it, then that same arming passing its gates |
| `Safety.ShutdownForEver` | bridge/robot_bridge/src/G1_bridge.cpp:369-379 | After the shutdown callback, on every run: latched in damp, no reset, no granted arming, no tracking frame |
| `Safety.RestartCallbackEnds` | bridge/robot_bridge/src/bridge_core.cpp:160-181 | The callback that sees a restart ends with nothing tracking and no arming, reset or pose past the link check |
| `Safety.RestartForEver` | bridge/robot_bridge/src/bridge_core.cpp:160-220 | After that callback no reset succeeds, no arming passes its gates and no tracking frame is sent, for ever |
| `HoldLaws.DampToHold` | bridge/robot_bridge/src/estop.cpp:318-320 | While stopped, only an operator hold turns damp into hold |
| `HoldLaws.HoldPose` | bridge/robot_bridge/src/bridge_core.cpp:1131-1142 | Every moment of a hold has one entry stop, holds the pose measured there, and the hold lasted ever since |
| `HoldLaws.HoldSurvivesFault` | bridge/robot_bridge/src/bridge_core.cpp:762-773 | An operator hold and its pose outlive a fault that lasts unchanged, for any number of ticks |
| `HoldLaws.OperatorHoldSettles` | bridge/robot_bridge/src/bridge_core.cpp:762-773 | An operator hold from any phase holds the pose measured now, and reaches the state the lemma above starts from if and only if no stop is pending in the control loop |
| `HoldLaws.PendingFaultKeepsHoldIff` | bridge/robot_bridge/src/bridge_core.cpp:762-773 | A fault detected before an operator hold and stopping after it leaves the hold if and only if the mode configured for that fault is hold |
| `FaultLaws.NewFaultStopsIff` | bridge/robot_bridge/src/bridge_core.cpp:755-809 | On every run: a check stops the robot for a state fault if and only if the fault noted last, by a check, by a frame that was not finite or by a pass with nothing to watch, is another one |
| `FaultLaws.FirstFaultStopsIff` | bridge/robot_bridge/src/estop.cpp:227-232 | Before anything was noted, for any of the three state faults |
| `FaultLaws.DueStopComesFirst` | bridge/robot_bridge/src/bridge_core.cpp:762-773 | Between a check that stops and the next tick the stop is carried out: the robot is latched and tracks nothing |
| `FaultLaws.LostFrameIsInvalid` | bridge/robot_bridge/src/bridge_core.cpp:784-801 | A tracking frame that is not finite is not sent and sends the loop to the stop for an invalid state; no other tick does |
| `FaultLaws.StopFromIdle` | bridge/robot_bridge/src/bridge_core.cpp:1125-1156 | On every run: the latch after a stop of an idle robot, with frames exactly if it was tracking |
| `FaultLaws.StopFromStop` | bridge/robot_bridge/src/bridge_core.cpp:1125-1156 | On every run: the latch after a stop of a stopped or latched robot |
| `FaultLaws.EveryPassTicks` | bridge/robot_bridge/src/bridge_core.cpp:755-809 | While the robot tracks, or stop frames are on, no pass of the loop ends without a tick |
| `FaultLaws.ResetOutcome` | bridge/robot_bridge/src/bridge_core.cpp:1421-1448 | A reset succeeds exactly on a latched robot that is not shutting down and whose cause is gone, and keeps its frames; any other changes nothing |
| `FaultLaws.CommandOutcome` | bridge/robot_bridge/src/bridge_core.cpp:677-731 | A command goes to its section exactly when checked, allowed and tracking; there it is taken exactly while not arming, not limp and for the controller of the stream |
| `FaultLaws.LinkOutcome` | bridge/robot_bridge/src/bridge_core.cpp:160-181 | A sample that ends a gap with a tick that did not grow is a restart, and takes the executor to a stop unless the robot is disarmed |
| `FaultLaws.MeasuredOutcome` | bridge/robot_bridge/src/G1_bridge.cpp:174-225 | On every run only a state message changes a measured joint, and only those it carries |
| `FaultLaws.CommitOutcome` | bridge/robot_bridge/src/bridge_core.cpp:1223-1239 | A granted arming leaves the robot armed, or limp under motor_pd without a stream; a refused one clears what it had set and nothing else |
| `FaultLaws.PoseOutcome` | bridge/robot_bridge/src/bridge_core.cpp:1481-1493 | Ready and Zero run motor_pd and end a limp arming; the stream goes on |
| `FaultLaws.PoseIsAllowed` | bridge/robot_bridge/src/bridge_core.cpp:1469-1493 | A pose is applied only after its own callback passed the gates of a tracking robot or had its arming granted |
| `Streams.PublishedIsCurrent` | bridge/robot_bridge/src/bridge_core.cpp:1100-1148 | After every step the atomics mirror the latch and /robot_link says what the watch knows; /bridge_state says phase, mode, cause and silence while no arming is under way |
| `Streams.StreamTracks` | bridge/robot_bridge/src/bridge_core.cpp:573-577 | A stream runs only while tracking, and the tick runs its controller or motor_pd |
| `Streams.OneController` | bridge/robot_bridge/src/bridge_core.cpp:689-730 | All commands accepted between two stream ends name one controller |
| `Streams.MotorPdSinceStop` | bridge/robot_bridge/src/bridge_core.cpp:573-577 | From every stop to the next accepted command the tick runs motor_pd and no stream |
| `Streams.CommitRunsMotorPdIff` | bridge/robot_bridge/src/bridge_core.cpp:1223-1239 | A granted commit runs motor_pd if and only if it is limp or motor_pd ran before it |
| `Streams.ArmKeepsController` | bridge/robot_bridge/src/bridge_core.cpp:1178-1239 | At every point of an arming before its commit, whatever stops fall into it: latched, or still under the controller and limp flag it began with |
| `Streams.ArmRunsMotorPdIff` | bridge/robot_bridge/src/bridge_core.cpp:1178-1239 | Over a whole arming, from its begin to its granted commit: motor_pd runs after it if and only if it is limp or motor_pd ran when it was asked for |
| `Streams.ArmUnderBridgePd` | bridge/robot_bridge/src/bridge_core.cpp:1178-1239 | A run in which the second /start_control inside a bridge_pd stream ends armed under bridge_pd |
| `Gates.WindowCutsTorque` | bridge/robot_bridge/src/gates.cpp:19-28 | Gate 4 in torques: the spring torque of the windowed target plus damping and feedforward is the wanted torque cut to the limit |
| `Gates.SerialTorque` | bridge/robot_bridge/src/bridge_core.cpp:882-896 | A serial joint with a spring applies what its controller asked for, cut to the limit |
| `Gates.ParallelTorque` | bridge/robot_bridge/src/bridge_core.cpp:885-895 | A converted parallel joint applies the windowed spring, clamped once more, and its damping |
| `Gates.SpringlessTorque` | bridge/robot_bridge/src/bridge_core.cpp:883-895 | Without a spring the damping goes out with the clamped feedforward, unless the conversion dropped it |
| `Gates.TorqueBoundIff` | bridge/robot_bridge/src/bridge_core.cpp:862-896 | For any controller output the torque of the frame is within the limit if and only if: serial with a spring; parallel with one and damping within twice the limit; without one, what goes out is within it |
| `Gates.BridgePdBounded` | bridge/robot_bridge/src/controllers.cpp:26-38 | Every bridge_pd frame is within the torque limit, serial or parallel |
| `Gates.ControllersAgree` | bridge/robot_bridge/src/controllers.cpp:13-39 | On a serial joint with kp above 1e-6 and an admissible feedforward, motor_pd and bridge_pd realise the same torque: the PD torque cut to the limit |
| `Gates.ControllersAgreeIff` | bridge/robot_bridge/src/controllers.cpp:13-39 | For every kp, serial and parallel, both controllers apply the same torque if and only if: serial with a spring; parallel with one, damping within twice the limit and the cut of the spring and the dropped feedforward not telling; without one, what goes out needs no cut and the spring adds nothing |
| `Gates.LastIsMotorPdFrame` | bridge/robot_bridge/src/bridge_core.cpp:874-881 | What the next ramp starts from is the motor_pd frame itself on a serial joint |
| `Gates.HoldTorque` | bridge/robot_bridge/src/estop.cpp:242-279 | A hold frame pulls toward the hold pose with exactly the spring torque cut to the limit, in serial and parallel form alike |
| `Gates.DampTorque` | bridge/robot_bridge/src/estop.cpp:255-259 | A damp frame applies damping and nothing else |
| `Ramp.PhaseNeverFalls` | bridge/robot_bridge/src/bridge_core.cpp:813-817 | A later tick is never earlier in the ramp |
| `Ramp.ReturnsToRange` | bridge/robot_bridge/src/gates.cpp:8-17 | Whatever the command: in range the target stays in range; from outside it comes one full step closer each tick, or all the way |
| `Ramp.StaysInRange` | bridge/robot_bridge/src/gates.cpp:8-17 | Once in range the target never leaves it again, over any run |
| `Ramp.AimAhead` | bridge/robot_bridge/src/bridge_core.cpp:826-838 | At every tick of a move the interpolated target lies between the last one and the goal |
| `Ramp.RampLaw` | bridge/robot_bridge/src/bridge_core.cpp:813-846 | For every interpolation order in [0, 1] the target moves monotonically toward the goal, never past it, at most one step a tick |
| `Ramp.GainsRamp` | bridge/robot_bridge/src/bridge_core.cpp:974-998 | An order-1 command takes the gains from the last ones to its own in step with the position, sends its feedforward at once, and keeps the speed within its limit |
| `Ramp.Remaining` | bridge/robot_bridge/src/gates.cpp:8-17 | At order 0 what is left to go after n ticks is the distance less n steps, or nothing |
| `Ramp.LandsExactly` | bridge/robot_bridge/src/gates.cpp:8-17 | At order 0 the target is on the goal after n ticks if and only if n is at least ceil(distance / step) |
| `Ramp.FreeIffAdmits` | bridge/robot_bridge/src/gates.cpp:19-28 | Gate 4 leaves a target alone if and only if reaching it takes no more than the torque limit; without a spring, if it is the measured q |
| `Ramp.RoomyIsFree` | bridge/robot_bridge/src/bridge_core.cpp:813-881 | If at every measured state every target on the way can be reached within the limit, gate 4 never touches the ramp |
| `Ramp.StillTargetIff` | bridge/robot_bridge/src/gates.cpp:8-17 | Under a command to stand at a pose the next target is the pose if and only if the rate limit is off or the last one is within a step of it |
| `Ramp.HoldsStillIff` | bridge/robot_bridge/src/bridge_core.cpp:813-881 | n ticks leave lastCommand_ at the pose throughout if and only if holding it at rest takes no more than the torque limit at each |
| `RampTime.BodyInTime` | bridge/robot_bridge/src/bridge_core.cpp:956-1008 | From the moment a command of order 1 is taken every target is from + (to - from)(now - t0) / duration, the start before and exactly the command after; in q and dq where no gate cuts |
| `RampTime.BodyAtOnce` | bridge/robot_bridge/src/bridge_core.cpp:819-846 | A command of any other order sends gains and feedforward at once, whenever the tick; the filter leaves of the last value the part the order says |
| `RampTime.HandInTime` | bridge/robot_bridge/src/G1_bridge.cpp:649-735 | From a command on, every live hand frame is on that way, in the duration of the command, from its last frame |
| `RampTime.HandStartsInTime` | bridge/robot_bridge/src/G1_bridge.cpp:836-878 | From a start on, every live hand frame is on the way to the ready pose in the configured time, from the last frame or the measured pose at no gain |
| `MotorPipeline.Pipeline.InterpolationParams` | bridge/robot_bridge/src/bridge_core.cpp:956-1008 | Every joint gets the ramp from its last command, or the held one, with its times and its deadline; an invalid order throws with nothing else written |
| `MotorPipeline.Pipeline.MakeTargets` | bridge/robot_bridge/src/bridge_core.cpp:811-853 | The first loop of trackingFrame_ leaves the interpolated, range- and rate-gated target of every joint |
| `MotorPipeline.Pipeline.Compute` | bridge/robot_bridge/src/controllers.cpp:13-39 | motor_pd leaves the targets, bridge_pd the PD at the measured state with no gains, a plugin anything of the same size |
| `MotorPipeline.Pipeline.FinishFrame` | bridge/robot_bridge/src/bridge_core.cpp:862-902 | The second loop leaves, per joint, the gated and converted frame and the next ramp start, and says whether the whole frame is finite |
| `MotorPipeline.Pipeline.TrackingFrame` | bridge/robot_bridge/src/bridge_core.cpp:811-903 | One tick maps the whole state by the per-joint pipeline, flags an invalid frame, and returns true exactly for a finite one |
| `MotorPipeline.Pipeline.PublishLow` | bridge/robot_bridge/src/G1_bridge.cpp:252-275 | A frame goes out exactly when it is finite |
| `MotorPipeline.Pipeline.Seed` | bridge/robot_bridge/src/G1_bridge.cpp:277-297 | Arming seeds every ramp with the measured pose in range, at rest, and the config gains |
| `MotorPipeline.Pipeline.Aim` | bridge/robot_bridge/src/G1_bridge.cpp:301-331 | The goal of the second ramp: the default command in range, or the ready pose at the configured gains; dq and tau stay those of the seed |
| `MotorPipeline.Pipeline.SetPose` | bridge/robot_bridge/src/bridge_core.cpp:742-752 | The pose at rest, with the configured gains |
| `MotorPipeline.Pipeline.StopCommand` | bridge/robot_bridge/src/G1_bridge.cpp:333-362 | Every joint is sent its stop frame, which is also where the next ramp starts |
| `PipelineLaws.TargetExact` | bridge/robot_bridge/src/bridge_core.cpp:819-846 | On finite values the targets on floats are the exact ones |
| `PipelineLaws.ParamsExact` | bridge/robot_bridge/src/bridge_core.cpp:956-998 | On finite values the ramp of a stored command is the exact one |
| `PipelineLaws.FinishExact` | bridge/robot_bridge/src/bridge_core.cpp:883-895 | On finite values what goes out is the exact command, whatever the controller |
| `PipelineLaws.NextLastExact` | bridge/robot_bridge/src/bridge_core.cpp:874-881 | On finite values the next ramp start is the exact one |
| `PipelineLaws.LastFollows` | bridge/robot_bridge/src/bridge_core.cpp:871-881 | Up to kp 1e-6 the next ramp starts from the measured q, above it from the target cut to the torque limit; nothing else of the target changes |
| `PipelineLaws.ConvertsIff` | bridge/robot_bridge/src/bridge_core.cpp:871-895 | A motor_pd frame carries its spring in the feedforward exactly on a parallel joint of a robot that does not map its own, once a command or an arming came in |
| `PipelineLaws.StopFrameExact` | bridge/robot_bridge/src/estop.cpp:242-279 | On finite values a stop frame is the exact one |
| `PipelineLaws.StopFrameFinite` | bridge/robot_bridge/src/estop.cpp:242-279 | A stop frame is finite on any state; without a finite measured q it is pure damping at q 0 |
| `PipelineLaws.TargetFiniteIff` | bridge/robot_bridge/src/gates.cpp:8-17 | At one tick: a target is finite if and only if no low-pass takes over a NaN; any other corrupt last command restarts from the range |
| `PipelineLaws.MotorPdFiniteIff` | bridge/robot_bridge/src/bridge_core.cpp:882-902 | For any measured q and dq at all: when a motor_pd frame is finite, both directions; a NaN window centre sends a serial target unwindowed |
| `PipelineLaws.BridgePdFiniteIff` | bridge/robot_bridge/src/controllers.cpp:26-38 | For any measured q and dq at all: a bridge_pd frame is finite if and only if q is finite and the damping torque is no NaN |
| `PipelineLaws.NaNTargetIsLost` | bridge/robot_bridge/src/bridge_core.cpp:882-902 | A NaN target with a spring never passes the finite check, under either controller |
| `PipelineLaws.KeptNaNIsLost` | bridge/robot_bridge/src/bridge_core.cpp:874-902 | A tick that leaves a NaN in lastCommand_ loses its frame, under either controller, with a spring or without |
| `PipelineLaws.ControllerIndependent` | bridge/robot_bridge/src/bridge_core.cpp:859-881 | Over whole runs the same commands, times and states give the same targets and lastCommand_, whatever controllers run and whenever they change |
| `PipelineLaws.NoFrameLost` | bridge/robot_bridge/src/bridge_core.cpp:897-902 | Over whole runs finite states and checked commands never cost a frame: one goes out for every tick and stop, and every ramp start stays finite |
| `PipelineLaws.SentAlwaysFinite` | bridge/robot_bridge/src/bridge_core.cpp:897-902 | Every frame ever sent is finite: any start, any NaN or infinity in states and commands, any plugin, over any run |
| `PipelineLaws.SentTorqueIff` | bridge/robot_bridge/src/bridge_core.cpp:862-896 | The torque bound, both directions, on the frame arrays of the robot |
| `PipelineLaws.RunsAsRamp` | bridge/robot_bridge/src/bridge_core.cpp:811-881 | Under one command the lastCommand_ of each joint runs exactly as in module Ramp, so its laws hold of the robot |
| `RobotRamp.NaNTargetIff` | bridge/robot_bridge/src/bridge_core.cpp:813-881 | After any ticks the next target is NaN if and only if a low-pass runs and a NaN came in, at the start or from the measured q of a tick without a spring, with a spring at every tick since |
| `RobotRamp.NaNOnHealthyStateIff` | bridge/robot_bridge/src/bridge_core.cpp:813-881 | On finite states: if and only if a low-pass runs, the start is NaN and kp is above 1e-6 at every tick before |
| `RobotRamp.RobotRamps` | bridge/robot_bridge/src/bridge_core.cpp:811-881 | On the arrays of the robot: with room for gate 4 every tick of a move brings the joint toward the goal, never past it, by at most one step |
| `RobotRamp.RobotLands` | bridge/robot_bridge/src/bridge_core.cpp:811-881 | On the arrays of the robot, at order 0: on the goal after n ticks if and only if n is at least ceil(distance / step) |
| `RobotRamp.SeededTargetIff` | bridge/robot_bridge/src/G1_bridge.cpp:277-301 | Any number of ticks after the seed of an arming the next target is at rest, and is the pose if and only if gate 2 can reach it from lastCommand_ in one step |
| `RobotRamp.ArmingHoldsStillIff` | bridge/robot_bridge/src/G1_bridge.cpp:277-301 | lastCommand_ of the robot is at the pose after the seed and after each tick if and only if at each of them holding the pose takes no more than the torque limit |
| `Lowcmd.ThreadsRun` | bridge/robot_bridge/src/bridge_core.cpp:755-809 | What the threads do beside the pipeline is a run of the threads, so every law of theirs holds of it |
| `Lowcmd.StepAdds` | bridge/robot_bridge/src/bridge_core.cpp:784-801 | At every step of every interleaving /lowcmd gets exactly the frame the threads send, with the fields the pipeline gives it, and nothing else |
| `Lowcmd.OnlyFiniteFrames` | bridge/robot_bridge/src/bridge_core.cpp:897-902 | On every interleaving, whatever states, commands and plugins hold, every frame on /lowcmd is finite |
| `Lowcmd.HoldFramesHoldTheEntryPose` | bridge/robot_bridge/src/G1_bridge.cpp:333-362 | Every stop frame sent during a hold is, joint by joint, the one toward the pose measured at the entry into the hold |
| `Lowcmd.OverdueStops` | bridge/robot_bridge/src/bridge_core.cpp:762-773 | A check of a tracking robot without a new fault stops it for a command timeout if and only if the deadline of the stored command is past |
| `Lowcmd.NoSecondNaN` | bridge/robot_bridge/src/bridge_core.cpp:755-809 | On every interleaving, after a tick of motor_pd or bridge_pd that leaves a NaN in lastCommand_, a tracking tick comes only after a reset, then an arming begun after it, then its gates |
| `LowcmdStores.SeedOutcome` | bridge/robot_bridge/src/G1_bridge.cpp:277-299 | On every interleaving: the seed of an arming leaves every joint where it was measured, in range, at rest, without feedforward and to be held at the configured gains |
| `LowcmdStores.StoreOutcome` | bridge/robot_bridge/src/G1_bridge.cpp:301-302 | Publishing begins with the store of the bridge's own pose, which from then on is converted on a parallel joint like any received command |
| `LowcmdStores.ArmingStands` | bridge/robot_bridge/src/G1_bridge.cpp:277-304 | A tracking tick between the two ramps of an arming asks for that pose, at rest, with no feedforward and at the configured gains, whatever ran before; it is at it if and only if the rate limit reaches it |
| `LowcmdStores.ArmingRamps` | bridge/robot_bridge/src/G1_bridge.cpp:301-331 | The second ramp goes from lastCommand_ at its start to the position asked for or the ready pose in the configured time, at rest and with no feedforward; limp, its gains fade to 0 |
| `LowcmdStores.PoseInTime` | bridge/robot_bridge/src/bridge_core.cpp:1481-1487 | Ready and Zero ramp from lastCommand_ to their pose in the configured time at the configured gains |
| `LowcmdStores.CommandOutcome` | bridge/robot_bridge/src/bridge_core.cpp:706-730 | A command that is taken is stored with its ramp, its times and its deadline, 0.2 s after its end or none; any other changes nothing |
| `LowcmdStores.CommandInTime` | bridge/robot_bridge/src/bridge_core.cpp:706-846 | From the moment a command is taken until the next store every target is where its order and the clock say |
| `LowcmdStores.CommandTimesOutIff` | bridge/robot_bridge/src/bridge_core.cpp:766-773 | With no fault, a check stops the tracking robot for a command timeout if and only if the command was not to hold and its ramp is over for more than 0.2 s |
| `LowcmdStores.DampFrames` | bridge/robot_bridge/src/G1_bridge.cpp:333-362 | A stop tick in damp sends every joint damping alone at the measured pose, and the next ramp starts there |
| `LowcmdTorque.StoredIsTame` | bridge/robot_bridge/src/bridge_core.cpp:1241-1295 | What the command check stores has a finite value in every slot and its feedforward within the torque limit of the joint |
| `LowcmdTorque.AlwaysTame` | bridge/robot_bridge/src/bridge_core.cpp:811-1008 | On every interleaving with checked commands and finite states everything stored stays finite and every feedforward within its limit, plugins included |
| `LowcmdTorque.SentWithinLimitIff` | bridge/robot_bridge/src/bridge_core.cpp:859-902 | Every tracking frame on /lowcmd: the torque of a joint is within its limit if and only if Bounded held of what its controller put out; always under bridge_pd |
| `LowcmdTorque.ControllersAgreeOnLowcmdIff` | bridge/robot_bridge/src/controllers.cpp:13-39 | At every tracking frame on /lowcmd motor_pd and bridge_pd would apply the same torque to a joint if and only if its target meets the exact condition |
| `Commands.CheckMotorCmd` | bridge/robot_bridge/src/bridge_core.cpp:1241-1295 | Refused exactly when not finite or unreasonably large; else clipped, and reported clipped exactly when it was not admissible |
| `Commands.AcceptedIff` | bridge/robot_bridge/src/bridge_core.cpp:1244-1262 | Accepted means finite and within 50 rad, 100 rad/s, 1000 Nm, kp 10000 and kd 1000 |
| `Commands.ClippedIsAdmissible` | bridge/robot_bridge/src/bridge_core.cpp:1269-1294 | Clipping puts gains, dq and tau in their limits, changes nothing of an admissible command, and never touches q |
| `Commands.CheckCommand` | bridge/robot_bridge/src/bridge_core.cpp:1297-1345 | Accepted exactly with a good order, duration, size and every joint acceptable; then every joint is clipped, else each is clipped or untouched |
| `Commands.CheckIsIdempotentIff` | bridge/robot_bridge/src/bridge_core.cpp:1269-1294 | Clipping twice is clipping once; a clipped command passes again if and only if clipping left its gains reasonable |
| `Plane.InverseUndoes` | bridge/robot_bridge/include/t1_parallel_ankle.hpp:141-152 | invert and mul: the inverse undoes the matrix |
| `Plane.TransposeUndoes` | bridge/robot_bridge/include/t1_parallel_ankle.hpp:141-157 | invert and mulT: the inverse undoes the transposed matrix |
| `Plane.SolveIsInverse` | robot_stacks/sim/robot_sim/robot_sim/t1_parallel_ankle.py:86-90 | Solving the system equals multiplying with the inverse, and solves it |
| `Newton.WrapsAgree` | bridge/robot_bridge/include/t1_parallel_ankle.hpp:74-79 | The two wraps are equal, in [-pi, pi), and a whole number of turns from the angle |
| `Newton.SerialAngles` | bridge/robot_bridge/include/t1_parallel_ankle.hpp:161-204 | The C++ loop computes the recursive C++ inverse, and goes through exactly its iterates |
| `Newton.TraceDescends` | bridge/robot_bridge/include/t1_parallel_ankle.hpp:178-202 | Every two consecutive iterates: the later is the first halving of the Newton step with margin >= 0 and a strictly smaller residual |
| `Newton.TraceEnds` | bridge/robot_bridge/include/t1_parallel_ankle.hpp:174-203 | The last iterate is the answer |
| `Newton.StepSolves` | bridge/robot_bridge/include/t1_parallel_ankle.hpp:178-182 | The Jacobian takes the Newton step to minus the wrapped residual |
| `Newton.HalvedIsQuotient` | bridge/robot_bridge/include/t1_parallel_ankle.hpp:184-200 | Candidate k of a step is at its 2^k-th part |
| `Newton.StopsOnlyThere` | bridge/robot_bridge/include/t1_parallel_ankle.hpp:174-203 | The loop ends exactly within tol, out of iterations, at a Jacobian it cannot invert, or where none of 20 halvings is better |
| `Newton.FoundIsClose` | bridge/robot_bridge/include/t1_parallel_ankle.hpp:203-203 | Success means a residual below tol_ok |
| `Newton.SerialAnglesPy` | robot_stacks/sim/robot_sim/robot_sim/t1_parallel_ankle.py:76-99 | The Python loop computes the recursive Python inverse, and goes through exactly its iterates |
| `Newton.TwinsAgree` | robot_stacks/sim/robot_sim/robot_sim/t1_parallel_ankle.py:76-99 | From one start both go through the same iterates, to one pose and one residual |
| `Newton.VerdictsAgreeIff` | bridge/robot_bridge/include/t1_parallel_ankle.hpp:178-203 | C++ success is a Python residual below tol_ok, except exactly where the loop ends with an iteration left, short of tol, at a singular Jacobian |
| `Newton.ExactStart` | bridge/robot_bridge/include/t1_parallel_ankle.hpp:174-178 | A warm start that already solves the problem is the answer |
| `Ankle.CrankCommand` | bridge/robot_bridge/include/t1_parallel_ankle.hpp:224-259 | crankCommand, its loops included, is: fail without a pose or an inverse, else the crank torque of the serial law cut to the limit plus what the drivers damping takes |
| `Ankle.RawIsWanted` | bridge/robot_bridge/include/t1_parallel_ankle.hpp:236-250 | Splitting Kd_m into its diagonal and the rest leaves kd (0 - dq_m) + tau_raw equal to J^-T tau_s |
| `Ankle.DriversDampTheirCrank` | bridge/robot_bridge/include/t1_parallel_ankle.hpp:230-247 | The gain of a driver is what the torque of the serial law at its crank loses per unit of its speed |
| `Ankle.GoodCrank` | bridge/robot_bridge/include/t1_parallel_ankle.hpp:206-222 | Any good command realises its serial law at the estimated state, cut to the limit |
| `Ankle.ExactCrank` | bridge/robot_bridge/include/t1_parallel_ankle.hpp:224-259 | From the exact state the command realises the law at that state, and fails exactly when its Jacobian cannot be inverted |
| `Cranks.MapAnklesToCranks` | bridge/robot_bridge/src/T1_bridge.cpp:365-415 | Both ankles are mapped or neither: on success exactly the four ankle slots change, per swap and sign; on failure nothing does |
| `CrankRoundTrip.CrankState` | robot_stacks/sim/robot_sim/robot_sim/robots/t1.py:112-118 | The simulated cranks: angles and speeds of the map in the ankle slots, the serial state elsewhere |
| `CrankRoundTrip.SerialCommand` | robot_stacks/sim/robot_sim/robot_sim/robots/t1.py:121-132 | The simulated joints: J^T of the clipped crank torque in the ankle slots, with no gains; the command elsewhere |
| `CrankRoundTrip.MotorTorque` | bridge/robot_bridge/src/T1_bridge.cpp:401-413 | Whatever state and signs: a crank motor applies s times the cut crank torque plus kd dq (s s - 1) |
| `CrankRoundTrip.MotorWithinLimit` | bridge/robot_bridge/include/t1_parallel_ankle.hpp:251-256 | At signs 1 and -1, whatever the state, no crank motor applies more than the limit at the measured speed |
| `CrankRoundTrip.RoundTrip` | robot_stacks/sim/robot_sim/robot_sim/robots/t1.py:121-132 | Where both Jacobians can be inverted the mapping succeeds, and for either sign and swap the serial torque of the robot is J^T of J^-T tau_s cut to the smaller limit; exactly tau_s where no limit bites |
| `CrankRoundTrip.RoundTripPd` | robot_stacks/sim/robot_sim/robot_sim/robots/t1.py:121-132 | Joints 15, 16, 21 and 22 get kp (q_ref - q) + kd (dq_ref - dq) + tau of their serial commands and no gains, where no limit bites |
| `CrankRoundTrip.MappedHolds` | bridge/robot_bridge/src/T1_bridge.cpp:401-413 | A mapped motor is told to stay at its measured angle with no stiffness, in the slot the wiring says |
| `CrankRoundTrip.MapsCloseEstimatesIff` | bridge/robot_bridge/src/T1_bridge.cpp:390-394 | An ankle is mapped exactly on a good command whose estimate is within the configured distance of the firmware, in both joints |
| `CrankRoundTrip.RoundTripHappensIff` | bridge/robot_bridge/src/T1_bridge.cpp:394-398 | On a faithful robot the mapping succeeds if and only if both Jacobians can be inverted |
| `CrankRoundTrip.OthersUntouched` | bridge/robot_bridge/src/T1_bridge.cpp:401-413 | No other joint command changes on the way there and back |
| `CrankSigns.OnlyUnitSigns` | bridge/robot_bridge/src/T1_bridge.cpp:329-413 | In any pose the mapping accepts, under any command with damping: every crank motor keeps the limit at every measured speed if and only if the signs are 1 or -1 |
| `CrankSigns.RoundTripNeedsUnitSigns` | bridge/robot_bridge/src/T1_bridge.cpp:329-413 | At rest with the cranks at zero the serial law comes back for every command within the limits if and only if the signs are 1 or -1 |
| `CrankRoundTrip.SimWiring` | robot_stacks/sim/robot_sim/robot_sim/robots/t1.py:62-65 | The wiring of the simulated robot, no swap and signs 1, is the identity |
| `Crc.Crc32Core` | bridge/robot_bridge/src/common/motor_crc.cpp:56-82 | The bitwise loops compute the remainder of the frame bits, most significant first |
| `Crc.CrcTable` | robot_stacks/sim/robot_sim/robot_sim/robots/go2.py:40-48 | Entry b is eight division steps on b at the top of the register |
| `Crc.Crc32Words` | robot_stacks/sim/robot_sim/robot_sim/robots/go2.py:54-59 | The table form over big-endian bytes computes the same CRC |
| `Crc.TableIsBitwise` | robot_stacks/sim/robot_sim/robot_sim/robots/go2.py:54-59 | For every word sequence the table form equals the bitwise one |
| `Crc.BytesAreBigEndian` | robot_stacks/sim/robot_sim/robot_sim/robots/go2.py:57-57 | The bytes fed are those of the word, most significant first |
| `Crc.FeedInjective` | bridge/robot_bridge/src/common/motor_crc.cpp:63-80 | The same bits never bring two registers together |
| `Crc.OneWordDetected` | bridge/robot_bridge/src/common/motor_crc.cpp:56-82 | Changing one word of a frame changes its CRC, if and only if the word changes |
| `Crc.BurstDetected` | bridge/robot_bridge/src/common/motor_crc.cpp:56-82 | Frames that differ at most within 32 consecutive bits, anywhere, share a CRC if and only if they are equal |
| `CrcStandard.CrcIsRemainder` | bridge/robot_bridge/src/common/motor_crc.cpp:56-82 | The CRC of a frame, and no other polynomial below x^32, is the remainder of its bits, padded with 32 zeros and their first 32 inverted, by the generator of CRC-32/MPEG-2 written out |
| `CrcStandard.PolyTells` | bridge/robot_bridge/src/common/motor_crc.cpp:56-82 | A register is determined by its polynomial |
| `CrcStandard.KnownValues` | bridge/robot_bridge/src/common/motor_crc.cpp:56-82 | One bit on an empty register leaves 0x04C11DB7; the CRC of nothing is 0xFFFFFFFF, of a zero word 0xC704DD7B |
| `Pacer.GoalPacer.ExtendQueue` | robot_stacks/g1/g1_stack/g1_stack/gear/pacer.py:42-46 | A chunk joins the end of the queue and nothing else changes |
| `Pacer.GoalPacer.AskToggle` | robot_stacks/g1/g1_stack/g1_stack/gear/pacer.py:48-57 | A request leaves one pending toggle, however often it is asked |
| `Pacer.GoalPacer.ClearQueue` | robot_stacks/g1/g1_stack/g1_stack/gear/pacer.py:59-63 | What is queued is dropped, nothing that was popped |
| `Pacer.GoalPacer.PopNext` | robot_stacks/g1/g1_stack/g1_stack/gear/pacer.py:72-77 | The oldest goal is popped and remembered, or the last one is a hold, or there is none |
| `Pacer.GoalPacer.SendCopy` | robot_stacks/g1/g1_stack/g1_stack/gear/pacer.py:79-94 | A fresh object with the entries of the goal, stamped and with the pending toggle, goes out; the goal is not written |
| `Pacer.GoalPacer.Interleave` | robot_stacks/g1/g1_stack/g1_stack/gear/pacer.py:42-94 | Any interleaving, carried out on the objects: no goal ever changes, and every message is an object of its own with the entries of its goal, stamped |
| `Pacer.MessageSays` | robot_stacks/g1/g1_stack/g1_stack/gear/pacer.py:82-90 | A message has target_time, timestamp and, if it took the toggle, toggle_policy_action; every other entry is that of its goal |
| `Pacer.AlwaysConserved` | robot_stacks/g1/g1_stack/g1_stack/gear/pacer.py:42-94 | However the threads interleave: every goal is queued, popped or dropped once and in order; sent goals without holds are the popped ones; a hold repeats the last of them; no toggle is lost or doubled |
| `Pacer.NothingDropped` | robot_stacks/g1/g1_stack/g1_stack/gear/pacer.py:42-94 | With nothing dropped, what was queued is what went out, then the one in hand, then the queue |
| `Pacer.StampedOnTheWayOut` | robot_stacks/g1/g1_stack/g1_stack/gear/pacer.py:83-86 | Every message sent carries the time of the step that sent it, and a target time one period later |
| `Pacer.TogglePendingIff` | robot_stacks/g1/g1_stack/g1_stack/gear/pacer.py:48-90 | A toggle is pending if and only if one was asked for since the last message |
| `Pacer.CarriesToggleIff` | robot_stacks/g1/g1_stack/g1_stack/gear/pacer.py:84-90 | A message carries the added toggle if and only if one was asked for since the message before |
| `Pacer.StoredGoalsUntouched` | robot_stacks/g1/g1_stack/g1_stack/gear/pacer.py:82-90 | Every goal queued or kept for repeating is one of the objects the producer queued |
| `Pacing.RunUntil` | robot_stacks/g1/g1_stack/g1_stack/gear/pacer.py:96-116 | The loop starts its ticks when the recursion on deadlines says, stall branch included |
| `Pacing.OnTime` | robot_stacks/g1/g1_stack/g1_stack/gear/pacer.py:96-116 | If work plus sleep lateness E fit in a period P, tick n starts in [t0 + nP, t0 + nP + E] for all n |
| `Pacing.NoBurst` | robot_stacks/g1/g1_stack/g1_stack/gear/pacer.py:111-114 | For any stalls, the k-th tick after another starts at least k - 2 periods after it |
| `Hands.HandChannel.OnState` | bridge/robot_bridge/src/G1_bridge.cpp:487-492 | A state message replaces the state of its hand and its time, and nothing else |
| `Hands.HandChannel.CheckState` | bridge/robot_bridge/src/G1_bridge.cpp:508-571 | True exactly for a fresh, long enough, finite, slow and cool enough state |
| `Hands.HandChannel.CheckCommand` | bridge/robot_bridge/src/G1_bridge.cpp:573-621 | Accepted exactly with the right size, duration and every joint acceptable; then clipped like a body command, and q to the finger range; refused, each joint is clipped or untouched |
| `Hands.HandChannel.OnCmd` | bridge/robot_bridge/src/G1_bridge.cpp:623-675 | A good command to a started, live hand ramps it from its last frame; any other changes nothing |
| `Hands.HandChannel.PublishOne` | bridge/robot_bridge/src/G1_bridge.cpp:677-735 | The frame is limp or the ramp at this phase, and is what the next ramp starts from |
| `Hands.HandChannel.OnTimer` | bridge/robot_bridge/src/G1_bridge.cpp:737-794 | One tick of one hand: the latch, the state check and the watchdog release it; a released hand gets limp frames until its state is gone |
| `Hands.HandChannel.OnStart` | bridge/robot_bridge/src/G1_bridge.cpp:818-878 | A hand with a good state goes live, from its last frame if it was live, else from the measured pose at zero gain; any other is released |
| `Hands.HandPair.OnTimer` | bridge/robot_bridge/src/G1_bridge.cpp:737-794 | Both hands take their own turn of the tick |
| `Hands.HandPair.Start` | bridge/robot_bridge/src/G1_bridge.cpp:818-879 | Both hands start on their own; hand control is on exactly if one did |
| `Hands.HandPair.Stop` | bridge/robot_bridge/src/G1_bridge.cpp:946-962 | Both hands are released and hand control is off |
| `HandLaws.FramesAlwaysGood` | bridge/robot_bridge/src/G1_bridge.cpp:677-794 | On every run, even on NaN states and commands: every hand frame is finite; a live one has each finger in range and dq and tau within limits; any other has no gain and no torque |
| `HandLaws.BuiltIsGood` | bridge/robot_bridge/src/G1_bridge.cpp:677-794 | The pair as built meets what the runs start from |
| `HandLaws.ReleasedStaysLimp` | bridge/robot_bridge/src/G1_bridge.cpp:737-794 | Once released a hand gets only limp frames or silence until hands are started again |
| `HandLaws.WatchdogReleases` | bridge/robot_bridge/src/G1_bridge.cpp:765-779 | Past the deadline of its last command a hand gets no live frame before another command or start for it, whatever else happens |
| `HandLaws.ReleasedHandGoesSlack` | bridge/robot_bridge/src/G1_bridge.cpp:781-792 | A hand released at a tick gets a limp frame while its state is at most 1.2 s old, and silence exactly otherwise |
| `HandLaws.SidesDoNotInterfere` | bridge/robot_bridge/src/G1_bridge.cpp:623-794 | Between service calls each hand sends exactly what it would alone, from its own messages, the ticks and the latch |
| `HandLaws.RampMeetsBothEnds` | bridge/robot_bridge/src/G1_bridge.cpp:649-675 | A command ramps a hand from exactly its last frame to exactly the stored command; only the feedforward steps |
| `HandLaws.StartRaisesGains` | bridge/robot_bridge/src/G1_bridge.cpp:836-877 | A start of a released hand begins at the measured pose with gains that rise from zero in step with the ramp |
| `HandSamples.CommandedHandGoesOnIff` | bridge/robot_bridge/src/G1_bridge.cpp:508-571 | After any run of messages: a tick of a live hand under a command sends a live frame if and only if no latch is seen, the last sample is fresh, complete, finite, slow and cool, and the command holds or ended at most 0.2 s ago |
| `HandSamples.StartedHandGoesOnIff` | bridge/robot_bridge/src/G1_bridge.cpp:737-794 | Without a command since its start a live hand goes on as long as its samples are good |
| `HandSamples.StartsOnGoodSampleIff` | bridge/robot_bridge/src/G1_bridge.cpp:818-879 | A start makes a hand live exactly on a good sample, and turns hand control on if it did so for either |
| `HandSamples.OnlyGoodMessagesCount` | bridge/robot_bridge/src/G1_bridge.cpp:573-640 | A command changes nothing unless hand control is on, the hand live and the message good |
| `HandSamples.SlackWhereItIs` | bridge/robot_bridge/src/G1_bridge.cpp:677-735 | A released hand whose state came within 1.2 s is told to go slack at its measured fingers |
| `HandSamples.StoppedHandsAreSilent` | bridge/robot_bridge/src/G1_bridge.cpp:946-962 | Once the hands are stopped nothing is sent to either until they are started again |
| `HandThreads.StartGoesOn` | bridge/robot_bridge/src/G1_bridge.cpp:796-816 | A hand start goes on only where neither a restart nor the latch stands against it, and then only past every gate |
| `HandThreads.NoLiveHandAfterLatch` | bridge/robot_bridge/src/G1_bridge.cpp:737-816 | On every interleaving with the three threads: after a tick that saw the latch, a live hand frame comes after a successful reset, then a hand start asked for, then that start applied |
| `HandThreads.NoLiveFrameBeforeReset` | bridge/robot_bridge/src/G1_bridge.cpp:746-758 | From any latched moment on, seen by a tick or not, no live hand frame goes out before a successful reset |
| `HandThreads.LiveFrameIff` | bridge/robot_bridge/src/G1_bridge.cpp:737-794 | On every interleaving without a start since the hand was live: a tick sends a live frame if and only if no service stopped the hands and no tick since, this one included, saw the latch or a failed check |
| `HandThreads.LatchReleasesIff` | bridge/robot_bridge/src/G1_bridge.cpp:746-779 | While the checks pass and nobody stops the hands: stops of any cause, however many, release a hand if and only if one is still latched at a tick |
| `HandThreads.MissedLatch` | bridge/robot_bridge/src/G1_bridge.cpp:746-779 | From every run with a live hand: a stop and its reset between two ticks, and the next tick sends a live frame |
| `HandThreads.HandOutlivesStop` | bridge/robot_bridge/src/G1_bridge.cpp:737-879 | Such a run from boot: a hand is started, the bridge latches with it live, and it gets a live frame with no start in between |
| `Witnesses.SpringlessOverLimit` | bridge/robot_bridge/src/bridge_core.cpp:882-895 | kp 0: 10 Nm on a joint of 1 Nm |
| `Witnesses.ConvertedOverLimit` | bridge/robot_bridge/src/bridge_core.cpp:882-895 | A converted joint with a spring: 9 Nm on a joint of 1 Nm |
| `Witnesses.ControllersPartAtZero` | bridge/robot_bridge/src/controllers.cpp:13-39 | kp 0: 10 Nm under motor_pd, 1 under bridge_pd |
| `Witnesses.ControllersPartBelowThreshold` | bridge/robot_bridge/src/controllers.cpp:13-39 | kp 1e-6: no torque under motor_pd, the spring under bridge_pd |
| `Witnesses.NaNGoesUnwindowed` | bridge/robot_bridge/src/bridge_core.cpp:882-902 | A NaN q, and a NaN dq, each send a serial target as it is |
| `Witnesses.NaNLeavesWithoutSpring` | bridge/robot_bridge/src/bridge_core.cpp:874-881 | At kp 0 a NaN target goes with a finite frame, and the next ramp starts from the measured q |
| `Witnesses.ArmingSlips` | bridge/robot_bridge/src/G1_bridge.cpp:277-301 | Armed at 0 while moving at 5 rad/s: lastCommand_ slips to 0.4, and the second target is 0.399 |
| `Witnesses.SignTwoBreaksLimit` | bridge/robot_bridge/src/T1_bridge.cpp:329-413 | Signs 2, cranks that turn as their joints: the mapping accepts the state and command, and every motor of 1 Nm applies 30 |
| `Witnesses.HoldUndone` | bridge/robot_bridge/src/bridge_core.cpp:762-773 | A run in which an operator hold is turned into damp by a state loss detected before it |

## Left out

- ROS nodes, topics, services, logging, DDS discovery and the count of other publishers: a publish is a value returned or appended to a log, and the remote, other publishers and the arming gates are arbitrary booleans.
- Parameter loading: what it checks is required of the configuration (ordered ranges, limits >= 0, kp > 0, order in [0, 1]).
- Float rounding, overflow, subnormals and the sign of zero: finite floats are exact reals.
- The wrap of the 64-bit latch generation and of the robot's 32-bit tick.
- Trigonometry of the ankle geometry: the kinematics and the vector length are parameters, and everything holds of any.
- checkState_: which fault it sees at a check is an input of the protocol; its tests of age, size, finiteness, speed and tilt are not modelled for the body (for the hands they are).
- Bridge.BridgeCore.CommandSection: the stored command, its ramp and its deadline are in `MotorPipeline.Pipeline`, a class of its own; `Lowcmd` joins the two.
- Bridge.BridgeCore.PoseSection: as for CommandSection; the pose itself is in `MotorPipeline.Pipeline.SetPose` and `LowcmdStores.PoseInTime`.
- Bridge.BridgeCore.LowState: copies q alone; dq, tau, the IMU and the state time are left out, and `Lowcmd` takes the whole message of a tick as an input that agrees with it on q.
- In `Lowcmd` the commands that are stored are arbitrary: the path from a checked message to the stored one is in `Commands`, and so is gate 9, the check of a start pose, left to the caller.
- LowcmdTorque.SentWithinLimitIff: says nothing of a plugin's output that is not finite and that the clamps make finite; its feedforward would be the limit itself.
- The unlocked read `controlStarted_ || stopPublishing_` may skip one tick: the no-gap law is about the protected state at step boundaries, not about every tick.
- H1, H1_2, X2 and T1 arming (handlers that store `controlStarted_`, an `initControl_` that can fail), and the files that are not built.
- One clock reading stands for the several a section of the hand code takes.
- A plugin controller that resizes its output, and a hand path without configuration.
- Python's integers in the table CRC are 32-bit words: every left shift is masked to 32 bits before anything reads it.
- A producer that changes a goal after queueing it is not modelled; values inside a goal are immutable.
- The `%.1f` of the link text: ages are published as they are.
- Python clients, policies, cameras, MuJoCo physics, key tables, struct layouts and mode strings.
