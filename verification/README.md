# A verified model of the humanoid's inference and control stack

Thirteen components of the stack, from the joystick to the field bus, as Dafny modules. Doubles are
reals, integers are unbounded with their widths written out where they matter, bytes are 0..255. What the
source does by changing an object step by step is a class here, each method proved against a
function of the old state; what the source promises over whole runs is proved about those
functions.

| module | file | what it models |
|---|---|---|
| Arithmetic | Arithmetic.dfy | casts, and facts about products and quotients used by name |
| LowPassFilter | LowPassFilter.dfy | the second-order digital filter behind every walking command |
| DcSync | DcSync.dfy | the fixed-point clock controller of the EtherCAT loop and the wake-up times it steers |
| VelLimiter, Joystick, TwistLoop | VelLimiter.dfy | the velocity limiter's quadratic programme, the joystick's axes, and the loop that joins them |
| PowerFlow | PowerFlow.dfy | the quantised, bit-packed actuator frame |
| DcuPacket | Dcu.dfy | the 240-byte packet of a domain controller |
| XyberControllerModel | XyberController.dfy | the registry that routes commands by name |
| Modes, Triggers | StateMachine.dfy | the mode state machine, the shipped mode graph, the throttle in front |
| PdControl | PdController.dfy | the gather by name and the keep, plan and transition controllers |
| ControlLoop | ControlLoop.dfy | the persistent command message, the offsets, the callbacks |
| RlControl | RlController.dfy | the observation window, the decimated inference step, the filtered commands |
| BusSupervisor | ErrorHandler.dfy | the 100 ms error handler of the bus |
| Transmissions | Transmission.dfy | motor-to-joint transforms and the manager's passes |
| HistoryRing | HistoryRing.dfy | the viewer's rewind buffer |

## Where the code and its description disagree

The model follows the code.

- src/module/dcu_driver_module/xyber_controller/xyber_api/src/ethercat_manager.cpp:280 tests 81928
  where the branches around it suggest 8192: two branches are dead, 15-bit values hold only below
  8192, and from 81928 on nothing is written (`DcSync.DoubleToFixed`).
- spec/module_joy_stick_module.md:442 promises an output of at most 0.5; the bounds limit the rate
  of change. A cap on the output holds exactly when it holds of the targets or the coordinate cannot
  move that way at all (`VelLimiter.OutputCapExactly`, `VelLimiter.OutputFloorExactly`); the stick's
  ends being -1 and 1, the shipped 0.5 caps nothing (`VelLimiter.RateBoundIsNoOutputBound`).
- spec/bugs.md:39 lists the right ankle among the transmissions that read a velocity for a torque;
  ankle_transmission.cc:487 reads the torque. The left ankle (line 135) does read the velocity
  (`Transmissions.LeftAnkleUpPower` says exactly when that costs nothing).
- src/module/control_module/cfg/rl_x1.yaml:19 names a predecessor `wa_&_plan` that no state has, so
  the hold trigger works everywhere but in keep and while planning a walk (`Modes.HoldableModes`).
- `AttachActuator` answers true for an actuator its full channel has turned away, to which nothing
  ever gets through (`XyberControllerModel.TurnedAwayForEver`).
- rl_controller.cc:66 builds every filter with 100 and 0.001 and ignores the `lpf_conf` it has read.
- rl_controller.cc:72 restarts without touching the loop counter or the actions, so a restarted
  controller may command stale actions for some ticks (`RlControl.StaleUntilAsked`).
- A latched error handler waits for slaves that only it could bring back
  (`BusSupervisor.DeadlockOnceLatched`).

## Model

| member | source | states |
|---|---|---|
| LowPassFilter.DigitalLpFilter.constructor | src/module/control_module/src/utilities.cc:16-23 | a new filter remembers two zero inputs and two zero outputs; its coefficients belong to its cut-off and period |
| LowPassFilter.DigitalLpFilter.Input | src/module/control_module/src/utilities.cc:40-47 | one sample: the output register and the memory become those of the difference equation, oldest values dropped |
| LowPassFilter.DigitalLpFilter.Init | src/module/control_module/src/utilities.cc:75-80 | initialising makes the memory that of a filter settled at the given value |
| LowPassFilter.DigitalLpFilter.SetWc | src/module/control_module/src/utilities.cc:61-64 | a new cut-off gives new coefficients and keeps the memory |
| LowPassFilter.MatchesButterworth | src/module/control_module/src/utilities.cc:26-34 | for every cut-off, period and delay the five coefficients are the bilinear discretisation of the second-order Butterworth prototype |
| LowPassFilter.ModeTransfer | src/module/control_module/src/utilities.cc:40-47 | the difference equation realises the transfer function: an exponential input and output belong together exactly when Feedback times the output is Feed times the input |
| LowPassFilter.RespondsAsButterworth | src/module/control_module/src/utilities.cc:26-47 | fed any exponential for as long as one likes, the filter answers with the gain of the analogue Butterworth prototype at that rate, away from its poles |
| LowPassFilter.OnlyButterworthGain | src/module/control_module/src/utilities.cc:26-47 | and with no other gain |
| LowPassFilter.UnitGain | src/module/control_module/src/utilities.cc:26-34 | the coefficients sum to one, so a steady input passes unchanged |
| LowPassFilter.SchurStable | src/module/control_module/src/utilities.cc:26-34 | both poles lie inside the unit circle whenever cut-off times period is positive |
| LowPassFilter.PositiveDefinite | src/module/control_module/src/utilities.cc:32-47 | the quadratic form V of two successive output errors is zero only for no error, positive otherwise |
| LowPassFilter.ExactDrop | src/module/control_module/src/utilities.cc:40-47 | one step of the error recursion lowers V by exactly kappa times the squared latest error |
| LowPassFilter.Contraction | src/module/control_module/src/utilities.cc:40-47 | two filters that agree on the last two inputs, then on any further inputs: the energy lost over the whole run is kappa times the summed squared output differences |
| LowPassFilter.FewExcursions | src/module/control_module/src/utilities.cc:40-47 | however long the run, samples on which two such filters differ by eps or more are bounded by a number fixed at its start |
| LowPassFilter.Settles | src/module/control_module/src/utilities.cc:26-47 | from any memory, once an input has been held for two samples: kappa is positive, the summed squared error of any number of further samples stays below V over kappa, and the samples off by eps are bounded |
| LowPassFilter.Decay | src/module/control_module/src/utilities.cc:40-47 | the energy between two such filters falls geometrically: every two further samples leave at most the factor 1 - kappa/2 of it |
| LowPassFilter.RateBounds | src/module/control_module/src/utilities.cc:26-47 | that factor is at least 0 and less than 1 |
| LowPassFilter.SettlingTime | src/module/control_module/src/utilities.cc:26-47 | an explicit settling time: after 2k samples with k * (kappa/2) * Floor * eps^2 at least the starting energy, every later output is within eps of the held input |
| LowPassFilter.Converges | src/module/control_module/src/utilities.cc:26-47 | from any memory and for any eps, the outputs of a held input come within eps of it for good |
| LowPassFilter.BumplessStart | src/module/control_module/src/utilities.cc:26-34 | after initialising, the first output lies strictly between the initial value and the input |
| DcSync.DoubleToFixed | src/module/dcu_driver_module/xyber_controller/xyber_api/src/ethercat_manager.cpp:240-290 | below 81928 the value is the scaled argument truncated, with 15 significant bits only from 1 to 8192; from 81928 on nothing is written |
| DcSync.PhaseErrorNearest | src/module/dcu_driver_module/xyber_controller/xyber_api/src/ethercat_manager.cpp:300-301 | the error is the phase modulo the cycle, never more than half a cycle late, and the nearest representative exactly when the reference is not before the shift or is at most half a cycle before an edge |
| DcSync.NearestUnique | src/module/dcu_driver_module/xyber_controller/xyber_api/src/ethercat_manager.cpp:300-301 | there is only one such nearest representative |
| DcSync.LateReferencesCentred | src/module/dcu_driver_module/xyber_controller/xyber_api/src/ethercat_manager.cpp:300-319 | clock readings past half a cycle less 20 us all give errors of at most half a cycle |
| DcSync.ShiftExactly | src/module/dcu_driver_module/xyber_controller/xyber_api/src/ethercat_manager.cpp:319 | the controller aims 20 us before the middle of the cycle exactly for cycles whose shift fits 32 bits |
| DcSync.EarlyReferenceNotFolded | src/module/dcu_driver_module/xyber_controller/xyber_api/src/ethercat_manager.cpp:300-301 | a reference before the shift can keep an error of nearly a whole cycle |
| DcSync.AdjustFollowsLaw | src/module/dcu_driver_module/xyber_controller/xyber_api/src/ethercat_manager.cpp:292-311 | at every step of every run the output exceeds the exact proportional-integral law by at least nothing and by less than 2 ns |
| DcSync.DriftFollowsLaw | src/module/dcu_driver_module/xyber_controller/xyber_api/src/ethercat_manager.cpp:303-311 | summed over a run of any length the roundings stay below 2 ns a cycle |
| DcSync.PiController.CalcDcPiSync | src/module/dcu_driver_module/xyber_controller/xyber_api/src/ethercat_manager.cpp:292-311 | one call with the gains 0.05 and 0.01: the static integral term and the adjustment are those of the integer law on the phase error |
| DcSync.WorkLoop | src/module/dcu_driver_module/xyber_controller/xyber_api/src/ethercat_manager.cpp:314-364 | over any sequence of clock readings the error depends on the last reading alone, and every wake-up is the aligned start plus whole cycles plus the adjustments so far |
| DcSync.AlignedToClockEdge | src/module/dcu_driver_module/xyber_controller/xyber_api/src/ethercat_manager.cpp:318-334 | the work loop's aligned start is more than nine and at most ten cycles ahead, and falls on an edge of the distributed clock exactly when the delay between the two clock readings is a whole number of cycles |
| DcSync.SafeStepCount | src/module/dcu_driver_module/xyber_controller/xyber_api/src/ethercat_manager.cpp:292-311 | the 64-bit wrapping computation equals the exact one for every run of at most n centred errors, if n * 327 * (cycle / 2) is representable |
| DcSync.SafeRun | src/module/dcu_driver_module/xyber_controller/xyber_api/src/ethercat_manager.cpp:300-358 | from the clock readings on: the accumulated reference, the phase subtraction and the controller, all in wrapping 64-bit arithmetic, equal the exact computation for n steps under that bound |
| DcSync.SafeStepCountTight | src/module/dcu_driver_module/xyber_controller/xyber_api/src/ethercat_manager.cpp:303-306 | past that number of steps a run of largest errors takes the integral term out of range |
| VelLimiter.MinimiserIsClamp | src/module/joy_stick_module/src/joy_vel_limiter.cc:42-50 | for any dimension, the quadratic programme has exactly one minimiser over the box, the coordinatewise clamp of (target - state) / dt |
| VelLimiter.JoyVelLimiter.Update | src/module/joy_stick_module/src/joy_vel_limiter.cc:42-52 | given any answer that meets the solver's contract, the state moves by the clamped rate towards the first dim entries of the target; with a zero period it does not move |
| VelLimiter.JoyVelLimiter.Reset | src/module/joy_stick_module/src/joy_vel_limiter.cc:40 | reset puts every coordinate at zero |
| VelLimiter.MoveByAtMost | src/module/joy_stick_module/src/joy_vel_limiter.cc:42-51 | one update moves a coordinate by the distance to the target clamped to dt times the bounds |
| VelLimiter.OvershootCondition | src/module/joy_stick_module/src/joy_vel_limiter.cc:5-51 | no update ever passes its target exactly when zero is an admissible rate |
| VelLimiter.Approach | src/module/joy_stick_module/src/joy_vel_limiter.cc:42-51 | a constant target is reached after n updates exactly when n periods at the bounding rate cover the distance; until then the coordinate has moved by just that much |
| VelLimiter.StaysInHull | src/module/joy_stick_module/src/joy_vel_limiter.cc:42-51 | over any sequence of targets the state stays in every interval holding its start and all targets |
| VelLimiter.FollowsStickWithinUnit | src/module/joy_stick_module/src/joy_vel_limiter.cc:42-51 | following targets in [-1, 1] the output never leaves [-1, 1] |
| VelLimiter.OutputCapExactly | src/module/joy_stick_module/src/joy_vel_limiter.cc:42-51 | over all target sequences that stay at or below q, a coordinate of the output stays at or below b exactly when q does or its upper rate is zero |
| VelLimiter.OutputFloorExactly | src/module/joy_stick_module/src/joy_vel_limiter.cc:42-51 | and mirrored: it stays at or above b exactly when the targets do or its lower rate is zero |
| VelLimiter.RateBoundIsNoOutputBound | src/module/joy_stick_module/src/joy_vel_limiter.cc:42-51 | the witness: a coordinate bounded by 0.5 at 20 Hz reaches 1 |
| Joystick.AxisRange | src/module/joy_stick_module/src/joy.cc:118-139 | all 16-bit readings land in [-1, 1], ends included, zero exactly within the dead zone, odd and order-reversing |
| Joystick.Joy.ConvertRawAxisValueToROS | src/module/joy_stick_module/src/joy.cc:118-139 | the branches compute that axis value |
| Joystick.Joy.HandleJoyAxis | src/module/joy_stick_module/src/joy.cc:141-166 | an event sets its own axis of its own device and nothing else; the first change of a burst is held back and a later one reported once the interval is over; all axes stay in [-1, 1] |
| Joystick.Joy.HandleJoyHatMotion | src/module/joy_stick_module/src/joy.cc:203-248 | a hat sets its pair of axes, right over left and down over up, keeps an axis not pressed until centred, touches nothing else, and is reported exactly when it is of this device and fits |
| Joystick.Joy.OpenDevice | src/module/joy_stick_module/src/joy.cc:321-330 | opening a device resizes the axes, keeps what was there, takes the initial readings it knows, and leaves all axes in [-1, 1] |
| Joystick.Joy.HandleJoyDeviceRemoved | src/module/joy_stick_module/src/joy.cc:345-351 | removing this device leaves no axes; removing another changes nothing |
| Joystick.HearWithin | src/module/joy_stick_module/src/joy.cc:118-351 | whatever the device reports, every axis stays in [-1, 1] |
| Joystick.HatLikeStick | src/module/joy_stick_module/src/joy.cc:203-248 | each side of a hat does what a stick pushed fully that way would, and centring it what two centred sticks would |
| Joystick.OnlyItsOwn | src/module/joy_stick_module/src/joy.cc:141-166 | a moved axis takes its own value and leaves the rest; events of another device change nothing |
| Joystick.OpenedThenMoved | src/module/joy_stick_module/src/joy.cc:321-329 | opening with a known initial reading is opening without and then hearing it; without readings, axes known before are kept and new ones rest |
| TwistLoop.TwistPass | src/module/joy_stick_module/src/joy_stick_module.cc:122-152 | a pass hands the limiter a target with an entry for every axis; the limiter follows the mapped ones, whatever the rest of its memory held |
| TwistLoop.VelocityWithinUnit | src/module/joy_stick_module/src/joy_stick_module.cc:104-172 | from power-on, over any interleaving of device events and passes, the published velocity never leaves [-1, 1] |
| PowerFlow.DecodeAfterEncode | src/module/dcu_driver_module/xyber_controller/xyber_api/src/power_flow.cpp:27-39 | decoding an encoded value loses less than one quantum, downwards |
| PowerFlow.EncodeAfterDecode | src/module/dcu_driver_module/xyber_controller/xyber_api/src/power_flow.cpp:27-39 | encoding a decoded code gives the code back |
| PowerFlow.EncodeMonotone | src/module/dcu_driver_module/xyber_controller/xyber_api/src/power_flow.cpp:27-32 | encoding never reverses an order |
| PowerFlow.FitsExactly | src/module/dcu_driver_module/xyber_controller/xyber_api/src/power_flow.cpp:27-32 | a code fits its field exactly for values less than one quantum outside the range, for nothing is clamped |
| PowerFlow.PackLossless | src/module/dcu_driver_module/xyber_controller/xyber_api/src/power_flow.cpp:94-109 | the eight bytes carry the five codes without loss exactly when each code fits its field |
| PowerFlow.PackOnto | src/module/dcu_driver_module/xyber_controller/xyber_api/src/power_flow.cpp:69-109 | every eight bytes are the packing of exactly one tuple of codes |
| PowerFlow.SpillCorruptsVelocity | src/module/dcu_driver_module/xyber_controller/xyber_api/src/power_flow.cpp:104 | a gain one past its field changes the velocity the actuator reads |
| PowerFlow.CommandSurvivesFrame | src/module/dcu_driver_module/xyber_controller/xyber_api/src/power_flow.cpp:69-109 | an in-range command is recovered from its frame; each of the five fields, read in its own quantity's range, is at most the commanded value and less than a quantum below, and so are position and velocity echoed as feedback |
| PowerFlow.FeedbackRead | src/module/dcu_driver_module/xyber_controller/xyber_api/src/power_flow.cpp:69-92 | feedback that holds codes for position, velocity and torque is read as those three, each in its own range and within it |
| DcuPacket.SlotInChannel | src/module/dcu_driver_module/xyber_controller/xyber_api/src/power_flow.cpp:19-21 | a slot lies in its own channel's data exactly for identifiers 1 to 8 |
| DcuPacket.SlotsDisjoint | src/module/dcu_driver_module/xyber_controller/xyber_api/src/power_flow.cpp:19-21 | two such slots are apart exactly when channel or identifier differ |
| DcuPacket.NinthOverwritesControl | src/module/dcu_driver_module/xyber_controller/xyber_api/src/power_flow.cpp:19-21 | identifier 9, which attaching accepts, lands on the next channel's control byte |
| DcuPacket.ApplyBytes | src/module/dcu_driver_module/xyber_controller/xyber_api/src/dcu.cpp:306-314 | a command writes its actuator's slot and its channel's control byte and leaves the other bytes alone |
| DcuPacket.SlotsArePrivate | src/module/dcu_driver_module/xyber_controller/xyber_api/src/dcu.cpp:169-314 | after any interleaving of commands and parameter changes each slot is what its actuator's own events alone make of it |
| DcuPacket.ControlBytes | src/module/dcu_driver_module/xyber_controller/xyber_api/src/dcu.cpp:74-76 | each control byte holds the code of the last command on its channel |
| DcuPacket.ControlSelects | src/module/dcu_driver_module/xyber_controller/xyber_api/src/dcu.cpp:74-76 | a command's control byte selects its own actuator, and any other of the channel exactly when it is a MIT command |
| DcuPacket.RequestUnderstood | src/module/dcu_driver_module/xyber_controller/xyber_api/src/power_flow.cpp:41-87 | by the protocol's command codes every rotary request is read as what was asked, argument included; the last three bytes are never touched |
| DcuPacket.RangesTakeEffect | src/module/dcu_driver_module/xyber_controller/xyber_api/include/internal/power_flow.h:69 | new ranges hold from the same rotary actuator's next MIT command on, whatever came before |
| DcuPacket.LinearFields | src/module/dcu_driver_module/xyber_controller/xyber_api/include/internal/power_flow.h:111-125 | a linear actuator's position and current are set independently, a MIT command sets its position, and it starts with 2.5 |
| DcuPacket.PickerFields | src/module/dcu_driver_module/xyber_controller/xyber_api/include/internal/omni_picker.h:25-37 | a picker's opening and grip lose less than one part in 255, more than 1 counts as 1, the rest is full or left alone |
| DcuPacket.OtherBytesUntouched | src/module/dcu_driver_module/xyber_controller/xyber_api/src/dcu.cpp:74-76 | bytes of no actuator and no channel, the inertial command among them, never change |
| DcuPacket.InertialByteUnowned | src/module/dcu_driver_module/xyber_controller/xyber_api/include/internal/dcu.h:23-30 | the inertial sensor's command byte belongs to no slot and no control byte |
| DcuPacket.AlwaysRoom | src/module/dcu_driver_module/xyber_controller/xyber_api/src/dcu.cpp:53-59 | with identifiers 1 to 8, distinct on each channel, the exit for too many devices is never taken |
| DcuPacket.Dcu.RegisterActuator | src/module/dcu_driver_module/xyber_controller/xyber_api/src/dcu.cpp:53-64 | a full channel leaves everything as it was; otherwise the name is bound, the channel list grows by the name, and only a linear actuator's slot is written |
| DcuPacket.Dcu.SetChannelId | src/module/dcu_driver_module/xyber_controller/xyber_api/src/dcu.cpp:74-76 | the control byte becomes the broadcast code or the one-hot code of the identifier |
| DcuPacket.Dcu.Command | src/module/dcu_driver_module/xyber_controller/xyber_api/src/dcu.cpp:169-314 | any command by name has the packet effect of its event; an unknown name has none |
| DcuPacket.Dcu.WriteMit | src/module/dcu_driver_module/xyber_controller/xyber_api/src/power_flow.cpp:94-109 | the eight stores leave the packed frame in the actuator's slot |
| DcuPacket.Dcu.WriteRequest | src/module/dcu_driver_module/xyber_controller/xyber_api/src/power_flow.cpp:41-87 | the other rotary commands write their code and argument at the head of the slot and keep the rest |
| DcuPacket.Dcu.WritePicker | src/module/dcu_driver_module/xyber_controller/xyber_api/include/internal/omni_picker.h:25-37 | the picker's command caps position and current from above only and writes five bytes |
| DcuPacket.Dcu.EnableActuator | src/module/dcu_driver_module/xyber_controller/xyber_api/src/dcu.cpp:111-139 | enabling succeeds exactly when one of the polls reads the enabled state, and at once for kinds that have none |
| XyberControllerModel.XyberController.CreateDcu | src/module/dcu_driver_module/xyber_controller/xyber_api/src/xyber_controller.cpp:58-65 | a name is created once, with an empty packet; a second creation changes nothing; on values it is the creation step |
| XyberControllerModel.XyberController.AttachActuator | src/module/dcu_driver_module/xyber_controller/xyber_api/src/xyber_controller.cpp:67-111 | the first attachment of a name wins; the answer is true even when the channel was full, and the name is then routed to a controller that does not know it |
| XyberControllerModel.XyberController.SetMitCmd | src/module/dcu_driver_module/xyber_controller/xyber_api/src/xyber_controller.cpp:248-254 | a command reaches the one controller that owns the name, no other packet changes, and on values it is the telling step |
| XyberControllerModel.XyberController.SetMitParam | src/module/dcu_driver_module/xyber_controller/xyber_api/src/xyber_controller.cpp:241-246 | so does a parameter change |
| XyberControllerModel.EachControllerByItsOwnMail | src/module/dcu_driver_module/xyber_controller/xyber_api/src/xyber_controller.cpp:58-254 | over any interleaving of creations, attachments, commands and parameter changes a controller exists exactly when it was created, and is what its own mail alone makes of a fresh one |
| XyberControllerModel.TrafficIsRun | src/module/dcu_driver_module/xyber_controller/xyber_api/src/xyber_controller.cpp:241-254 | over any traffic after attachment each controller's packet is the run of the events addressed to its actuators |
| XyberControllerModel.SlotAcrossRegistry | src/module/dcu_driver_module/xyber_controller/xyber_api/src/xyber_controller.cpp:241-254 | over any traffic across the whole registry an attached actuator's slot and parameters are what the events in its own name alone make of them |
| XyberControllerModel.TurnedAwayForEver | src/module/dcu_driver_module/xyber_controller/xyber_api/src/xyber_controller.cpp:105-110 | an actuator its full channel turned away stays routed and unknown over any further calls, and nothing sent to it changes any packet |
| XyberControllerModel.AttachOutcome | src/module/dcu_driver_module/xyber_controller/xyber_api/src/xyber_controller.cpp:67-111 | an attachment leaves the other controllers alone, and the name is known to its own exactly when the channel had room |
| XyberControllerModel.FreshActuatorUnderstood | src/module/dcu_driver_module/xyber_controller/xyber_api/src/xyber_controller.cpp:86-94 | a freshly attached rotary actuator has a range for every quantity, so in-range commands survive its frame |
| XyberControllerModel.FreshScales | src/module/dcu_driver_module/xyber_controller/xyber_api/include/common_type.h:84-110 | the ends of a fresh rotary actuator's codes: a turn, two turns a second, 500, 8, and 100 Nm or 50 Nm by kind |
| XyberControllerModel.KindsOfDevices | src/module/dcu_driver_module/xyber_controller/xyber_api/src/xyber_controller.cpp:84-104 | each type becomes a device of its kind with the given identifier and channel |
| Modes.StateMachine.Init | src/module/control_module/include/control_module/state_machine.h:30-40 | afterwards the first state of the file is current, its controllers are active, and every trigger's list is in file order |
| Modes.StateMachine.OnEvent | src/module/control_module/include/control_module/state_machine.h:42-54 | the first state of the trigger's list that admits the current one is entered with its controllers; otherwise nothing changes; current name and controllers stay those of one state |
| Modes.OrderCondition | src/module/control_module/include/control_module/state_machine.h:42-54 | what any event does is independent of the order of the file exactly when states sharing a trigger have disjoint predecessors |
| Modes.OrderDecidesOnlyTheStart | src/module/control_module/include/control_module/state_machine.h:30-54 | two files of the same unambiguous states run alike under every sequence of triggers exactly when they begin with the same mode |
| Modes.ThroughTheGate | src/module/control_module/include/control_module/state_machine.h:42-54 | if an area can be entered only from itself or a gate, every run inside it has passed the gate since it last was in the states kept out |
| Modes.WalkingNeedsStanding | src/module/control_module/cfg/rl_x1.yaml:10-56 | in the shipped graph every run that walks, or plans while standing, has stood since it last was in idle, keep, zero or keep_&_plan |
| Modes.ShippedOrderFree | src/module/control_module/cfg/rl_x1.yaml:10-56 | what an event does in the shipped graph does not depend on the order of its states, the three planning states included |
| Modes.HoldableModes | src/module/control_module/cfg/rl_x1.yaml:10-56 | in the shipped graph the hold trigger works in every mode but keep itself and walk_leg_&_plan |
| Modes.CannotHoldWhilePlanningWalk | src/module/control_module/cfg/rl_x1.yaml:17-20 | the hold trigger is lost while planning a walk, by the misspelt predecessor wa_&_plan; idle and then hold gets there |
| Triggers.TriggerPort.Throttler | src/module/control_module/src/utilities.cc:4-12 | a call passes exactly when the interval has elapsed, and only then is the time taken |
| Triggers.TriggerPort.Trigger | src/module/control_module/src/control_module.cc:33-41 | throttle first, then the state machine; both outcomes as one step |
| Triggers.OneChangeASecond | src/module/control_module/src/control_module.cc:33-36 | n accepted mode changes take at least n seconds of the stamping clock, rejected triggers included, even if the clock is set back in between |
| Triggers.RejectedTakesWindow | src/module/control_module/src/control_module.cc:34 | a trigger the state machine rejects still takes the window, and a valid one within the next second is lost |
| PdControl.PDController.SetJointStateData | src/module/control_module/src/controller_base.cc:17-25 | positions, velocities and efforts are gathered by name; at the first unknown name the gather stops half-way |
| PdControl.PDController.RestartController | src/module/control_module/src/pd_controller.cc:46-51 | restarting latches the measured positions and clears the progress |
| PdControl.PDController.UpdateStep | src/module/control_module/src/pd_controller.cc:63-74 | keep does nothing, plan takes the next point if there is one, transition advances by a two-thousandth up to one |
| PdControl.PDController.GetJointCmdData | src/module/control_module/src/pd_controller.cc:76-103 | the loop fills the command with the latched, planned or blended positions and the configured gains |
| PdControl.CommandGains | src/module/control_module/src/pd_controller.cc:96-100 | in every mode a joint is commanded by its own name with its own stiffness and damping, at rest and without torque |
| PdControl.HeldOrPlanned | src/module/control_module/src/pd_controller.cc:46-92 | over any updates a keep controller stays at the restart position and a plan controller at the point its plan came to last |
| PdControl.Transition | src/module/control_module/src/pd_controller.cc:46-103 | n updates after a restart each joint is min(1, n/2000) of the way from where it was to its target, and at the target exactly from 2000 on or when it already was |
| ControlLoop.LastWriterWins | src/module/control_module/src/control_module.cc:170-183 | a slot holds what the last controller of the active list owning the joint said in the most recent tick in which any owned it, field by field, offset added to the position alone |
| ControlLoop.UnownedKeepsInitial | src/module/control_module/src/control_module.cc:157-163 | a slot nobody ever owned keeps its initial value |
| ControlLoop.SlotsOfRun | src/module/control_module/src/control_module.cc:165-185 | over any run of ticks, triggers and joint messages the published slots are the last writers' of the ticks in it |
| ControlLoop.Compensate | src/module/control_module/src/control_module.cc:110-114 | each configured offset is subtracted once from its joint in a copy of the message; everything else is copied unchanged |
| ControlLoop.StepKeepsInv | src/module/control_module/src/control_module.cc:102-118 | every step keeps: what each controller has gathered is the last message less offsets, and what it has latched is the message before its last restart less offsets |
| ControlLoop.KeepHolds | src/module/control_module/src/control_module.cc:102-118 | in every reachable state, for each joint a restarted keep controller is the last active one to own, the raw position its message measured is published, at rest and with its own gains |
| ControlLoop.KeepHoldsByName | src/module/control_module/src/control_module.cc:104-118 | and when all messages list the same names, that position is the one given under the joint's own name |
| ControlLoop.PublishedGains | src/module/control_module/src/control_module.cc:170-183 | in any state a joint is published with its owner's configured gains and no velocity or torque, wherever the owner stands in the active list |
| ControlLoop.FilledIndex | src/module/control_module/src/control_module.cc:104-108 | filling puts each name at its last place in the message and leaves the others |
| ControlLoop.ControlModule.TriggerCallback | src/module/control_module/src/control_module.cc:33-41 | an accepted trigger changes mode and restarts exactly the controllers now active |
| ControlLoop.ControlModule.JointStateCallback | src/module/control_module/src/control_module.cc:102-118 | a joint message fills the index once and reaches every controller, active or not, by name with offsets removed |
| ControlLoop.ControlModule.TickOnce | src/module/control_module/src/control_module.cc:165-185 | one pass updates the active controllers in order and overwrites the slots of the command message with what they say |
| ControlLoop.ControlModule.WriteOutput | src/module/control_module/src/control_module.cc:174-182 | one controller's output is written entry by entry, later entries over earlier ones |
| RlControl.HistoryOfRun | src/module/control_module/src/rl_controller.cc:181-244 | after any run slot i of H holds observation max(0, k - (H - 1) + i) of those since the last restart; each observation carries the clipped answer to the one before it, the first zeros; the network is shown the buffer clipped |
| RlControl.ClippedWithin | src/module/control_module/src/rl_controller.cc:237-243 | clipping leaves in-range values alone, and all its results are in range exactly when the bound is not negative |
| RlControl.ForgetsThePast | src/module/control_module/src/rl_controller.cc:72-244 | two controllers with any pasts, restarted at the same phase of the decimation and run alike, are equal in everything but the loop counter from the first observation on |
| RlControl.AskedEveryDecimation | src/module/control_module/src/rl_controller.cc:76-84 | over any number of ticks the network is asked once for every multiple of the decimation the loop counter passes |
| RlControl.StaleUntilAsked | src/module/control_module/src/rl_controller.cc:72-84 | a controller restarted between multiples goes on commanding its old actions until the counter reaches the next one |
| RlControl.StartsWithoutJump | src/module/control_module/src/rl_controller.cc:86-122 | in the tick of the first observation a serial joint is commanded strictly between its measured and wanted position, a parallel joint strictly between no torque and the wanted torque |
| RlControl.TorqueIsDampedSpring | src/module/control_module/src/rl_controller.cc:110 | a parallel joint's torque pulls a resting joint towards its target, opposes motion at the target, and takes damping * velocity^2 of power |
| RlControl.FirstTorqueActsAsSpring | src/module/control_module/src/rl_controller.cc:106-117 | the first torque published after a restart already has those signs |
| RlControl.CommandGains | src/module/control_module/src/rl_controller.cc:98-117 | a serial joint is commanded by position with its gains, a parallel joint by torque with none |
| RlControl.FilterOfRun | src/module/control_module/src/rl_controller.cc:96-117 | over any run of ticks each joint's filter is the filter run on what that joint alone was fed |
| RlControl.HeldActionReached | src/module/control_module/src/rl_controller.cc:96-105 | while the network keeps a serial joint's action, its published position comes within any eps of scale * action + initial position for good |
| RlControl.ObservationLayout | src/module/control_module/src/rl_controller.cc:195-205 | every entry of an observation by its place |
| RlControl.NewestFrame | src/module/control_module/src/rl_controller.cc:195-243 | the newest frame the network is shown is this tick's scaled readings joint by joint and the last actions, clipped |
| RlControl.RLController.constructor | src/module/control_module/src/rl_controller.cc:59-69 | a new controller awaits its first frame with zero actions and a filter of its own for every joint |
| RlControl.RLController.FillHistory | src/module/control_module/src/rl_controller.cc:225-227 | the fill writes the frame into every slot of the flat buffer |
| RlControl.RLController.ShiftHistory | src/module/control_module/src/rl_controller.cc:231-232 | the overlapping in-place copy drops the oldest frame and appends the new one |
| RlControl.RLController.ComputeObservation | src/module/control_module/src/rl_controller.cc:181-244 | one observation: first-frame initialisation of filters and buffer, action part zeroed, shift, clip |
| RlControl.RLController.UpdateStep | src/module/control_module/src/rl_controller.cc:76-84 | one update observes and acts on multiples of the decimation only and counts always |
| RlControl.RLController.GetJointCmdData | src/module/control_module/src/rl_controller.cc:86-122 | every joint's filter is fed its position or torque once, the command is its output, and the actions become the last actions |
| BusSupervisor.ErrorHandler.UpdateSlaveState | src/module/dcu_driver_module/xyber_controller/xyber_api/src/ethercat_manager.cpp:225-238 | one node, or every node for id 0, is told the state |
| BusSupervisor.ErrorHandler.HandleNode | src/module/dcu_driver_module/xyber_controller/xyber_api/src/ethercat_manager.cpp:389-440 | one node of a bad tick: acknowledge, raise, reconfigure, re-check, recover, then tell the node |
| BusSupervisor.LostExactly | src/module/dcu_driver_module/xyber_controller/xyber_api/src/ethercat_manager.cpp:403-438 | a slave counts as lost after a bad tick exactly when nothing was heard of it, recovery failed, and it was lost before or read as gone in group 0 |
| BusSupervisor.ToldAndSpared | src/module/dcu_driver_module/xyber_controller/xyber_api/src/ethercat_manager.cpp:386-440 | every node is told its entry's state; operational, silent and foreign slaves are never written; another check is due exactly while some group-0 node read as not operational |
| BusSupervisor.ErrorHandler.RepairAll | src/module/dcu_driver_module/xyber_controller/xyber_api/src/ethercat_manager.cpp:386-440 | whatever the order of the node table, every node is handled as if it were alone |
| BusSupervisor.ErrorHandler.TickOnce | src/module/dcu_driver_module/xyber_controller/xyber_api/src/ethercat_manager.cpp:372-456 | one tick: wait while latched, resume, repair and count, or clear the count |
| BusSupervisor.LatchExactly | src/module/dcu_driver_module/xyber_controller/xyber_api/src/ethercat_manager.cpp:372-456 | in every reachable state the link-lost flag holds exactly when the counter is ten, the unlatched counter is the length of the current streak of bad ticks, and the flag holds exactly when ten bad ticks came unbroken with only waiting since |
| BusSupervisor.ResumesExactly | src/module/dcu_driver_module/xyber_controller/xyber_api/src/ethercat_manager.cpp:376-383 | a latched handler acts exactly when the working counter equals the expected one; until then no slave is written |
| BusSupervisor.RestoredInTime | src/module/dcu_driver_module/xyber_controller/xyber_api/src/ethercat_manager.cpp:384-456 | obedient slaves are all operational, the counter zero and the link never declared lost, if the counter leaves room for the ticks needed |
| BusSupervisor.LatchesForLackOfRoom | src/module/dcu_driver_module/xyber_controller/xyber_api/src/ethercat_manager.cpp:448-452 | without that room the link is declared lost in the tick that fills the counter |
| BusSupervisor.DeadlockOnceLatched | src/module/dcu_driver_module/xyber_controller/xyber_api/src/ethercat_manager.cpp:376-380 | once latched with a slave outside operational, handler and slaves wait for each other for ever |
| BusSupervisor.RecoversExactly | src/module/dcu_driver_module/xyber_controller/xyber_api/src/ethercat_manager.cpp:372-456 | obedient slaves are operational after any two or more ticks exactly unless one is in error when the counter has a single tick left |
| BusSupervisor.SilentWhileLatched | src/module/dcu_driver_module/xyber_controller/xyber_api/src/ethercat_manager.cpp:376-380 | over any run of other readings the latched handler changes nothing and asks nothing of any slave |
| Transmissions.PowerUp | src/module/dcu_driver_module/src/ankle_transmission.cc:566-587 | for every regular matrix, joint torque times joint velocity equals motor torque times motor velocity |
| Transmissions.PowerDown | src/module/dcu_driver_module/src/ankle_transmission.cc:723-753 | so it does on the way down, by the negated-determinant entries and the inverse of the transpose |
| Transmissions.ThereAndBack | src/module/dcu_driver_module/src/ankle_transmission.cc:566-753 | the downward maps undo the upward ones |
| Transmissions.RightAnkleUpPower | src/module/dcu_driver_module/src/ankle_transmission.cc:437-595 | with directions of plus or minus one, the right ankle's joint states carry the power of its two motors at every pose |
| Transmissions.AnkleDownPower | src/module/dcu_driver_module/src/ankle_transmission.cc:598-766 | both ankles' motor commands carry the power of the two joint commands |
| Transmissions.LeftAnkleUpPower | src/module/dcu_driver_module/src/ankle_transmission.cc:134-247 | the left ankle, which reads a velocity for a torque, keeps power exactly when that motor stands still or reports equal torque and velocity |
| Transmissions.AnkleRoundTrip | src/module/dcu_driver_module/src/ankle_transmission.cc:437-766 | measured joint velocities and torques handed back as commands give each motor its own again; on the left one torque comes back as the velocity |
| Transmissions.AnklePositionsBack | src/module/dcu_driver_module/src/ankle_transmission.cc:437-766 | the joint angles handed back give both motors their own positions again exactly when the inverse kinematics undoes the forward one at that pose |
| Transmissions.AnkleGains | src/module/dcu_driver_module/src/ankle_transmission.cc:416-425 | pitch's gains go to the right motor on the left ankle and to the left one on the right ankle, roll's to the other |
| Transmissions.SimplePower | src/module/dcu_driver_module/include/dcu_driver_module/transmission.h:80-93 | a single-motor transmission keeps power exactly when its direction is plus or minus one or there is none |
| Transmissions.SimpleRoundTrip | src/module/dcu_driver_module/include/dcu_driver_module/transmission.h:80-93 | its mirrored state comes back as the motor's own, and the gains pass through |
| Transmissions.PassIsPointwise | src/module/dcu_driver_module/include/dcu_driver_module/transmission.h:110-119 | a manager pass over transmissions sharing nothing equals each applied alone, changing only joint states going up and only actuator commands going down |
| Transmissions.OrderMakesNoDifference | src/module/dcu_driver_module/include/dcu_driver_module/transmission.h:110-119 | the order of registration makes no difference to either pass |
| Transmissions.AnkleUp | src/module/dcu_driver_module/src/ankle_transmission.cc:437-595 | the upward stores leave exactly the two joint states of the transform, whatever other spaces exist |
| Transmissions.AnkleDown | src/module/dcu_driver_module/src/ankle_transmission.cc:598-766 | the downward stores leave exactly the two motor commands; pitch's gains go to motor 5 and roll's to motor 6 |
| Transmissions.TransmissionManager.TransformActuatorToJoint | src/module/dcu_driver_module/include/dcu_driver_module/transmission.h:110-114 | the upward pass over shared spaces has the effect of the fold and changes no command |
| Transmissions.TransmissionManager.TransformJointToActuator | src/module/dcu_driver_module/include/dcu_driver_module/transmission.h:115-119 | the downward pass has the effect of the fold and changes no state |
| HistoryRing.LengthExact | src/module/sim_module/src/simulate.cc:2233-2240 | the length is the smaller of 2000 and the states that fit in 10^8 bytes, with no overflow in the product |
| HistoryRing.History.constructor | src/module/sim_module/src/simulate.cc:2231-2253 | the buffer starts full of the initial state |
| HistoryRing.History.AddToHistory | src/module/sim_module/src/simulate.cc:2733-2744 | adding a state keeps the ring telling the last n states in order; without room nothing changes |
| HistoryRing.History.LoadScrubState | src/module/sim_module/src/simulate.cc:542-549 | scrubbing -s back loads the state added that many steps ago, or the initial one, under C remainders |
| HistoryRing.RemembersNext | src/module/sim_module/src/simulate.cc:2738-2743 | overwriting the slot after the cursor turns a ring of one history into the ring of the longer one |

## Left out

- Floating-point rounding: all doubles and floats are reals, so a cast from double to float changes nothing.
- The EtherCAT master, SDL, qpOASES, ONNX Runtime, Ruckig, MuJoCo and Eigen: their answers are arbitrary inputs, or bound by a contract (a feasible minimiser, an element-wise ascending copy of overlapping segments, a 2 by 2 inverse by the adjugate).
- Trigonometry: ankle angles, inverse kinematics, the lookup table and the Jacobian's entries are unspecified functions of the pose; the Jacobian is taken to be regular, which the code does not check.
- Wrist and lumbar transmissions, other than what the single-motor and ankle transforms show.
- Threads and locks: callbacks, loop passes and handler ticks are atomic steps.
- Channels, YAML parsing, logging, sleeping and real-time priorities: configurations are values, clock readings are inputs.
- The inertial sensor, the quaternion helpers and the gait phase: they enter an observation as numbers.
- Received packets: feedback bytes are an input of the getters, and a poll is the list of states it reads; only enabling is modelled, disabling and setting a mode poll in the same way.
- Actuator objects hold pointers into the packet in the source; here they are values that carry their channel and identifier, and the pointer is the slot's offset.
- Trajectory generation in plan mode: the next point is an input of the update.
- The maps that the control module indexes with operator[] grow on unknown names; here an unknown joint goes to slot 0 with no offset, and an unknown controller says nothing.
- The shipped pd_idle lists 28 stiffness values for 29 joints: equal lengths are a precondition of the PD controller.
- Preconditions on addresses: identifiers 1 to 8, distinct on a channel, and slots inside the packet; attaching checks none of them.
- MIT ranges of zero width and a decimation of zero, which divide by zero, and a history of no frames.
- The slave with number 0, and a shutdown in the middle of a handler tick.
- ControlLoop.StepKeepsInv: joint messages are taken to cover every indexed joint with a place of its own, since the code indexes without a check.
- ControlLoop.ControlModule.TickOnce: the walking controllers' commands are inputs of the tick; their own step is modelled and proved apart.
- BusSupervisor.RestoredInTime: assumes slaves in SAFE_OP or SAFE_OP with error that follow each request by the next tick, and a working counter short exactly while some slave is not operational.
- HistoryRing.History.constructor: a model with more than 10^8 bytes of state, for which the source copies a state into an empty buffer, is excluded.
- DcSync.SafeStepCount: starts from the errors; DcSync.SafeRun takes in the accumulated reference and the phase subtraction.
- PdControl.PDController.UpdateStep: in plan mode the next point of the trajectory is an input.
- Transmissions.AnkleUp: joint angles and matrix entries are unspecified functions of the pose, and the matrix is regular.
- Transmissions.AnkleDown: motor angles and matrix entries are unspecified functions of the pose, and the matrix is regular.
- ControlLoop.Compensate: takes every indexed joint to have a place of its own in the message, since the code indexes without a check.
- ControlLoop.ControlModule.JointStateCallback: takes every indexed joint to have a place of its own in the message, since the code indexes without a check.
- DcuPacket.Dcu.RegisterActuator: a slot outside the packet would be a pointer past its end, and a name registered twice on one controller cannot come from the registry; both are excluded.
- XyberControllerModel.XyberController.AttachActuator: identifiers whose slot lies outside the packet are excluded, where the source sets a pointer past its end.
- TwistLoop.TwistPass: the device has every mapped axis, which the loop indexes without a check; a target longer than the limiter's dimension is read to that dimension, as with size assertions compiled out.
- Everything else in the viewer, the user interface adapters, and the assistant programs.
