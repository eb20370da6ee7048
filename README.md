# Stepper motor control: a verified model

A model of the open-loop speed control of a three-motor stepper test rig
(`Stepper_Control.c` and `Stepper_Control.h`). Each motor driver has an
active-low nEnable line and a step timer whose prescaler sets its speed: a
larger prescaler is a slower motor. The control code has three parts:

- a **ramp** that walks a motor's prescaler from a start value down to a
  target, in order not to stall the motor. It halves the value while the
  value is at least 100, takes 10 off in [80, 100), takes 1 off in [10, 80)
  and jumps to the target below 10, with one `STEP_DELAY` wait before each
  step;
- the **register and line writes**: `Stepper_Set_Velocity` reconfigures a
  timer and halts in the fatal error handler when the driver reports a
  failure, and the enable/disable macros write one pin each;
- the **test sequencer**: `Stepper_Init` disables every driver.
  `Stepper_Test_Process` then works in four steps:
  - it waits for the run input;
  - it enables and ramps A (to 370), then B, then C (to `SP_005FPS` = 398);
  - while the input reads high, it cycles motor A: disable, force to 4000,
    wait, re-enable, ramp back to 370;
  - it finally disables all three motors.

The project has five modules:

| file | module | contents |
|---|---|---|
| `stepper_config.dfy` | `StepperConfig` | the header's constants, the motor-to-timer and motor-to-pin bindings, the active-low levels, and a 16-bit `u16` type for every velocity |
| `board.dfy` | `Board` | the hardware as a state machine |
| `ramp.dfy` | `Ramp` | the ramp as a pure function producing a sequence of actions |
| `test_sequence.dfy` | `TestSequence` | the sequencer's actions as a function of the run-input samples |
| `stepper_control.dfy` | `StepperControl` | the imperative code itself, as the class `Controller` |

The `Board` state machine holds:
- one enable line and one velocity register per motor;
- a log of every completed action;
- the statuses the timer driver will report;
- the samples the run input will give;
- a halt flag.

An `Event` is an action and also the record of it in the log. `Exec` runs a sequence of events, and a halted machine does nothing.

`Controller` keeps the lines and registers in arrays. Its methods are the C functions, with the same loops and branches. Each method is proved to leave `Abs()` equal to `Exec` of the matching action sequence on the state before. The properties of those sequences are then proved as lemmas.

Stepper_Test_Process is split into one method per block of its body:
- `WaitForRun`: line 57;
- `StartAll`: lines 58-63;
- `RunCycles`: lines 65-73, with `CycleA` as the loop body;
- `DisableAll`: lines 75-77.

`TestProcess` calls these four in order.

Halving can pass the target: the loop stops as soon as the value is at or below the target, so the ramp to 370 writes 2000, 1000, 500 and 250, then 370 (`Ramp.RampTo370`).

## Model

| member | source | states |
|---|---|---|
| StepperConfig.BindingsDistinct | Stepper_Control.h:18-28 | each motor has its own timer handle (htim1, htim2, htim15) and its own enable pin |
| StepperConfig.SpTableNonIncreasing | Stepper_Control.h:32-50 | the SP_ prescaler table never rises as the speed rises, and every entry lies between 10 and SP_005FPS = 398 |
| Board.GateWriteEffect | Stepper_Control.h:52-57 | enable drives the motor's own line to the reset (enabling) level and disable to the set level; no other line, no register and no halt changes |
| Board.DisableIdempotent | Stepper_Control.h:55-57 | disabling twice leaves the same lines as disabling once; a disabled line is not enabled and an enabled one is |
| Board.SetVelocityEffect | Stepper_Control.c:165-174 | on success only the addressed register changes, to the new value, and the write is logged; on a driver failure the machine halts with no register, line or log change; one driver status is consumed either way |
| Board.ExecHalted | Stepper_Control.c:169-172 | after the fatal handler no action changes anything |
| Board.ExecLog | Stepper_Control.c:165-174 | the log grows by a prefix of the actions, by all of them unless the machine halted, and it halts only if the driver reports a failure |
| Board.ExecFrame | Stepper_Control.h:52-57 | actions addressed to other motors leave a motor's line and register unchanged |
| Ramp.Step | Stepper_Control.c:97-115 | each step of the schedule strictly lowers the value and never goes below 9, so the 16-bit subtractions never wrap |
| Ramp.RampLoopValues | Stepper_Control.c:93-117 | the loop writes `final` last, strictly decreasing values below `current` before it, and all but the last two writes stay above `final` |
| Ramp.RampValues | Stepper_Control.c:129-158 | a ramp writes the start value first and `final` last; the writes before the last strictly decrease; all but the last two lie above `final` |
| Ramp.RampNoOp | Stepper_Control.c:129-158 | when start is at or below final, the ramp is exactly the write of start followed by the write of final |
| Ramp.RampLoopShape | Stepper_Control.c:93-117 | the loop consists of writes to its own motor and STEP_DELAY waits, and ends on the write of `final` through either exit |
| Ramp.RampLoopPacing | Stepper_Control.c:93-116 | every wait of the loop is followed by a write of a value strictly below the one written before it (below `current` for the first) |
| Ramp.RampPacing | Stepper_Control.c:129-158 | a ramp consists of writes to its own motor and STEP_DELAY waits; each wait sits between two writes, the second strictly lower than the first |
| Ramp.RampLoopLength | Stepper_Control.c:133-156 | the loop ends after at most `current` passes |
| Ramp.RampReachesFinal | Stepper_Control.c:129-158 | unless it halted, a ramp leaves the motor's register at `final`; other registers and all lines are unchanged |
| Ramp.RampKeepsGate | Stepper_Control.c:129-158 | register writes and waits never move an enable line |
| Ramp.RampTo370 | Stepper_Control.c:89-118 | the ramp from 2000 to 370 writes 2000, 1000, 500, 250 and then 370, in 8 actions |
| Ramp.RampJumpBelowTen | Stepper_Control.c:137-143 | below 10 the ramp jumps to its target: from 12 to 5 it writes 12, 11, 10, 9 and then 5 |
| Ramp.RampLoopBound | Stepper_Control.c:93-117 | the loop never writes a value above both `current` and `final` |
| Ramp.RampBound | Stepper_Control.c:129-158 | a ramp never writes a value above both its start and its final value |
| TestSequence.StartMotorBound | Stepper_Control.c:58-63 | starting a motor writes nothing above 2000 or its cruise value |
| TestSequence.CyclesBound | Stepper_Control.c:58-73 | start-up, one cycle and the whole cycle loop write nothing above the crawl value 4000 |
| TestSequence.TestProcessWithinRange | Stepper_Control.c:55-78 | every value a test run writes to a velocity register lies in the range documented for Stepper_Set_Velocity at Stepper_Control.c:163, 0 to 4095 |
| TestSequence.StartMotorTouches | Stepper_Control.c:58-63 | starting a motor touches only that motor, opens with its enable, ends with the write of its cruise value and never samples the run input |
| TestSequence.StartOrder | Stepper_Control.c:58-63 | every action on A precedes every action on B, which precede every action on C; A is enabled first and C's cruise write is last |
| TestSequence.StartEndState | Stepper_Control.c:58-63 | unless it halted, start-up leaves the rig cruising: A, B and C all enabled, A at 370 and B and C at 398 |
| TestSequence.StartMotorReaches | Stepper_Control.c:58-63 | unless it halted, starting a motor leaves it enabled at its cruise value; the other motors' lines and registers are unchanged |
| TestSequence.CycleShape | Stepper_Control.c:66-72 | one cycle opens with the 1000 ms wait, touches only A, never samples the run input and ends with A's write of 370 |
| TestSequence.CrawlWhileDisabled | Stepper_Control.c:67-69 | the write of 4000 comes right after A's line is driven to the disable level |
| TestSequence.CyclesShape | Stepper_Control.c:65-73 | the cycle loop touches only A, samples the run input first and right after each cruise write of A, and ends on a low sample |
| TestSequence.CyclesLeaveBAndC | Stepper_Control.c:65-73 | the cycle loop leaves B's and C's lines and registers unchanged |
| TestSequence.CyclesEndAtCruise | Stepper_Control.c:65-73 | unless it halted, the cycle loop leaves A at 370, and enabled again if it was enabled on entry |
| TestSequence.WaitSplit | Stepper_Control.c:57 | on k low samples and then a high one, the busy-wait takes exactly those k + 1 samples and leaves the rest |
| TestSequence.WaitOnlyReads | Stepper_Control.c:57 | the busy-wait does nothing but sample the run input |
| TestSequence.NoRunNoMotion | Stepper_Control.c:57 | while the run input never reads high, only low samples are taken and no line or register changes |
| TestSequence.ProcessSplit | Stepper_Control.c:57-78 | after k low samples and one high one, the sequencer runs start-up, the cycle loop on the following samples, and shut-down |
| TestSequence.RunningEndState | Stepper_Control.c:58-77 | unless it halted, after the high sample the sequencer ends with all three lines disabled, A at 370 and B and C at 398 |
| TestSequence.ProcessEndState | Stepper_Control.c:55-78 | a whole test run halts only on a driver failure; otherwise it ends with all three lines disabled, A at 370 and B and C at 398 |
| StepperControl.Controller.Enable | Stepper_Control.h:52-54 | writes the enable level to the motor's own line and logs it |
| StepperControl.Controller.Disable | Stepper_Control.h:55-57 | writes the disable level to the motor's own line and logs it |
| StepperControl.Controller.ReadRunPin | Stepper_Control.c:57 | returns the next run-input sample, low once the samples run out, and logs it |
| StepperControl.Controller.SetVelocity | Stepper_Control.c:165-174 | the new state is that of one register write; on a driver failure the controller halts |
| StepperControl.Controller.IncreaseVelocity | Stepper_Control.c:129-158 | the loop performs exactly the actions of the ramp from `initial` to `final`, stopping at a halt |
| StepperControl.Controller.SlowAcceleration | Stepper_Control.c:89-118 | performs exactly the actions of IncreaseVelocity from 2000, stopping at a halt |
| StepperControl.Controller.DisableAll | Stepper_Control.c:75-77 | disables A, B and C in order; afterwards no line is at the enable level |
| StepperControl.Controller.Init | Stepper_Control.c:35-48 | disables A, B and C in order; afterwards no line is at the enable level |
| StepperControl.Controller.WaitForRun | Stepper_Control.c:57 | performs exactly the busy-wait's samples; it reports a start exactly when some sample reads high, and then leaves the samples after the first high one |
| StepperControl.Controller.EnableAndRamp | Stepper_Control.c:58-59 | enables a motor and ramps it to its cruise value |
| StepperControl.Controller.StartAll | Stepper_Control.c:58-63 | performs exactly the start-up actions: A, then B, then C |
| StepperControl.Controller.CycleA | Stepper_Control.c:67-72 | performs exactly one cycle of A, stopping at a halt |
| StepperControl.Controller.RunCycles | Stepper_Control.c:65-73 | loops while the sample reads high and performs exactly the cycle-loop actions for the samples taken |
| StepperControl.Controller.TestProcess | Stepper_Control.c:55-78 | performs exactly the test-run actions for the given run-input samples |

## Left out

- The timer start-up in Stepper_Init (Stepper_Control.c:37-43) is left out: it is peripheral bring-up with no state the control logic reads.
- Inside Stepper_Set_Velocity, the PWM stop and start and the base-init call (Stepper_Control.c:167-173) become one write that may fail. The driver's statuses are an input sequence. The handle is passed by value, so the `Init.Prescaler` assignment lands in a copy; the model keeps the hardware register, not the global handle struct.
- HAL_Delay is logged with its duration in milliseconds. Real time is not modelled.
- The timer-clock settings and the step frequency they imply (Stepper_Control.c:12-25) are documentation and physical conversion, so they are not modelled.
- The busy-wait at Stepper_Control.c:57 never returns if the run input never reads high. The run input is a finite sequence of samples, read low past its end. Faced with that, `Controller.WaitForRun` returns and the test run stops.
- `Controller.WaitForRun` and `NoRunNoMotion` therefore state what happens up to the last sample, not an endless wait.
- Error_Handler never returns. The model records a halt and every method returns at once.
- The actual pulse generation by the timers, which run on their own, is not modelled. There is no concurrency in the code.
- `NUMBER_OF_STEPS` and the SP_ speeds other than SP_005FPS are not used by the control code. They appear only as constants and in the table-ordering lemma.
- Controller.SetVelocity: accepts any 16-bit value. Neither the code nor the model checks the documented range of 0 to 4095. `TestSequence.TestProcessWithinRange` shows that the values the test run uses keep to it.
