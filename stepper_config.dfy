/**
 * Build-time configuration of the stepper test rig: the motors, their
 * enable pins and step timers, the pin levels, the ramp delay and the
 * table of prescaler values for the speeds the rig was tuned for.
 */
module StepperConfig {

  /** A 16-bit unsigned value, the width of every velocity in the C code. */
  newtype u16 = x: int | 0 <= x < 0x1_0000

  /** The three motors of the rig. */
  datatype Motor = A | B | C

  /** Level of a GPIO output pin. */
  datatype PinState = PinReset | PinSet

  /** The timer whose prescaler sets a motor's step rate. */
  datatype Timer = Htim1 | Htim2 | Htim15

  /** The GPIO line wired to a motor driver's nEnable input. */
  datatype EnablePin = StepperAEnablePin | StepperBEnablePin | StepperCEnablePin

  /** Timer handle bound to each motor. */
  function HandleOf(m: Motor): Timer
  {
    match m
    case A => Htim1
    case B => Htim2
    case C => Htim15
  }

  /** Enable line bound to each motor. */
  function PinOf(m: Motor): EnablePin
  {
    match m
    case A => StepperAEnablePin
    case B => StepperBEnablePin
    case C => StepperCEnablePin
  }

  /**
   * No two motors share a timer or an enable line. The machine model keys
   * each line and each register by its Motor, so this binding is what makes
   * a per-motor write a write to that motor's own pin and timer.
   */
  lemma BindingsDistinct(m: Motor, n: Motor)
    ensures HandleOf(m) == HandleOf(n) <==> m == n
    ensures PinOf(m) == PinOf(n) <==> m == n
  {
  }

  /** The drivers are enabled by a LOW level on nEnable (active low). */
  predicate Enabled(level: PinState)
  {
    level == PinReset
  }

  /** Level written by the enable macros and by the disable macros. */
  const ENABLE_LEVEL: PinState := PinReset
  const DISABLE_LEVEL: PinState := PinSet

  /** Milliseconds waited between two steps of every ramp. */
  const STEP_DELAY: nat := 10

  /** Largest velocity value Stepper_Set_Velocity is documented to take (0 to 4095). */
  const VELOCITY_MAX: u16 := 4095

  /** Declared but never used by the control code. */
  const NUMBER_OF_STEPS: nat := 30

  const SP_005FPS: u16 := 398
  const SP_01FPS: u16 := 198
  const SP_02FPS: u16 := 99
  const SP_03FPS: u16 := 66
  const SP_04FPS: u16 := 49
  const SP_05FPS: u16 := 38
  const SP_06FPS: u16 := 32
  const SP_07FPS: u16 := 27
  const SP_08FPS: u16 := 24
  const SP_09FPS: u16 := 21
  const SP_10FPS: u16 := 19
  const SP_11FPS: u16 := 17
  const SP_12FPS: u16 := 15
  const SP_13FPS: u16 := 14
  const SP_14FPS: u16 := 13
  const SP_15FPS: u16 := 12
  const SP_16FPS: u16 := 11
  const SP_17FPS: u16 := 11
  const SP_18FPS: u16 := 10

  /** The speed table, slowest speed (0.05 FPS) first. */
  const SP_TABLE: seq<u16> := [
    SP_005FPS, SP_01FPS, SP_02FPS, SP_03FPS, SP_04FPS, SP_05FPS, SP_06FPS,
    SP_07FPS, SP_08FPS, SP_09FPS, SP_10FPS, SP_11FPS, SP_12FPS, SP_13FPS,
    SP_14FPS, SP_15FPS, SP_16FPS, SP_17FPS, SP_18FPS
  ]

  /** Prescaler is inverse to speed: the table never rises as the speed rises. */
  lemma SpTableNonIncreasing()
    ensures forall i, j :: 0 <= i <= j < |SP_TABLE| ==> SP_TABLE[j] <= SP_TABLE[i]
    ensures forall i :: 0 <= i < |SP_TABLE| ==> 10 <= SP_TABLE[i] <= SP_005FPS
  {
  }
}
