/**
 * The stepper controller as the C code drives it: the enable lines and the
 * timers' prescaler registers are fixed-size arrays the methods write in
 * place, every completed action is appended to a log, and a failed timer
 * reconfiguration halts the controller for good.
 *
 * Each method is proved to do exactly what the matching action sequence of
 * Board, Ramp and TestSequence does: Abs() afterwards is Exec of that
 * sequence on Abs() before.
 */
module StepperControl {
  import opened StepperConfig
  import opened Board
  import opened Ramp
  import opened TestSequence

  /** Position of a motor's line and register in the arrays. */
  function Slot(m: Motor): (k: nat)
    ensures k < 3
  {
    match m
    case A => 0
    case B => 1
    case C => 2
  }

  class Controller {
    /** nEnable output of each motor driver (active low). */
    const gate: array<PinState>
    /** Prescaler register of each motor's step timer. */
    const prescaler: array<u16>
    /** Every completed action, oldest first. */
    var log: seq<Event>
    /** Set by the fatal error handler; nothing runs afterwards. */
    var halted: bool
    /** What the timer driver's base initialisation reports on its next calls. */
    var hal: seq<bool>
    /** What the run input shows on its next samples. */
    var run: seq<bool>

    ghost predicate Valid()
      reads this
    {
      gate.Length == 3 && prescaler.Length == 3
    }

    /** The observable state. */
    ghost function Abs(): Machine
      reads this, gate, prescaler
      requires Valid()
    {
      Machine(PerMotor(gate[0], gate[1], gate[2]),
              PerMotor(prescaler[0], prescaler[1], prescaler[2]),
              log, halted, hal, run)
    }

    /** A controller in the given power-on state. */
    constructor (gates: PerMotor<PinState>, velocities: PerMotor<u16>, hal: seq<bool>, run: seq<bool>)
      ensures Valid() && fresh(gate) && fresh(prescaler)
      ensures Abs() == Machine(gates, velocities, [], false, hal, run)
    {
      gate := new PinState[3] [gates.a, gates.b, gates.c];
      prescaler := new u16[3] [velocities.a, velocities.b, velocities.c];
      log := [];
      halted := false;
      this.hal := hal;
      this.run := run;
    }

    /** Stepper_X_Enable(): drive the motor's nEnable line low. */
    method Enable(m: Motor)
      requires Valid() && !halted
      modifies gate, this`log
      ensures Valid()
      ensures Abs() == Do(old(Abs()), Event.Enable(m))
    {
      gate[Slot(m)] := ENABLE_LEVEL;
      log := log + [Event.Enable(m)];
    }

    /** Stepper_X_Disable(): drive the motor's nEnable line high. */
    method Disable(m: Motor)
      requires Valid() && !halted
      modifies gate, this`log
      ensures Valid()
      ensures Abs() == Do(old(Abs()), Event.Disable(m))
    {
      gate[Slot(m)] := DISABLE_LEVEL;
      log := log + [Event.Disable(m)];
    }

    /** HAL_Delay(ms): only its place in the log is modelled. */
    method Delay(ms: nat)
      requires Valid() && !halted
      modifies this`log
      ensures Valid()
      ensures Abs() == Do(old(Abs()), Event.Delay(ms))
    {
      log := log + [Event.Delay(ms)];
    }

    /** One sample of the Start/Run input; past the end of the samples it reads low. */
    method ReadRunPin() returns (level: bool)
      requires Valid() && !halted
      modifies this`log, this`run
      ensures Valid()
      ensures level == NextRunLevel(old(run))
      ensures Abs() == Do(old(Abs()), ReadRun(level))
    {
      level := run != [] && run[0];
      run := Rest(run);
      log := log + [ReadRun(level)];
    }

    /**
     * Stepper_Set_Velocity: reconfigure the motor's timer with the new
     * prescaler. If the driver reports a failure, the fatal handler runs.
     */
    method SetVelocity(value: u16, m: Motor)
      requires Valid() && !halted
      modifies prescaler, this`log, this`halted, this`hal
      ensures Valid()
      ensures Abs() == Do(old(Abs()), Event.SetVelocity(m, value))
    {
      var ok := hal == [] || hal[0];
      hal := Rest(hal);
      if !ok {
        halted := true;
        return;
      }
      prescaler[Slot(m)] := value;
      log := log + [Event.SetVelocity(m, value)];
    }

    /** Stepper_Increase_Velocity: ramp from `initial` down to `final`. */
    method IncreaseVelocity(initial: u16, final: u16, m: Motor)
      requires Valid() && !halted
      modifies prescaler, this`log, this`halted, this`hal
      ensures Valid()
      ensures Abs() == Exec(old(Abs()), RampEvents(m, initial, final))
    {
      ghost var goal := Exec(Abs(), RampEvents(m, initial, final));
      ExecCons(Abs(), Event.SetVelocity(m, initial), RampLoop(m, initial, final));
      var current := initial;
      SetVelocity(current, m);
      if halted {
        ExecHalted(Abs(), RampLoop(m, initial, final));
        return;
      }
      while current > final
        invariant Valid() && !halted
        invariant Exec(Abs(), RampLoop(m, current, final)) == goal
        decreases current
      {
        ghost var rest := RampLoop(m, current, final);
        ExecCons(Abs(), Event.Delay(STEP_DELAY), rest[1..]);
        Delay(STEP_DELAY);
        ghost var next := rest[1..];
        ExecCons(Abs(), next[0], next[1..]);
        if current < 80 {
          if current < 10 {
            SetVelocity(final, m);
            return;
          }
          current := current - 1;
          SetVelocity(current, m);
        } else if current < 100 {
          current := current - 10;
          SetVelocity(current, m);
        } else {
          current := current / 2;
          SetVelocity(current, m);
        }
        if halted {
          ExecHalted(Abs(), next[1..]);
          return;
        }
      }
      SetVelocity(final, m);
    }

    /**
     * Stepper_Slow_Acceleration_until_Set_Velocity: ramp from the fixed
     * start value 2000 down to `final`.
     */
    method SlowAcceleration(final: u16, m: Motor)
      requires Valid() && !halted
      modifies prescaler, this`log, this`halted, this`hal
      ensures Valid()
      ensures Abs() == Exec(old(Abs()), RampEvents(m, START_VELOCITY, final))
    {
      ghost var goal := Exec(Abs(), RampEvents(m, START_VELOCITY, final));
      ExecCons(Abs(), Event.SetVelocity(m, START_VELOCITY), RampLoop(m, START_VELOCITY, final));
      var current: u16 := 2000;
      SetVelocity(current, m);
      if halted {
        ExecHalted(Abs(), RampLoop(m, START_VELOCITY, final));
        return;
      }
      while current > final
        invariant Valid() && !halted
        invariant Exec(Abs(), RampLoop(m, current, final)) == goal
        decreases current
      {
        ghost var rest := RampLoop(m, current, final);
        ExecCons(Abs(), Event.Delay(STEP_DELAY), rest[1..]);
        Delay(STEP_DELAY);
        ghost var next := rest[1..];
        ExecCons(Abs(), next[0], next[1..]);
        if current < 80 {
          if current < 10 {
            SetVelocity(final, m);
            return;
          }
          current := current - 1;
          SetVelocity(current, m);
        } else if current < 100 {
          current := current - 10;
          SetVelocity(current, m);
        } else {
          current := current / 2;
          SetVelocity(current, m);
        }
        if halted {
          ExecHalted(Abs(), next[1..]);
          return;
        }
      }
      SetVelocity(final, m);
    }

    /** Disable A, B and C, in that order. */
    method DisableAll()
      requires Valid() && !halted
      modifies gate, this`log
      ensures Valid()
      ensures Abs() == Exec(old(Abs()), DisableAllEvents())
      ensures !Enabled(gate[0]) && !Enabled(gate[1]) && !Enabled(gate[2])
    {
      ghost var s := Abs();
      Disable(A);
      Disable(B);
      Disable(C);
      ExecCons(s, Event.Disable(A), [Event.Disable(B), Event.Disable(C)]);
      ExecCons(Do(s, Event.Disable(A)), Event.Disable(B), [Event.Disable(C)]);
      ExecCons(Do(Do(s, Event.Disable(A)), Event.Disable(B)), Event.Disable(C), []);
    }

    /** Stepper_Init, without the timer start-up: disable every driver. */
    method Init()
      requires Valid() && !halted
      modifies gate, this`log
      ensures Valid()
      ensures Abs() == Exec(old(Abs()), DisableAllEvents())
      ensures !Enabled(gate[0]) && !Enabled(gate[1]) && !Enabled(gate[2])
    {
      DisableAll();
    }

    /**
     * The body of the cycle loop of Stepper_Test_Process: disable A, force
     * it to the crawl value without a ramp, let it settle, re-enable it and
     * ramp it back to its cruise value.
     */
    method CycleA()
      requires Valid() && !halted
      modifies gate, prescaler, this`log, this`halted, this`hal
      ensures Valid()
      ensures Abs() == Exec(old(Abs()), CycleEvents())
    {
      ghost var goal := Exec(Abs(), CycleEvents());
      ghost var todo := CycleEvents();
      ghost var s := Abs();
      Delay(1000);
      ExecStep(s, Event.Delay(1000), todo, goal);
      todo := todo[1..];
      s := Abs();
      Disable(A);
      ExecStep(s, Event.Disable(A), todo, goal);
      todo := todo[1..];
      s := Abs();
      SetVelocity(4000, A);
      ExecStep(s, Event.SetVelocity(A, 4000), todo, goal);
      todo := todo[1..];
      if halted {
        ExecHalted(Abs(), todo);
        return;
      }
      s := Abs();
      Delay(125);
      ExecStep(s, Event.Delay(125), todo, goal);
      todo := todo[1..];
      s := Abs();
      Enable(A);
      ExecStep(s, Event.Enable(A), todo, goal);
      todo := todo[1..];
      assert todo == RampEvents(A, START_VELOCITY, CRUISE_A);
      SlowAcceleration(370, A);
      assert Exec(Abs(), []) == Abs();
    }

    /**
     * The busy-wait that opens Stepper_Test_Process: sample the run input
     * until it reads high. If the samples run out first, the C code would
     * wait forever; the model returns with `started` false.
     */
    method WaitForRun() returns (started: bool)
      requires Valid() && !halted
      modifies this`log, this`run
      ensures Valid() && !halted
      ensures started == Started(old(run))
      ensures started ==> run == AfterStart(old(run))
      ensures Abs() == Exec(old(Abs()), WaitEvents(old(run)))
    {
      ghost var run0 := run;
      ghost var s0 := Abs();
      started := false;
      while !started
        invariant Valid() && !halted
        invariant Started(run0) == (started || Started(run))
        invariant AfterStart(run0) == if started then run else AfterStart(run)
        invariant Exec(s0, WaitEvents(run0)) == Exec(Abs(), if started then [] else WaitEvents(run))
        decreases |run|
      {
        if run == [] {
          return;
        }
        ExecCons(Abs(), ReadRun(run[0]), if run[0] then [] else WaitEvents(run[1..]));
        started := ReadRunPin();
      }
    }

    /** Enable a motor and ramp it from the start value to its cruise value. */
    method EnableAndRamp(m: Motor, cruise: u16)
      requires Valid() && !halted
      modifies gate, prescaler, this`log, this`halted, this`hal
      ensures Valid()
      ensures Abs() == Exec(old(Abs()), StartMotor(m, cruise))
    {
      ExecCons(Abs(), Event.Enable(m), RampEvents(m, START_VELOCITY, cruise));
      Enable(m);
      SlowAcceleration(cruise, m);
    }

    /**
     * The start-up of Stepper_Test_Process: enable A, B and C in turn and
     * ramp each to its cruise value.
     */
    method StartAll()
      requires Valid() && !halted
      modifies gate, prescaler, this`log, this`halted, this`hal
      ensures Valid()
      ensures Abs() == Exec(old(Abs()), StartEvents())
    {
      ghost var goal := Exec(Abs(), StartEvents());
      ExecThen(Abs(), StartMotor(A, CRUISE_A), StartMotor(B, CRUISE_BC) + StartMotor(C, CRUISE_BC), goal);
      EnableAndRamp(A, 370);
      if halted {
        return;
      }
      ExecThen(Abs(), StartMotor(B, CRUISE_BC), StartMotor(C, CRUISE_BC), goal);
      EnableAndRamp(B, SP_005FPS);
      if halted {
        return;
      }
      EnableAndRamp(C, SP_005FPS);
    }

    /**
     * The cycle loop of Stepper_Test_Process: while the run input reads
     * high, cycle motor A.
     */
    method RunCycles()
      requires Valid() && !halted
      modifies gate, prescaler, this`log, this`halted, this`hal, this`run
      ensures Valid()
      ensures Abs() == Exec(old(Abs()), Cycles(old(run)))
    {
      ghost var goal := Exec(Abs(), Cycles(run));
      ExecCons(Abs(), ReadRun(NextRunLevel(run)), if NextRunLevel(run) then CycleEvents() + Cycles(Rest(run)) else []);
      var level := ReadRunPin();
      while level
        invariant Valid() && !halted
        invariant Exec(Abs(), if level then CycleEvents() + Cycles(run) else []) == goal
        decreases |run| + if level then 1 else 0
      {
        ExecThen(Abs(), CycleEvents(), Cycles(run), goal);
        CycleA();
        if halted {
          return;
        }
        ExecCons(Abs(), ReadRun(NextRunLevel(run)), if NextRunLevel(run) then CycleEvents() + Cycles(Rest(run)) else []);
        level := ReadRunPin();
      }
    }

    /**
     * Stepper_Test_Process: wait for the run input, start A, B and C in
     * turn, cycle A while the input stays high, then disable everything.
     */
    method TestProcess()
      requires Valid() && !halted
      modifies gate, prescaler, this`log, this`halted, this`hal, this`run
      ensures Valid()
      ensures Abs() == Exec(old(Abs()), TestProcessEvents(old(run)))
    {
      ExecAppend(Abs(), WaitEvents(run), if Started(run) then Running(AfterStart(run)) else []);
      var started := WaitForRun();
      if !started {
        assert Exec(Abs(), []) == Abs();
        return;
      }
      ghost var goal := Exec(Abs(), Running(run));
      ExecThen(Abs(), StartEvents(), Cycles(run) + DisableAllEvents(), goal);
      StartAll();
      if halted {
        return;
      }
      ExecThen(Abs(), Cycles(run), DisableAllEvents(), goal);
      RunCycles();
      if halted {
        return;
      }
      DisableAll();
    }
  }
}
