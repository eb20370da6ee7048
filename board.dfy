/**
 * The hardware the control code drives, seen as a state machine: one
 * enable line and one velocity (prescaler) register per motor, a log of
 * every completed action, the status the timer driver will report for its
 * next reconfigurations, the samples the run input will give, and the halt
 * state entered through the fatal error handler.
 *
 * An Event is both an action the control code performs and the record of
 * it in the log. Exec runs a sequence of them; once halted, nothing runs.
 */
module Board {
  import opened StepperConfig

  /** One action of the control code, as recorded in the log. */
  datatype Event =
    | Enable(motor: Motor)                     // Stepper_X_Enable()
    | Disable(motor: Motor)                    // Stepper_X_Disable()
    | SetVelocity(motor: Motor, value: u16)    // Stepper_Set_Velocity(value, handle)
    | Delay(ms: nat)                           // HAL_Delay(ms)
    | ReadRun(level: bool)                     // sample of the Start/Run input pin

  /** One value per motor. */
  datatype PerMotor<T> = PerMotor(a: T, b: T, c: T)
  {
    function At(m: Motor): T
    {
      match m
      case A => a
      case B => b
      case C => c
    }

    function With(m: Motor, v: T): (r: PerMotor<T>)
      ensures r.At(m) == v
      ensures forall n :: n != m ==> r.At(n) == At(n)
    {
      match m
      case A => this.(a := v)
      case B => this.(b := v)
      case C => this.(c := v)
    }
  }

  /** The motor whose gate or register an event changes, if any. */
  predicate Touches(e: Event, m: Motor)
  {
    match e
    case Enable(n) => n == m
    case Disable(n) => n == m
    case SetVelocity(n, _) => n == m
    case Delay(_) => false
    case ReadRun(_) => false
  }

  /**
   * Observable state. `hal` lists what the timer driver's base
   * initialisation will report (true = HAL_OK) on its next calls, and `run`
   * the levels the run input will show on its next samples; past the end of
   * `hal` every call succeeds, past the end of `run` the input reads low.
   */
  datatype Machine = Machine(
    gate: PerMotor<PinState>,
    velocity: PerMotor<u16>,
    log: seq<Event>,
    halted: bool,
    hal: seq<bool>,
    run: seq<bool>)

  /** The status the next base initialisation reports. */
  predicate NextInitOk(hal: seq<bool>)
  {
    hal == [] || hal[0]
  }

  /** The level the next sample of the run input gives. */
  predicate NextRunLevel(run: seq<bool>)
  {
    run != [] && run[0]
  }

  /** An input stream after one value has been taken from it. */
  function Rest(s: seq<bool>): (r: seq<bool>)
    ensures s == [] ==> r == []
    ensures s != [] ==> [s[0]] + r == s
  {
    if s == [] then [] else s[1..]
  }

  /** Every status in the stream is HAL_OK. */
  predicate AllOk(hal: seq<bool>)
  {
    forall i :: 0 <= i < |hal| ==> hal[i]
  }

  /** Perform one action. A halted machine does nothing. */
  function Do(s: Machine, e: Event): Machine
  {
    if s.halted then s
    else
      match e
      case Enable(m) => s.(gate := s.gate.With(m, ENABLE_LEVEL), log := s.log + [e])
      case Disable(m) => s.(gate := s.gate.With(m, DISABLE_LEVEL), log := s.log + [e])
      case SetVelocity(m, v) =>
        if NextInitOk(s.hal) then
          s.(velocity := s.velocity.With(m, v), log := s.log + [e], hal := Rest(s.hal))
        else
          s.(halted := true, hal := Rest(s.hal))
      case Delay(_) => s.(log := s.log + [e])
      case ReadRun(_) => s.(log := s.log + [e], run := Rest(s.run))
  }

  /** Perform a sequence of actions, in order. */
  function Exec(s: Machine, es: seq<Event>): Machine
    decreases |es|
  {
    if es == [] then s else Exec(Do(s, es[0]), es[1..])
  }

  /** Running `a` and then `b` is running `a + b`. */
  lemma {:induction false} ExecAppend(s: Machine, a: seq<Event>, b: seq<Event>)
    ensures Exec(s, a + b) == Exec(Exec(s, a), b)
    decreases |a|
  {
    if a != [] {
      assert (a + b)[0] == a[0];
      assert (a + b)[1..] == a[1..] + b;
      ExecAppend(Do(s, a[0]), a[1..], b);
    } else {
      assert a + b == b;
    }
  }

  /** Running an action in front of others. */
  lemma ExecCons(s: Machine, e: Event, rest: seq<Event>)
    ensures Exec(s, [e] + rest) == Exec(Do(s, e), rest)
  {
    assert ([e] + rest)[1..] == rest;
  }

  /**
   * Having run `a` out of `a + rest`, what remains to be run is `rest`; if
   * the machine halted on the way, it has already reached the end state.
   */
  lemma ExecThen(s: Machine, a: seq<Event>, rest: seq<Event>, goal: Machine)
    requires Exec(s, a + rest) == goal
    ensures Exec(Exec(s, a), rest) == goal
    ensures Exec(s, a).halted ==> Exec(s, a) == goal
  {
    ExecAppend(s, a, rest);
    if Exec(s, a).halted {
      ExecHalted(Exec(s, a), rest);
    }
  }

  /** Having run the first action of `todo`, the rest remains. */
  lemma ExecStep(s: Machine, e: Event, todo: seq<Event>, goal: Machine)
    requires todo != [] && todo[0] == e
    requires Exec(s, todo) == goal
    ensures Exec(Do(s, e), todo[1..]) == goal
  {
  }

  /** Running one action more. */
  lemma ExecSnoc(s: Machine, a: seq<Event>, e: Event)
    ensures Exec(s, a + [e]) == Do(Exec(s, a), e)
  {
    ExecAppend(s, a, [e]);
  }

  /** After the fatal handler nothing changes any more. */
  lemma {:induction false} ExecHalted(s: Machine, es: seq<Event>)
    requires s.halted
    ensures Exec(s, es) == s
    decreases |es|
  {
    if es != [] {
      ExecHalted(Do(s, es[0]), es[1..]);
    }
  }

  /**
   * The log grows by a prefix of the actions, by all of them unless the
   * machine halted, and the machine halts only if the driver reports a
   * failure. The log never records a failed reconfiguration.
   */
  lemma {:induction false} ExecLog(s: Machine, es: seq<Event>)
    ensures s.halted ==> Exec(s, es).halted
    ensures |s.log| <= |Exec(s, es).log| <= |s.log| + |es|
    ensures Exec(s, es).log == s.log + es[..|Exec(s, es).log| - |s.log|]
    ensures !Exec(s, es).halted ==> Exec(s, es).log == s.log + es
    ensures !s.halted && AllOk(s.hal) ==> !Exec(s, es).halted
    decreases |es|
  {
    if es != [] {
      var t := Do(s, es[0]);
      ExecLog(t, es[1..]);
      var r := Exec(t, es[1..]);
      assert AllOk(s.hal) ==> AllOk(t.hal);
      if t.log == s.log {
        if !s.halted {
          assert t.halted;
        }
        ExecHalted(t, es[1..]);
        assert es[..0] == [];
      } else {
        assert t.log == s.log + [es[0]];
        var k := |r.log| - |t.log|;
        assert es[..k + 1] == [es[0]] + es[1..][..k];
      }
    }
  }

  /** Actions that do not touch a motor leave its gate and its register alone. */
  lemma {:induction false} ExecFrame(s: Machine, es: seq<Event>, m: Motor)
    requires forall i :: 0 <= i < |es| ==> !Touches(es[i], m)
    ensures Exec(s, es).gate.At(m) == s.gate.At(m)
    ensures Exec(s, es).velocity.At(m) == s.velocity.At(m)
    decreases |es|
  {
    if es != [] {
      assert !Touches(es[0], m);
      ExecFrame(Do(s, es[0]), es[1..], m);
    }
  }

  /**
   * A register write changes only the addressed motor's register and the
   * log; when the driver reports a failure it changes no register and no
   * line, logs nothing and halts.
   */
  lemma SetVelocityEffect(s: Machine, m: Motor, v: u16)
    requires !s.halted
    ensures var t := Do(s, SetVelocity(m, v));
      && t.gate == s.gate
      && t.run == s.run
      && t.hal == Rest(s.hal)
      && (NextInitOk(s.hal) ==>
            && !t.halted
            && t.velocity.At(m) == v
            && (forall n :: n != m ==> t.velocity.At(n) == s.velocity.At(n))
            && t.log == s.log + [SetVelocity(m, v)])
      && (!NextInitOk(s.hal) ==> t.halted && t.velocity == s.velocity && t.log == s.log)
  {
  }

  /**
   * The enable and disable macros drive the motor's own line to the enable
   * or the disable level and leave every other line and every register alone.
   */
  lemma GateWriteEffect(s: Machine, m: Motor)
    requires !s.halted
    ensures Do(s, Enable(m)).gate.At(m) == ENABLE_LEVEL
    ensures Do(s, Disable(m)).gate.At(m) == DISABLE_LEVEL
    ensures forall n :: n != m ==>
      Do(s, Enable(m)).gate.At(n) == s.gate.At(n) && Do(s, Disable(m)).gate.At(n) == s.gate.At(n)
    ensures Do(s, Enable(m)).velocity == s.velocity && Do(s, Disable(m)).velocity == s.velocity
    ensures !Do(s, Enable(m)).halted && !Do(s, Disable(m)).halted
  {
  }

  /** Disabling a disabled motor is a plain pin write: nothing but the log changes. */
  lemma DisableIdempotent(s: Machine, m: Motor)
    ensures Do(Do(s, Disable(m)), Disable(m)).gate == Do(s, Disable(m)).gate
    ensures !s.halted ==> !Enabled(Do(s, Disable(m)).gate.At(m))
    ensures !s.halted ==> Enabled(Do(s, Enable(m)).gate.At(m))
  {
  }
}
