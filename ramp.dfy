/**
 * The velocity ramp: the actions Stepper_Increase_Velocity performs when it
 * walks a motor's prescaler from a start value toward a final value, and
 * what that sequence of actions guarantees.
 *
 * The schedule halves the value while it is at least 100, takes 10 off while
 * it is in [80, 100), takes 1 off while it is in [10, 80) and jumps straight
 * to the final value below 10. Each step is preceded by one STEP_DELAY wait.
 */
module Ramp {
  import opened StepperConfig
  import opened Board

  /** Velocity every Stepper_Slow_Acceleration_until_Set_Velocity starts from. */
  const START_VELOCITY: u16 := 2000

  /** Thresholds of the step schedule. */
  const HALVE_FROM: u16 := 100
  const COARSE_FROM: u16 := 80
  const JUMP_BELOW: u16 := 10

  /**
   * The next velocity of the schedule. It is strictly smaller, and the
   * subtraction never wraps: it stays at 9 or above.
   */
  function Step(v: u16): (r: u16)
    requires v >= JUMP_BELOW
    ensures 9 <= r < v
  {
    if v < COARSE_FROM then v - 1
    else if v < HALVE_FROM then v - 10
    else v / 2
  }

  /**
   * What the ramp loop does from `current` on: while `current` is above
   * `final`, one delay and one register write per pass; the final value is
   * written last, by the early return below 10 or after the loop.
   */
  function RampLoop(m: Motor, current: u16, final: u16): seq<Event>
    decreases current
  {
    if current <= final then [SetVelocity(m, final)]
    else if current < JUMP_BELOW then [Delay(STEP_DELAY), SetVelocity(m, final)]
    else [Delay(STEP_DELAY), SetVelocity(m, Step(current))] + RampLoop(m, Step(current), final)
  }

  /** All actions of one ramp: the start value is written before the loop. */
  function RampEvents(m: Motor, start: u16, final: u16): seq<Event>
  {
    [SetVelocity(m, start)] + RampLoop(m, start, final)
  }

  /** The values a sequence of actions writes to velocity registers, in order. */
  function Applied(es: seq<Event>): seq<u16>
  {
    if es == [] then []
    else if es[0].SetVelocity? then [es[0].value] + Applied(es[1..])
    else Applied(es[1..])
  }

  lemma AppliedStep(m: Motor, v: u16, rest: seq<Event>)
    ensures Applied([Delay(STEP_DELAY), SetVelocity(m, v)] + rest) == [v] + Applied(rest)
    ensures Applied([SetVelocity(m, v)] + rest) == [v] + Applied(rest)
    ensures Applied([Delay(STEP_DELAY), SetVelocity(m, v)]) == [v]
    ensures Applied([SetVelocity(m, v)]) == [v]
  {
    assert ([Delay(STEP_DELAY), SetVelocity(m, v)] + rest)[1..] == [SetVelocity(m, v)] + rest;
    assert ([SetVelocity(m, v)] + rest)[1..] == rest;
    assert [Delay(STEP_DELAY), SetVelocity(m, v)][1..] == [SetVelocity(m, v)];
    assert [SetVelocity(m, v)][1..] == [];
  }

  /** A sequence is strictly decreasing. */
  predicate StrictlyDecreasing(vs: seq<u16>)
  {
    forall i, j :: 0 <= i < j < |vs| ==> vs[j] < vs[i]
  }

  lemma ConsDecreasing(x: u16, xs: seq<u16>)
    requires StrictlyDecreasing(xs)
    requires xs != [] ==> xs[0] < x
    ensures StrictlyDecreasing([x] + xs)
  {
    var ys := [x] + xs;
    forall i, j | 0 <= i < j < |ys|
      ensures ys[j] < ys[i]
    {
      assert ys[j] == xs[j - 1];
      if i > 0 {
        assert ys[i] == xs[i - 1];
      } else if j > 1 {
        assert xs[j - 1] < xs[0];
      }
    }
  }

  /**
   * The values the loop writes: the last one is `final`, the ones before it
   * strictly decrease from below `current`, and all of them except possibly
   * the last one before `final` stay above `final`.
   */
  lemma {:induction false} RampLoopValues(m: Motor, current: u16, final: u16)
    ensures var vs := Applied(RampLoop(m, current, final));
      && |vs| >= 1
      && vs[|vs| - 1] == final
      && (current <= final ==> vs == [final])
      && StrictlyDecreasing([current] + vs[..|vs| - 1])
      && (forall i :: 0 <= i < |vs| - 2 ==> final < vs[i])
      && (current > final ==> vs[0] < current)
    decreases current
  {
    var es := RampLoop(m, current, final);
    if current <= final {
      AppliedStep(m, final, []);
    } else if current < JUMP_BELOW {
      AppliedStep(m, final, []);
      assert [current] + [final][..0] == [current];
    } else {
      var n := Step(current);
      var rest := RampLoop(m, n, final);
      AppliedStep(m, n, rest);
      RampLoopValues(m, n, final);
      var ws := Applied(rest);
      var vs := Applied(es);
      assert vs == [n] + ws;
      assert [current] + vs[..|vs| - 1] == [current] + ([n] + ws[..|ws| - 1]);
      if n <= final {
        assert ws == [final];
        assert [current] + vs[..|vs| - 1] == [current, n];
      } else {
        ConsDecreasing(current, [n] + ws[..|ws| - 1]);
        assert forall i :: 0 <= i < |vs| - 2 ==> final < vs[i] by {
          forall i | 0 <= i < |vs| - 2
            ensures final < vs[i]
          {
            if i > 0 {
              assert vs[i] == ws[i - 1];
            }
          }
        }
      }
    }
  }

  /**
   * The values one ramp writes: the start value first, the final value
   * last, strictly decreasing before that, and all above `final` except
   * the one the loop stops on, which can lie below it (halving can pass
   * the final value).
   */
  lemma RampValues(m: Motor, start: u16, final: u16)
    ensures var vs := Applied(RampEvents(m, start, final));
      && |vs| >= 2
      && vs[0] == start
      && vs[|vs| - 1] == final
      && StrictlyDecreasing(vs[..|vs| - 1])
      && (forall i :: 0 <= i < |vs| - 2 ==> final < vs[i])
  {
    RampLoopValues(m, start, final);
    AppliedStep(m, start, RampLoop(m, start, final));
    var ws := Applied(RampLoop(m, start, final));
    var vs := Applied(RampEvents(m, start, final));
    assert vs == [start] + ws;
    assert vs[..|vs| - 1] == [start] + ws[..|ws| - 1];
    if start > final {
      assert forall i :: 0 <= i < |vs| - 2 ==> final < vs[i] by {
        forall i | 0 <= i < |vs| - 2
          ensures final < vs[i]
        {
          if i > 0 {
            assert vs[i] == ws[i - 1];
          }
        }
      }
    }
  }

  /** Every register write in `es` writes a value of at most `hi`. */
  predicate WritesAtMost(es: seq<Event>, hi: u16)
  {
    forall i :: 0 <= i < |es| && es[i].SetVelocity? ==> es[i].value <= hi
  }

  /** Joining two runs whose writes are bounded by `hi`. */
  lemma WritesAtMostAppend(a: seq<Event>, b: seq<Event>, hi: u16)
    requires WritesAtMost(a, hi) && WritesAtMost(b, hi)
    ensures WritesAtMost(a + b, hi)
  {
    forall i | 0 <= i < |a + b| && (a + b)[i].SetVelocity?
      ensures (a + b)[i].value <= hi
    {
      if i >= |a| {
        assert (a + b)[i] == b[i - |a|];
      }
    }
  }

  /** The loop never writes a value above both `current` and `final`. */
  lemma {:induction false} RampLoopBound(m: Motor, current: u16, final: u16)
    ensures WritesAtMost(RampLoop(m, current, final), if current <= final then final else current)
    decreases current
  {
    if current > final && current >= JUMP_BELOW {
      var n := Step(current);
      RampLoopBound(m, n, final);
      WritesAtMostAppend([Delay(STEP_DELAY), SetVelocity(m, n)], RampLoop(m, n, final), current);
    }
  }

  /** A ramp never writes a value above both its start and its final value. */
  lemma RampBound(m: Motor, start: u16, final: u16)
    ensures WritesAtMost(RampEvents(m, start, final), if start <= final then final else start)
  {
    RampLoopBound(m, start, final);
    WritesAtMostAppend([SetVelocity(m, start)], RampLoop(m, start, final), if start <= final then final else start);
  }

  /** A ramp that starts at or below its final value writes start, then final. */
  lemma RampNoOp(m: Motor, start: u16, final: u16)
    requires start <= final
    ensures RampEvents(m, start, final) == [SetVelocity(m, start), SetVelocity(m, final)]
  {
  }

  /**
   * The loop's actions are writes to motor `m` and STEP_DELAY waits, and
   * the last one is the write of `final`.
   */
  lemma {:induction false} RampLoopShape(m: Motor, current: u16, final: u16)
    ensures var es := RampLoop(m, current, final);
      && |es| >= 1
      && es[|es| - 1] == SetVelocity(m, final)
      && (forall i :: 0 <= i < |es| ==> es[i].SetVelocity? || es[i] == Delay(STEP_DELAY))
      && (forall i :: 0 <= i < |es| ==> es[i].SetVelocity? ==> es[i].motor == m)
    decreases current
  {
    if current > final && current >= JUMP_BELOW {
      var n := Step(current);
      var rest := RampLoop(m, n, final);
      RampLoopShape(m, n, final);
      var es := RampLoop(m, current, final);
      assert es == [Delay(STEP_DELAY), SetVelocity(m, n)] + rest;
      assert forall i :: 2 <= i < |es| ==> es[i] == rest[i - 2];
    }
  }

  /**
   * Pacing: every wait of the loop is followed by a write of a value
   * strictly below the one written before the wait (below `current` for
   * the first wait).
   */
  lemma {:induction false} RampLoopPacing(m: Motor, current: u16, final: u16)
    ensures var es := RampLoop(m, current, final);
      && (es[0].Delay? ==> 1 < |es| && es[1].SetVelocity? && es[1].value < current)
      && (forall i :: 0 < i < |es| && es[i].Delay? ==>
            i + 1 < |es| && es[i - 1].SetVelocity? && es[i + 1].SetVelocity?
            && es[i + 1].value < es[i - 1].value)
    decreases current
  {
    if current > final && current >= JUMP_BELOW {
      var n := Step(current);
      var rest := RampLoop(m, n, final);
      RampLoopPacing(m, n, final);
      var es := RampLoop(m, current, final);
      assert es == [Delay(STEP_DELAY), SetVelocity(m, n)] + rest;
      forall i | 0 < i < |es| && es[i].Delay?
        ensures i + 1 < |es| && es[i - 1].SetVelocity? && es[i + 1].SetVelocity?
        ensures es[i + 1].value < es[i - 1].value
      {
        if i == 2 {
          assert es[i - 1] == SetVelocity(m, n);
        } else {
          assert es[i] == rest[i - 2];
          assert es[i + 1] == rest[i - 1];
          assert es[i - 1] == rest[i - 3];
        }
      }
    }
  }

  /**
   * Pacing of a whole ramp: it opens with the write of the start value and
   * closes with the write of the final value; every wait is one STEP_DELAY
   * between two writes, the second strictly below the first.
   */
  lemma RampPacing(m: Motor, start: u16, final: u16)
    ensures var es := RampEvents(m, start, final);
      && |es| >= 2
      && es[0] == SetVelocity(m, start)
      && es[|es| - 1] == SetVelocity(m, final)
      && (forall i :: 0 <= i < |es| ==> es[i].SetVelocity? || es[i] == Delay(STEP_DELAY))
      && (forall i :: 0 <= i < |es| ==> Touches(es[i], m) || es[i].Delay?)
      && (forall i :: 0 <= i < |es| && es[i].Delay? ==>
            0 < i && i + 1 < |es| && es[i - 1].SetVelocity? && es[i + 1].SetVelocity?
            && es[i + 1].value < es[i - 1].value)
  {
    var rest := RampLoop(m, start, final);
    RampLoopShape(m, start, final);
    RampLoopPacing(m, start, final);
    var es := RampEvents(m, start, final);
    forall i | 0 <= i < |es| && es[i].Delay?
      ensures 0 < i && i + 1 < |es| && es[i - 1].SetVelocity? && es[i + 1].SetVelocity?
      ensures es[i + 1].value < es[i - 1].value
    {
      assert es[i] == rest[i - 1];
      assert es[i + 1] == rest[i];
      if i > 1 {
        assert es[i - 1] == rest[i - 2];
      }
    }
  }

  /** Every ramp ends: it takes at most `start` passes of the loop. */
  lemma {:induction false} RampLoopLength(m: Motor, current: u16, final: u16)
    ensures |RampLoop(m, current, final)| <= 2 * current as int + 1
    decreases current
  {
    if current > final && current >= JUMP_BELOW {
      RampLoopLength(m, Step(current), final);
    }
  }

  /** Running a ramp leaves the motor's register at `final` unless the machine halted. */
  lemma RampReachesFinal(s: Machine, m: Motor, start: u16, final: u16)
    ensures !Exec(s, RampEvents(m, start, final)).halted ==>
      Exec(s, RampEvents(m, start, final)).velocity.At(m) == final
    ensures forall n :: n != m ==>
      Exec(s, RampEvents(m, start, final)).velocity.At(n) == s.velocity.At(n)
    ensures Exec(s, RampEvents(m, start, final)).gate == s.gate
  {
    var es := RampEvents(m, start, final);
    RampPacing(m, start, final);
    ExecSnoc(s, es[..|es| - 1], es[|es| - 1]);
    assert es[..|es| - 1] + [es[|es| - 1]] == es;
    forall n | n != m
      ensures Exec(s, es).velocity.At(n) == s.velocity.At(n)
      ensures Exec(s, es).gate.At(n) == s.gate.At(n)
    {
      ExecFrame(s, es, n);
    }
    RampKeepsGate(s, es);
  }

  /** Register writes and waits never move an enable line. */
  lemma {:induction false} RampKeepsGate(s: Machine, es: seq<Event>)
    requires forall i :: 0 <= i < |es| ==> es[i].SetVelocity? || es[i].Delay?
    ensures Exec(s, es).gate == s.gate
    decreases |es|
  {
    if es != [] {
      RampKeepsGate(Do(s, es[0]), es[1..]);
    }
  }

  /**
   * The ramp to the A cruise value: halving passes 370 at 250, so the
   * values written are 2000, 1000, 500, 250 and then 370.
   */
  lemma RampTo370()
    ensures Applied(RampEvents(A, START_VELOCITY, 370)) == [2000, 1000, 500, 250, 370]
    ensures |RampEvents(A, START_VELOCITY, 370)| == 8
  {
    var l250 := RampLoop(A, 250, 370);
    var l500 := RampLoop(A, 500, 370);
    var l1000 := RampLoop(A, 1000, 370);
    var l2000 := RampLoop(A, 2000, 370);
    assert l250 == [SetVelocity(A, 370)];
    assert l500 == [Delay(STEP_DELAY), SetVelocity(A, 250)] + l250;
    assert l1000 == [Delay(STEP_DELAY), SetVelocity(A, 500)] + l500;
    assert l2000 == [Delay(STEP_DELAY), SetVelocity(A, 1000)] + l1000;
    AppliedStep(A, 370, []);
    AppliedStep(A, 250, l250);
    AppliedStep(A, 500, l500);
    AppliedStep(A, 1000, l1000);
    AppliedStep(A, 2000, l2000);
  }

  /**
   * A ramp whose final value is below 10 ends on the jump: from 12 to 5 the
   * values are counted down by one to 9, and then 5 is written.
   */
  lemma RampJumpBelowTen()
    ensures Applied(RampEvents(A, 12, 5)) == [12, 11, 10, 9, 5]
  {
    var l9 := RampLoop(A, 9, 5);
    var l10 := RampLoop(A, 10, 5);
    var l11 := RampLoop(A, 11, 5);
    var l12 := RampLoop(A, 12, 5);
    assert l9 == [Delay(STEP_DELAY), SetVelocity(A, 5)];
    assert l10 == [Delay(STEP_DELAY), SetVelocity(A, 9)] + l9;
    assert l11 == [Delay(STEP_DELAY), SetVelocity(A, 10)] + l10;
    assert l12 == [Delay(STEP_DELAY), SetVelocity(A, 11)] + l11;
    AppliedStep(A, 5, []);
    AppliedStep(A, 9, l9);
    AppliedStep(A, 10, l10);
    AppliedStep(A, 11, l11);
    AppliedStep(A, 12, l12);
  }
}
