/**
 * The actions of Stepper_Init and Stepper_Test_Process, as a function of
 * the samples the run input gives, and what their order guarantees.
 *
 * The sequencer waits for the run input to read high, enables and ramps
 * motors A, B and C one after the other, then, for as long as the input
 * reads high at the top of a cycle, disables A, forces it to the crawl
 * value, re-enables it and ramps it back to cruise. When the input reads
 * low it disables all three motors.
 */
module TestSequence {
  import opened StepperConfig
  import opened Board
  import opened Ramp

  /** Cruise value of motor A. */
  const CRUISE_A: u16 := 370
  /** Cruise value of motors B and C. */
  const CRUISE_BC: u16 := SP_005FPS
  /** Value motor A is forced to, without a ramp, while it is disabled. */
  const CRAWL: u16 := 4000
  /** Wait at the top of every cycle, in milliseconds. */
  const CYCLE_INTERVAL: nat := 1000
  /** Wait between the crawl write and re-enabling A, in milliseconds. */
  const SETTLE_INTERVAL: nat := 125

  /**
   * Every driver disabled, A then B then C: the effect of Stepper_Init that
   * this model keeps, and the shut-down of Stepper_Test_Process.
   */
  function DisableAllEvents(): seq<Event>
  {
    [Disable(A), Disable(B), Disable(C)]
  }

  /** Enable one motor and ramp it from the start value to its cruise value. */
  function StartMotor(m: Motor, cruise: u16): seq<Event>
  {
    [Enable(m)] + RampEvents(m, START_VELOCITY, cruise)
  }

  /** Start-up: A, then B, then C, each enabled and ramped before the next. */
  function StartEvents(): seq<Event>
  {
    StartMotor(A, CRUISE_A) + (StartMotor(B, CRUISE_BC) + StartMotor(C, CRUISE_BC))
  }

  /** One pass of the cycle loop on motor A. */
  function CycleEvents(): seq<Event>
  {
    [Delay(CYCLE_INTERVAL), Disable(A), SetVelocity(A, CRAWL), Delay(SETTLE_INTERVAL)]
      + StartMotor(A, CRUISE_A)
  }

  /** The cycle loop: one sample at the top of every pass, and a last low one. */
  function Cycles(run: seq<bool>): seq<Event>
    decreases |run|
  {
    [ReadRun(NextRunLevel(run))]
      + if NextRunLevel(run) then CycleEvents() + Cycles(Rest(run)) else []
  }

  /** What follows the first high sample. */
  function Running(run: seq<bool>): seq<Event>
  {
    StartEvents() + (Cycles(run) + DisableAllEvents())
  }

  /** The samples the busy-wait takes: every one up to and including the first high one. */
  function WaitEvents(run: seq<bool>): seq<Event>
    decreases |run|
  {
    if run == [] then []
    else [ReadRun(run[0])] + if run[0] then [] else WaitEvents(run[1..])
  }

  /** Some sample of the run input reads high. */
  predicate Started(run: seq<bool>)
    decreases |run|
  {
    run != [] && (run[0] || Started(run[1..]))
  }

  /** The samples that remain after the first high one. */
  function AfterStart(run: seq<bool>): seq<bool>
    decreases |run|
  {
    if run == [] then [] else if run[0] then run[1..] else AfterStart(run[1..])
  }

  /**
   * Everything Stepper_Test_Process does: the busy-wait, then, once a
   * sample reads high, start-up, the cycle loop and shut-down. When the
   * samples run out before one reads high it is still waiting, and the
   * model ends there.
   */
  function TestProcessEvents(run: seq<bool>): seq<Event>
  {
    WaitEvents(run) + if Started(run) then Running(AfterStart(run)) else []
  }

  /** `m`-actions all come before `n`-actions. */
  predicate Precedes(es: seq<Event>, m: Motor, n: Motor)
  {
    forall i, j :: 0 <= i < |es| && 0 <= j < |es| && Touches(es[i], m) && Touches(es[j], n) ==> i < j
  }

  /** Every action that touches a motor touches `m`. */
  predicate OnlyTouches(es: seq<Event>, m: Motor)
  {
    forall i, n :: 0 <= i < |es| && Touches(es[i], n) ==> n == m
  }

  /** Joining two runs that touch only `m`. */
  lemma OnlyTouchesAppend(a: seq<Event>, b: seq<Event>, m: Motor)
    requires OnlyTouches(a, m) && OnlyTouches(b, m)
    ensures OnlyTouches(a + b, m)
  {
    forall i, n | 0 <= i < |a + b| && Touches((a + b)[i], n)
      ensures n == m
    {
      if i >= |a| {
        assert (a + b)[i] == b[i - |a|];
      }
    }
  }

  /** Starting a motor touches only that motor, from its enable to its cruise write, and never samples the run input. */
  lemma StartMotorTouches(m: Motor, cruise: u16)
    ensures OnlyTouches(StartMotor(m, cruise), m)
    ensures StartMotor(m, cruise)[0] == Enable(m)
    ensures StartMotor(m, cruise)[|StartMotor(m, cruise)| - 1] == SetVelocity(m, cruise)
    ensures forall i :: 0 <= i < |StartMotor(m, cruise)| ==> !StartMotor(m, cruise)[i].ReadRun?
  {
    var r := RampEvents(m, START_VELOCITY, cruise);
    RampPacing(m, START_VELOCITY, cruise);
    var es := StartMotor(m, cruise);
    forall i, n | 0 <= i < |es| && Touches(es[i], n)
      ensures n == m
    {
      if i > 0 {
        assert es[i] == r[i - 1];
      }
    }
    forall i | 0 <= i < |es|
      ensures !es[i].ReadRun?
    {
      if i > 0 {
        assert es[i] == r[i - 1];
      }
    }
  }

  /** Actions that touch only `m`, then actions that touch only `n`. */
  lemma PrecedesSplit(a: seq<Event>, b: seq<Event>, m: Motor, n: Motor)
    requires m != n
    requires OnlyTouches(a, m)
    requires forall j :: 0 <= j < |b| ==> !Touches(b[j], m)
    ensures Precedes(a + b, m, n)
  {
    var es := a + b;
    forall i, j | 0 <= i < |es| && 0 <= j < |es| && Touches(es[i], m) && Touches(es[j], n)
      ensures i < j
    {
    }
  }

  /** Actions that touch neither `m` nor `n` do not change their order. */
  lemma PrecedesPrefix(a: seq<Event>, b: seq<Event>, m: Motor, n: Motor)
    requires forall i :: 0 <= i < |a| ==> !Touches(a[i], m) && !Touches(a[i], n)
    requires Precedes(b, m, n)
    ensures Precedes(a + b, m, n)
  {
    var es := a + b;
    forall i, j | 0 <= i < |es| && 0 <= j < |es| && Touches(es[i], m) && Touches(es[j], n)
      ensures i < j
    {
      assert i >= |a| && j >= |a|;
      assert Touches(b[i - |a|], m) && Touches(b[j - |a|], n);
    }
  }

  /**
   * Start-up is strictly sequential: every action on A comes before every
   * action on B, and every action on B before every action on C; each motor
   * is enabled before its ramp and the ramps end on the cruise values.
   */
  lemma StartOrder()
    ensures Precedes(StartEvents(), A, B)
    ensures Precedes(StartEvents(), B, C)
    ensures Precedes(StartEvents(), A, C)
    ensures StartEvents()[0] == Enable(A)
    ensures StartEvents()[|StartMotor(A, CRUISE_A)|] == Enable(B)
    ensures StartEvents()[|StartMotor(A, CRUISE_A)| - 1] == SetVelocity(A, CRUISE_A)
    ensures StartEvents()[|StartEvents()| - 1] == SetVelocity(C, CRUISE_BC)
  {
    var sa, sb, sc := StartMotor(A, CRUISE_A), StartMotor(B, CRUISE_BC), StartMotor(C, CRUISE_BC);
    StartMotorTouches(A, CRUISE_A);
    StartMotorTouches(B, CRUISE_BC);
    StartMotorTouches(C, CRUISE_BC);
    assert forall j :: 0 <= j < |sb + sc| ==> !Touches((sb + sc)[j], A) by {
      forall j | 0 <= j < |sb + sc|
        ensures !Touches((sb + sc)[j], A)
      {
        if j >= |sb| {
          assert (sb + sc)[j] == sc[j - |sb|];
        } else {
          assert (sb + sc)[j] == sb[j];
        }
      }
    }
    assert forall j :: 0 <= j < |sc| ==> !Touches(sc[j], B);
    assert forall i :: 0 <= i < |sa| ==> !Touches(sa[i], B) && !Touches(sa[i], C);
    PrecedesSplit(sa, sb + sc, A, B);
    PrecedesSplit(sa, sb + sc, A, C);
    PrecedesSplit(sb, sc, B, C);
    PrecedesPrefix(sa, sb + sc, B, C);
  }

  /** Every sample of the run input at a position after 0 follows the write of `v`. */
  predicate ReadsFollow(es: seq<Event>, v: Event)
  {
    forall i :: 0 < i < |es| && es[i].ReadRun? ==> es[i - 1] == v
  }

  /** Joining two runs in which every sample follows the write of `v`. */
  lemma ReadsFollowAppend(a: seq<Event>, b: seq<Event>, v: Event)
    requires ReadsFollow(a, v) && ReadsFollow(b, v)
    requires a != [] && b != [] && b[0].ReadRun? ==> a[|a| - 1] == v
    ensures ReadsFollow(a + b, v)
  {
    var es := a + b;
    forall i | 0 < i < |es| && es[i].ReadRun?
      ensures es[i - 1] == v
    {
      if i > |a| {
        assert es[i] == b[i - |a|] && es[i - 1] == b[i - 1 - |a|];
      } else if i == |a| {
        assert es[i] == b[0] && es[i - 1] == a[|a| - 1];
      } else {
        assert es[i] == a[i] && es[i - 1] == a[i - 1];
      }
    }
  }

  /** The shape of one pass of the cycle loop. */
  lemma CycleShape()
    ensures var ce := CycleEvents();
      && ce[0] == Delay(CYCLE_INTERVAL)
      && ce[|ce| - 1] == SetVelocity(A, CRUISE_A)
      && OnlyTouches(ce, A)
      && (forall i :: 0 <= i < |ce| ==> !ce[i].ReadRun?)
  {
    var pre := [Delay(CYCLE_INTERVAL), Disable(A), SetVelocity(A, CRAWL), Delay(SETTLE_INTERVAL)];
    var sa := StartMotor(A, CRUISE_A);
    StartMotorTouches(A, CRUISE_A);
    OnlyTouchesAppend(pre, sa, A);
    var ce := CycleEvents();
    assert ce == pre + sa;
    forall i | 0 <= i < |ce|
      ensures !ce[i].ReadRun?
    {
      if i >= |pre| {
        assert ce[i] == sa[i - |pre|];
      }
    }
  }

  /**
   * The cycle loop never touches B or C, reads the run input only at the
   * top of a pass, that is right after A's ramp back to cruise has written
   * its final value, and ends on a low sample.
   */
  lemma {:induction false} CyclesShape(run: seq<bool>)
    ensures var es := Cycles(run);
      && es[0].ReadRun?
      && es[|es| - 1] == ReadRun(false)
      && OnlyTouches(es, A)
      && ReadsFollow(es, SetVelocity(A, CRUISE_A))
    decreases |run|
  {
    var es := Cycles(run);
    var head := [ReadRun(NextRunLevel(run))];
    if NextRunLevel(run) {
      var ce := CycleEvents();
      var rest := Cycles(Rest(run));
      CyclesShape(Rest(run));
      CycleShape();
      OnlyTouchesAppend(ce, rest, A);
      OnlyTouchesAppend(head, ce + rest, A);
      ReadsFollowAppend(ce, rest, SetVelocity(A, CRUISE_A));
      ReadsFollowAppend(head, ce + rest, SetVelocity(A, CRUISE_A));
      assert es == head + (ce + rest);
    } else {
      assert es == [ReadRun(false)];
    }
  }

  /** While the cycle loop runs, B's and C's gates and registers do not change. */
  lemma CyclesLeaveBAndC(s: Machine, run: seq<bool>)
    ensures Exec(s, Cycles(run)).gate.At(B) == s.gate.At(B)
    ensures Exec(s, Cycles(run)).gate.At(C) == s.gate.At(C)
    ensures Exec(s, Cycles(run)).velocity.At(B) == s.velocity.At(B)
    ensures Exec(s, Cycles(run)).velocity.At(C) == s.velocity.At(C)
  {
    CyclesShape(run);
    ExecFrame(s, Cycles(run), B);
    ExecFrame(s, Cycles(run), C);
  }

  /**
   * The crawl value is written while A is disabled: after the first two
   * actions of a cycle A's line is at the disable level, and the third
   * action is the crawl write.
   */
  lemma CrawlWhileDisabled(s: Machine)
    requires !s.halted
    ensures CycleEvents()[2] == SetVelocity(A, CRAWL)
    ensures !Enabled(Exec(s, CycleEvents()[..2]).gate.At(A))
    ensures !Exec(s, CycleEvents()[..2]).halted
  {
    var es := CycleEvents()[..2];
    assert es == [Delay(CYCLE_INTERVAL)] + [Disable(A)];
    ExecCons(s, Delay(CYCLE_INTERVAL), [Disable(A)]);
    ExecCons(Do(s, Delay(CYCLE_INTERVAL)), Disable(A), []);
  }

  /**
   * Every pass of the cycle loop ends with A re-enabled and back at its
   * cruise value, so the loop leaves A as start-up left it.
   */
  lemma {:induction false} CyclesEndAtCruise(s: Machine, run: seq<bool>)
    requires s.velocity.At(A) == CRUISE_A
    ensures !Exec(s, Cycles(run)).halted ==> Exec(s, Cycles(run)).velocity.At(A) == CRUISE_A
    ensures Enabled(s.gate.At(A)) && !Exec(s, Cycles(run)).halted ==> Enabled(Exec(s, Cycles(run)).gate.At(A))
    decreases |run|
  {
    ExecCons(s, ReadRun(NextRunLevel(run)), if NextRunLevel(run) then CycleEvents() + Cycles(Rest(run)) else []);
    var s1 := Do(s, ReadRun(NextRunLevel(run)));
    if NextRunLevel(run) {
      var pre := [Delay(CYCLE_INTERVAL), Disable(A), SetVelocity(A, CRAWL), Delay(SETTLE_INTERVAL)];
      assert CycleEvents() == pre + StartMotor(A, CRUISE_A);
      ExecAppend(s1, CycleEvents(), Cycles(Rest(run)));
      ExecAppend(s1, pre, StartMotor(A, CRUISE_A));
      var s2 := Exec(s1, CycleEvents());
      StartMotorReaches(Exec(s1, pre), A, CRUISE_A);
      if s2.halted {
        ExecHalted(s2, Cycles(Rest(run)));
      } else {
        CyclesEndAtCruise(s2, Rest(run));
      }
    } else {
      assert Exec(s1, []) == s1;
    }
  }

  /** Before the first high sample only low samples are taken. */
  function LowReads(k: nat): (r: seq<Event>)
    ensures |r| == k && forall i :: 0 <= i < k ==> r[i] == ReadRun(false)
  {
    if k == 0 then [] else [ReadRun(false)] + LowReads(k - 1)
  }

  /** On samples that all read low, the busy-wait takes them all. */
  lemma {:induction false} WaitAllLow(run: seq<bool>)
    requires forall i :: 0 <= i < |run| ==> !run[i]
    ensures !Started(run)
    ensures WaitEvents(run) == LowReads(|run|)
    decreases |run|
  {
    if run != [] {
      WaitAllLow(run[1..]);
    }
  }

  /** Low samples change no line and no register. */
  lemma {:induction false} LowReadsKeep(s: Machine, k: nat)
    ensures Exec(s, LowReads(k)).gate == s.gate
    ensures Exec(s, LowReads(k)).velocity == s.velocity
    decreases k
  {
    if k > 0 {
      LowReadsKeep(Do(s, ReadRun(false)), k - 1);
      ExecCons(s, ReadRun(false), LowReads(k - 1));
    }
  }

  /**
   * If the run input never reads high, only low samples are taken: no
   * motor is enabled, and no gate or register changes.
   */
  lemma NoRunNoMotion(s: Machine, run: seq<bool>)
    requires forall i :: 0 <= i < |run| ==> !run[i]
    ensures !Started(run)
    ensures TestProcessEvents(run) == LowReads(|run|)
    ensures Exec(s, TestProcessEvents(run)).gate == s.gate
    ensures Exec(s, TestProcessEvents(run)).velocity == s.velocity
  {
    WaitAllLow(run);
    LowReadsKeep(s, |run|);
    assert TestProcessEvents(run) == WaitEvents(run) + [];
  }

  /**
   * The busy-wait on `k` low samples and a high one: it takes exactly
   * those samples and leaves the ones after the high one.
   */
  lemma {:induction false} WaitSplit(run: seq<bool>, k: nat)
    requires k < |run| && run[k]
    requires forall i :: 0 <= i < k ==> !run[i]
    ensures Started(run)
    ensures AfterStart(run) == run[k + 1..]
    ensures WaitEvents(run) == LowReads(k) + [ReadRun(true)]
    decreases k
  {
    if k == 0 {
      assert WaitEvents(run) == [ReadRun(true)] + [];
    } else {
      WaitSplit(run[1..], k - 1);
      assert run[1..][k..] == run[k + 1..];
      assert WaitEvents(run) == [ReadRun(false)] + (LowReads(k - 1) + [ReadRun(true)]);
    }
  }

  /**
   * Once the input reads high, the sequencer has taken `k` low samples and
   * one high sample, and then runs start-up, the cycle loop on the samples
   * that follow, and shut-down.
   */
  lemma ProcessSplit(run: seq<bool>, k: nat)
    requires k < |run| && run[k]
    requires forall i :: 0 <= i < k ==> !run[i]
    ensures TestProcessEvents(run) == LowReads(k) + [ReadRun(true)] + Running(run[k + 1..])
  {
    WaitSplit(run, k);
  }

  /** The busy-wait only samples the run input. */
  lemma {:induction false} WaitOnlyReads(run: seq<bool>)
    ensures forall i :: 0 <= i < |WaitEvents(run)| ==> WaitEvents(run)[i].ReadRun?
    decreases |run|
  {
    if run != [] && !run[0] {
      WaitOnlyReads(run[1..]);
      var w := WaitEvents(run);
      assert w == [ReadRun(run[0])] + WaitEvents(run[1..]);
      forall i | 0 <= i < |w|
        ensures w[i].ReadRun?
      {
        if i > 0 {
          assert w[i] == WaitEvents(run[1..])[i - 1];
        }
      }
    }
  }

  /**
   * After start-up without a halt, every motor is enabled and at its
   * cruise value: the rig is cruising.
   */
  lemma StartEndState(s: Machine)
    ensures var t := Exec(s, StartEvents());
      !t.halted ==>
        && Enabled(t.gate.At(A)) && Enabled(t.gate.At(B)) && Enabled(t.gate.At(C))
        && t.velocity == PerMotor(CRUISE_A, CRUISE_BC, CRUISE_BC)
  {
    var sa, sb, sc := StartMotor(A, CRUISE_A), StartMotor(B, CRUISE_BC), StartMotor(C, CRUISE_BC);
    ExecAppend(s, sa, sb + sc);
    var s1 := Exec(s, sa);
    ExecAppend(s1, sb, sc);
    var s2 := Exec(s1, sb);
    HaltedStays(s, sa, sb + sc);
    HaltedStays(s1, sb, sc);
    StartMotorReaches(s, A, CRUISE_A);
    StartMotorReaches(s1, B, CRUISE_BC);
    StartMotorReaches(s2, C, CRUISE_BC);
  }

  /** After the high sample and without a halt, the sequencer leaves every driver disabled at cruise. */
  lemma RunningEndState(s: Machine, run: seq<bool>)
    ensures var t := Exec(s, Running(run));
      !t.halted ==>
        && !Enabled(t.gate.At(A)) && !Enabled(t.gate.At(B)) && !Enabled(t.gate.At(C))
        && t.velocity == PerMotor(CRUISE_A, CRUISE_BC, CRUISE_BC)
  {
    var st, cy := StartEvents(), Cycles(run);
    ExecAppend(s, st, cy + DisableAllEvents());
    var s1 := Exec(s, st);
    ExecAppend(s1, cy, DisableAllEvents());
    var s2 := Exec(s1, cy);
    HaltedStays(s, st, cy + DisableAllEvents());
    HaltedStays(s1, cy, DisableAllEvents());
    StartEndState(s);
    CyclesLeaveBAndC(s1, run);
    if s1.velocity.At(A) == CRUISE_A {
      CyclesEndAtCruise(s1, run);
    }
    ExecCons(s2, Disable(A), [Disable(B), Disable(C)]);
    ExecCons(Do(s2, Disable(A)), Disable(B), [Disable(C)]);
    ExecCons(Do(Do(s2, Disable(A)), Disable(B)), Disable(C), []);
  }

  /**
   * When the sequencer runs to its end without a fatal halt: every driver
   * is disabled, A is at its cruise value and B and C at theirs. The halt
   * happens only if the timer driver reports a failure.
   */
  lemma ProcessEndState(s: Machine, run: seq<bool>, k: nat)
    requires k < |run| && run[k]
    requires forall i :: 0 <= i < k ==> !run[i]
    ensures var t := Exec(s, TestProcessEvents(run));
      && (!s.halted && AllOk(s.hal) ==> !t.halted)
      && (!t.halted ==>
            && !Enabled(t.gate.At(A)) && !Enabled(t.gate.At(B)) && !Enabled(t.gate.At(C))
            && t.velocity == PerMotor(CRUISE_A, CRUISE_BC, CRUISE_BC))
  {
    var es := TestProcessEvents(run);
    ExecLog(s, es);
    ProcessSplit(run, k);
    var pre := LowReads(k) + [ReadRun(true)];
    ExecAppend(s, pre, Running(run[k + 1..]));
    HaltedStays(s, pre, Running(run[k + 1..]));
    RunningEndState(Exec(s, pre), run[k + 1..]);
  }

  /** A halt part-way through a run of actions is still a halt at the end. */
  lemma HaltedStays(s: Machine, a: seq<Event>, b: seq<Event>)
    ensures !Exec(s, a + b).halted ==> !Exec(s, a).halted
  {
    ExecAppend(s, a, b);
    ExecLog(Exec(s, a), b);
  }

  /**
   * Starting a motor leaves it enabled at its cruise value; the other
   * motors' lines and registers do not change.
   */
  lemma StartMotorReaches(s: Machine, m: Motor, cruise: u16)
    ensures var t := Exec(s, StartMotor(m, cruise));
      && (!t.halted ==> Enabled(t.gate.At(m)) && t.velocity.At(m) == cruise)
      && (forall n :: n != m ==> t.velocity.At(n) == s.velocity.At(n) && t.gate.At(n) == s.gate.At(n))
  {
    var ramp := RampEvents(m, START_VELOCITY, cruise);
    ExecCons(s, Enable(m), ramp);
    RampReachesFinal(Do(s, Enable(m)), m, START_VELOCITY, cruise);
    if s.halted {
      ExecHalted(s, StartMotor(m, cruise));
    }
  }

  /** Starting a motor writes nothing above the start value or its cruise value. */
  lemma StartMotorBound(m: Motor, cruise: u16)
    ensures WritesAtMost(StartMotor(m, cruise), if cruise <= START_VELOCITY then START_VELOCITY else cruise)
  {
    var hi := if cruise <= START_VELOCITY then START_VELOCITY else cruise;
    RampBound(m, START_VELOCITY, cruise);
    WritesAtMostAppend([Enable(m)], RampEvents(m, START_VELOCITY, cruise), hi);
  }

  /** The largest value the sequencer ever writes is the crawl value. */
  lemma {:induction false} CyclesBound(run: seq<bool>)
    ensures WritesAtMost(Cycles(run), CRAWL)
    ensures WritesAtMost(CycleEvents(), CRAWL)
    ensures WritesAtMost(StartEvents(), CRAWL)
    decreases |run|
  {
    StartMotorBound(A, CRUISE_A);
    StartMotorBound(B, CRUISE_BC);
    StartMotorBound(C, CRUISE_BC);
    var sa, sb, sc := StartMotor(A, CRUISE_A), StartMotor(B, CRUISE_BC), StartMotor(C, CRUISE_BC);
    WritesAtMostAppend(sb, sc, CRAWL);
    WritesAtMostAppend(sa, sb + sc, CRAWL);
    var pre := [Delay(CYCLE_INTERVAL), Disable(A), SetVelocity(A, CRAWL), Delay(SETTLE_INTERVAL)];
    WritesAtMostAppend(pre, sa, CRAWL);
    assert CycleEvents() == pre + sa;
    var head := [ReadRun(NextRunLevel(run))];
    if NextRunLevel(run) {
      CyclesBound(Rest(run));
      WritesAtMostAppend(CycleEvents(), Cycles(Rest(run)), CRAWL);
      WritesAtMostAppend(head, CycleEvents() + Cycles(Rest(run)), CRAWL);
    } else {
      assert Cycles(run) == head;
    }
  }

  /**
   * Every value a test run writes to a velocity register lies in the
   * documented range of Stepper_Set_Velocity, 0 to 4095: the code never
   * checks the range, but the values it uses keep to it.
   */
  lemma TestProcessWithinRange(run: seq<bool>)
    ensures WritesAtMost(TestProcessEvents(run), VELOCITY_MAX)
  {
    WaitOnlyReads(run);
    assert WritesAtMost(WaitEvents(run), CRAWL);
    if Started(run) {
      var rest := AfterStart(run);
      CyclesBound(rest);
      WritesAtMostAppend(Cycles(rest), DisableAllEvents(), CRAWL);
      WritesAtMostAppend(StartEvents(), Cycles(rest) + DisableAllEvents(), CRAWL);
      WritesAtMostAppend(WaitEvents(run), Running(rest), CRAWL);
    } else {
      assert TestProcessEvents(run) == WaitEvents(run) + [];
    }
  }
}
