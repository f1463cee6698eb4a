/** The bolt's stepper motor: forward-only half-stepping with a tracked position (`StepperMotor.c`). */
module Stepper {
  import opened Prelude

  const STEPS_PER_REV := 4096
  const PHASES := 8

  /** Position in half-steps, pulses since power-up, and the coil pattern index of each pulse. */
  datatype Motor = Motor(position: nat, pulses: nat, coils: seq<nat>)

  /** The target in half-steps, rounded to the nearest. */
  function TargetSteps(degrees: int): int { (degrees * STEPS_PER_REV + 180) / 360 }

  /** `StepperMotor_GetPosition`: whole degrees, rounded down. */
  function Degrees(position: int): int { position * 360 / STEPS_PER_REV }

  predicate ValidTarget(degrees: int) { 0 <= degrees <= 360 }

  /** The position `n` half-steps further on. */
  function After(position: nat, n: nat): (p: nat)
    ensures p < STEPS_PER_REV
  {
    (position + n) % STEPS_PER_REV
  }

  lemma AfterWraps(position: nat, n: nat)
    requires position < STEPS_PER_REV && n <= STEPS_PER_REV
    ensures After(position, n) == if position + n < STEPS_PER_REV then position + n else position + n - STEPS_PER_REV
  {
  }

  lemma AfterAgain(position: nat, n: nat, k: nat)
    ensures After(After(position, n), k) == After(position, n + k)
  {
  }

  /** Forward distance to the target, around the circle if need be. */
  function StepsNeeded(position: nat, degrees: int): (n: nat)
    requires position < STEPS_PER_REV && ValidTarget(degrees)
    ensures n < STEPS_PER_REV
  {
    (TargetSteps(degrees) - position + STEPS_PER_REV) % STEPS_PER_REV
  }

  /** Pulses actually made when the pins cannot be written at pulse `failAt` of this rotation. */
  function PulsesMade(needed: nat, failAt: Option<nat>): nat {
    if failAt.Some? && failAt.value < needed then failAt.value else needed
  }

  ghost predicate Tracked(m: Motor) { m.position == After(0, m.pulses) && |m.coils| == m.pulses }

  /** The coil patterns of one rotation of `n` pulses. */
  function Sweep(n: nat): seq<nat> { seq(n, k => k % PHASES) }

  lemma SweepGrows(n: nat)
    ensures Sweep(0) == [] && Sweep(n + 1) == Sweep(n) + [n % PHASES]
    ensures (n % PHASES + 1) % PHASES == (n + 1) % PHASES
  {
  }

  /** `n` pulses forward; every rotation starts over at coil pattern 0. */
  function Forward(m: Motor, n: nat): Motor {
    Motor(After(m.position, n), m.pulses + n, m.coils + Sweep(n))
  }

  /** `StepperMotor_Rotate`: the motor afterwards and the returned success flag. */
  function Rotate(m: Motor, degrees: int, failAt: Option<nat>): (Motor, bool)
    requires m.position < STEPS_PER_REV
  {
    if !ValidTarget(degrees) then (m, false)
    else
      var needed := StepsNeeded(m.position, degrees);
      var made := PulsesMade(needed, failAt);
      (Forward(m, made), made == needed)
  }

  class StepperMotor {
    var position: nat
    ghost var pulses: nat
    ghost var coils: seq<nat>

    ghost function State(): Motor
      reads this
    {
      Motor(position, pulses, coils)
    }

    ghost predicate Valid()
      reads this
    {
      Tracked(State())
    }

    /** `StepperMotor_Init`. */
    constructor ()
      ensures Valid() && State() == Motor(0, 0, [])
    {
      position, pulses, coils := 0, 0, [];
    }

    function GetPosition(): int
      reads this
    {
      Degrees(position)
    }

    method RotateTo(degrees: int, failAt: Option<nat>) returns (ok: bool)
      requires Valid()
      modifies this
      ensures Valid()
      ensures (State(), ok) == Rotate(old(State()), degrees, failAt)
    {
      if !ValidTarget(degrees) {
        return false;
      }
      var needed := StepsNeeded(position, degrees);
      hide StepsNeeded, After, Sweep;
      ghost var start := State();
      AfterWraps(position, 0);
      SweepGrows(0);
      assert coils == start.coils + [];
      var step, index: nat := 0, 0;
      while step < needed
        invariant step <= PulsesMade(needed, failAt)
        invariant index == step % PHASES
        invariant position == After(start.position, step) && pulses == start.pulses + step
        invariant coils == start.coils + Sweep(step)
        invariant Valid()
      {
        if failAt == Some(step) {
          return false;
        }
        AfterAgain(start.position, step, 1);
        AfterAgain(0, pulses, 1);
        SweepGrows(step);
        assert coils + [index] == start.coils + (Sweep(step) + [index]);
        coils := coils + [index];
        pulses := pulses + 1;
        index := (index + 1) % PHASES;
        step := step + 1;
        position := After(position, 1);
      }
      return true;
    }

    /** `StepperMotor_ResetPosition`: when the coils can be switched off, here becomes 0 degrees. */
    method ResetPosition(pinsOk: bool) returns (ok: bool)
      modifies this
      ensures ok == pinsOk
      ensures State() == if ok then Motor(0, 0, []) else old(State())
    {
      if !pinsOk {
        return false;
      }
      position, pulses, coils := 0, 0, [];
      return true;
    }
  }

  // ---------- Tracking and least travel ----------

  /** The tracked position stays the pulse count modulo one revolution, even when a rotation fails midway. */
  lemma RotationStaysTracked(m: Motor, degrees: int, failAt: Option<nat>)
    requires Tracked(m)
    ensures Tracked(Rotate(m, degrees, failAt).0)
  {
    hide StepsNeeded, After;
    if ValidTarget(degrees) {
      AfterAgain(0, m.pulses, PulsesMade(StepsNeeded(m.position, degrees), failAt));
    }
  }

  function Abs(x: int): nat { if x < 0 then -x else x }

  /** How far a half-step position is from an angle, in 1/360 half-steps. */
  function Miss(steps: int, degrees: int): nat { Abs(360 * steps - STEPS_PER_REV * degrees) }

  /** The rounded target is within half a half-step, and no other half-step is closer. */
  lemma TargetIsNearest(degrees: int, other: int)
    requires ValidTarget(degrees)
    ensures Miss(TargetSteps(degrees), degrees) <= 180 && Miss(TargetSteps(degrees), degrees) <= Miss(other, degrees)
  {
    var x := degrees * STEPS_PER_REV + 180;
    var q := TargetSteps(degrees);
    assert 360 * q <= x < 360 * q + 360;
    if other > q {
      assert 360 * other >= 360 * q + 360;
    } else if other < q {
      assert 360 * other <= 360 * q - 360;
    }
  }

  lemma NeededReaches(position: nat, degrees: int)
    requires position < STEPS_PER_REV && ValidTarget(degrees)
    ensures After(position, StepsNeeded(position, degrees)) == After(0, TargetSteps(degrees))
    ensures forall n: nat | n < StepsNeeded(position, degrees) :: After(position, n) != After(0, TargetSteps(degrees))
  {
    var target, needed := TargetSteps(degrees), StepsNeeded(position, degrees);
    assert 0 <= target <= STEPS_PER_REV;
    AfterWraps(0, target);
    assert needed == (if target == STEPS_PER_REV then (if position == 0 then 0 else STEPS_PER_REV - position)
                      else if target >= position then target - position else target - position + STEPS_PER_REV);
    forall n: nat | n <= needed
      ensures After(position, n) == After(0, target) <==> n == needed
    {
      AfterWraps(position, n);
    }
  }

  /** A rotation that succeeds ends on its target and makes the fewest forward pulses that do. */
  lemma RotationTakesTheShortestWayForward(m: Motor, degrees: int, failAt: Option<nat>)
    requires m.position < STEPS_PER_REV && ValidTarget(degrees) && Rotate(m, degrees, failAt).1
    ensures var m' := Rotate(m, degrees, failAt).0;
      && m'.position == After(0, TargetSteps(degrees))
      && forall n: nat | n < m'.pulses - m.pulses :: After(m.position, n) != After(0, TargetSteps(degrees))
  {
    hide StepsNeeded, After, TargetSteps;
    NeededReaches(m.position, degrees);
  }

  /** Forward half-steps to the withdrawn bolt at 0, or to the extended bolt at 2048. */
  function Way(position: nat, degrees: int): int {
    if degrees == 0 then (if position == 0 then 0 else 4096 - position)
    else if position <= 2048 then 2048 - position
    else 6144 - position
  }

  /**
   A rotation of the bolt: with pins that work the whole way it ends exactly at 0 or 2048; with pins that
   fail at pulse k it stops k half-steps on. Every angle from 0 to 360 is reached with working pins, any other
   is refused without a pulse.
   */
  lemma RotationEffect(m: Motor, degrees: int, failAt: Option<nat>)
    requires m.position < 4096
    ensures var (m', ok) := Rotate(m, degrees, failAt);
      && (degrees == 0 || degrees == 180 ==>
            if failAt.Some? && failAt.value < Way(m.position, degrees)
            then !ok && m'.position == (m.position + failAt.value) % 4096 && m'.pulses == m.pulses + failAt.value
            else ok && m'.position == (if degrees == 0 then 0 else 2048) && m'.pulses == m.pulses + Way(m.position, degrees))
      && (0 <= degrees <= 360 && failAt == None ==> ok)
      && (degrees < 0 || degrees > 360 ==> !ok && m' == m)
  {
    if degrees == 0 || degrees == 180 {
      StepsOnTheWay(m.position, degrees);
    }
    hide StepsNeeded;
  }

  lemma StepsOnTheWay(position: nat, degrees: int)
    requires position < 4096 && (degrees == 0 || degrees == 180)
    ensures StepsNeeded(position, degrees) == Way(position, degrees)
    ensures After(position, Way(position, degrees)) == if degrees == 0 then 0 else 2048
  {
    AfterWraps(position, Way(position, degrees));
  }

  lemma FloorIs(x: int, d: int)
    requires STEPS_PER_REV * d <= x < STEPS_PER_REV * d + STEPS_PER_REV
    ensures x / STEPS_PER_REV == d
  {
  }

  /**
   Reading the position back after a successful rotation gives the requested angle exactly when
   rounding did not go down; otherwise it reads one degree less (and 360 reads 0).
   */
  lemma {:induction false} ReadBack(m: Motor, degrees: int, failAt: Option<nat>)
    requires m.position < STEPS_PER_REV && ValidTarget(degrees) && Rotate(m, degrees, failAt).1
    ensures var read, excess := Degrees(Rotate(m, degrees, failAt).0.position), (STEPS_PER_REV * degrees) % 360;
      && (read == degrees <==> degrees < 360 && (excess == 0 || excess >= 180))
      && (read != degrees ==> read == if degrees == 360 then 0 else degrees - 1)
  {
    RotationTakesTheShortestWayForward(m, degrees, failAt);
    hide Rotate;
    var target := TargetSteps(degrees);
    AfterWraps(0, target);
    if degrees < 360 {
      var whole, excess := (STEPS_PER_REV * degrees) / 360, (STEPS_PER_REV * degrees) % 360;
      assert STEPS_PER_REV * degrees == 360 * whole + excess;
      assert target == if excess < 180 then whole else whole + 1;
      FloorIs(target * 360, if excess == 0 || excess >= 180 then degrees else degrees - 1);
    } else {
      assert target == STEPS_PER_REV;
    }
  }

  /** The bolt reads as locked on twelve half-steps, 2048 to 2059. */
  lemma LockedRange(position: nat)
    requires position < STEPS_PER_REV
    ensures Degrees(position) == 180 <==> 2048 <= position <= 2059
    ensures Degrees(position) == 0 <==> position <= 11
  {
  }

  // ---------- Coil phase ----------

  /** No coil pattern is skipped or repeated: the pattern index is the pulse count modulo 8. */
  ghost predicate InPhase(m: Motor) {
    forall i | 0 <= i < |m.coils| :: m.coils[i] == i % 8
  }

  /** A rotation keeps the phase exactly when it makes no pulse or starts on a multiple of eight pulses. */
  lemma PhaseKeptIff(m: Motor, degrees: int, failAt: Option<nat>)
    requires Tracked(m) && InPhase(m)
    ensures var m' := Rotate(m, degrees, failAt).0;
      InPhase(m') <==> m'.pulses == m.pulses || m.pulses % 8 == 0
  {
    hide StepsNeeded, After, Sweep;
    var m' := Rotate(m, degrees, failAt).0;
    var n := m'.pulses - m.pulses;
    SweepPatterns(n);
    if n > 0 {
      assert m'.coils[m.pulses] == 0;
      forall i | m.pulses <= i < |m'.coils| && m.pulses % 8 == 0
        ensures m'.coils[i] == i % 8
      {
        WholeTurns(m.pulses, i - m.pulses);
      }
    } else {
      assert m'.coils == m.coils;
    }
  }

  lemma SweepPatterns(n: nat)
    ensures |Sweep(n)| == n && forall i | 0 <= i < n :: Sweep(n)[i] == i % 8
  {
  }

  lemma WholeTurns(p: nat, i: nat)
    requires p % 8 == 0
    ensures (p + i) % 8 == i % 8
  {
  }

  /** Rotations to 0 or 180 degrees that all succeed, from power-up on. */
  ghost predicate CompleteRuns(targets: seq<int>) {
    forall i | 0 <= i < |targets| :: targets[i] == 0 || targets[i] == 180
  }

  function RotateAll(targets: seq<int>): (m: Motor)
    ensures m.position < STEPS_PER_REV
  {
    if targets == [] then Motor(0, 0, [])
    else Rotate(RotateAll(targets[..|targets| - 1]), targets[|targets| - 1], None).0
  }

  lemma OnEighths(m: Motor)
    requires Tracked(m) && (m.position == 0 || m.position == 2048)
    ensures m.pulses % 8 == 0
  {
    EighthsOfTurns(m.pulses / 4096, m.position);
  }

  lemma EighthsOfTurns(turns: nat, position: nat)
    requires position == 0 || position == 2048
    ensures (4096 * turns + position) % 8 == 0
  {
    assert 4096 * turns + position == 8 * (512 * turns + position / 8);
  }

  /** In every run of complete rotations between 0 and 180 degrees the bolt ends at 0 or 2048 and no phase is skipped. */
  lemma {:induction false} CompleteRunsStayInPhase(targets: seq<int>)
    requires CompleteRuns(targets)
    ensures var m := RotateAll(targets); Tracked(m) && InPhase(m) && (m.position == 0 || m.position == 2048)
  {
    hide After, InPhase;
    if targets != [] {
      var past, last := targets[..|targets| - 1], targets[|targets| - 1];
      CompleteRunsStayInPhase(past);
      var m := RotateAll(past);
      RotationStaysTracked(m, last, None);
      PhaseKeptIff(m, last, None);
      OnEighths(m);
      RotationTakesTheShortestWayForward(m, last, None);
      AfterWraps(0, TargetSteps(last));
    } else {
      PowerUp();
    }
  }

  lemma PowerUp()
    ensures Tracked(Motor(0, 0, [])) && InPhase(Motor(0, 0, []))
  {
  }
}
