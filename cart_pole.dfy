/** The CartPole environment of `src/environments/cart-pole.ts`: the classic pole-balancing
    physics advanced by one explicit Euler step per action, with a 200-step cap.
    `Math.cos` and `Math.sin` are oracles handed to the constructor; only `cos` ∈ [-1, 1]
    is relied on, to keep the angular-acceleration denominator away from zero. */
module CartPole {
  import opened Wrappers
  import opened Core
  import Util
  import Rng

  const Gravity: real := 9.8
  const MassCart: real := 1.0
  const MassPole: real := 0.1
  const TotalMass: real := MassPole + MassCart
  /** Distance from the pivot to the pole's centre of mass. */
  const Length: real := 0.5
  const PoleMoment: real := MassPole * Length
  const ForceMagnitude: real := 10.0
  /** Seconds between state updates. */
  const Tau: real := 0.02
  /** `Math.PI` as a double. */
  const Pi: real := 3.141592653589793
  /** Failure angle: 12 degrees in radians. */
  const ThetaThresholdRadians: real := (12.0 * 2.0 * Pi) / 360.0
  const XThreshold: real := 2.4
  const MaxEpisodeLength: nat := 200

  const ActionNotInRange := "Action is not in range"
  const EnvIsDone := "Env is done"

  /** Cart position and velocity, pole angle and angular velocity. */
  datatype State = State(x: real, xDot: real, theta: real, thetaDot: real)
  {
    function Observe(): (o: Observation)
      ensures |o| == 4
      ensures o[0] == x && o[1] == xDot && o[2] == theta && o[3] == thetaDot
    {
      [x, xDot, theta, thetaDot]
    }

    /** The same state reflected through the vertical axis. */
    function Mirror(): State
    {
      State(-x, -xDot, -theta, -thetaDot)
    }
  }

  /** Action 1 pushes right with +10; every other action pushes left with -10. */
  function Force(action: int): (f: real)
    ensures f == ForceMagnitude <==> action == 1
    ensures f == -ForceMagnitude <==> action != 1
  {
    if action == 1 then ForceMagnitude else -ForceMagnitude
  }

  lemma CosSquaredAtMostOne(c: real)
    requires -1.0 <= c <= 1.0
    ensures 0.0 <= c * c <= 1.0
  {
    Util.ProductNonNegative(1.0 - c, 1.0 + c);
    Util.SquareSign(c);
  }

  /** The denominator of the angular acceleration, `length·(4/3 − massPole·cos²θ/totalMass)`,
      is positive for every admissible cosine. */
  function ThetaDenominator(cosTheta: real): (d: real)
    requires -1.0 <= cosTheta <= 1.0
    ensures d >= Length * (4.0 / 3.0 - MassPole / TotalMass) > 0.0
  {
    CosSquaredAtMostOne(cosTheta);
    Length * (4.0 / 3.0 - (MassPole * (cosTheta * cosTheta)) / TotalMass)
  }

  function Temperature(force: real, thetaDot: real, sinTheta: real): real
  {
    (force + PoleMoment * (thetaDot * thetaDot) * sinTheta) / TotalMass
  }

  function ThetaAcceleration(force: real, thetaDot: real, cosTheta: real, sinTheta: real): real
    requires -1.0 <= cosTheta <= 1.0
  {
    (Gravity * sinTheta - cosTheta * Temperature(force, thetaDot, sinTheta)) / ThetaDenominator(cosTheta)
  }

  function XAcceleration(force: real, thetaDot: real, cosTheta: real, sinTheta: real): real
    requires -1.0 <= cosTheta <= 1.0
  {
    Temperature(force, thetaDot, sinTheta)
      - (PoleMoment * ThetaAcceleration(force, thetaDot, cosTheta, sinTheta) * cosTheta) / TotalMass
  }

  /** One explicit Euler step: positions advance by the pre-step velocities, velocities by
      the accelerations computed from the pre-step state. */
  function Next(s: State, force: real, cosTheta: real, sinTheta: real): (n: State)
    requires -1.0 <= cosTheta <= 1.0
    ensures n.x == s.x + Tau * s.xDot && n.theta == s.theta + Tau * s.thetaDot
  {
    State(
      s.x + Tau * s.xDot,
      s.xDot + Tau * XAcceleration(force, s.thetaDot, cosTheta, sinTheta),
      s.theta + Tau * s.thetaDot,
      s.thetaDot + Tau * ThetaAcceleration(force, s.thetaDot, cosTheta, sinTheta))
  }

  /** The position/angle failure test shared by both cart-pole classes. */
  predicate OutOfBounds(s: State)
  {
    s.x < -XThreshold || s.x > XThreshold || s.theta < -ThetaThresholdRadians || s.theta > ThetaThresholdRadians
  }

  /** Pushing the mirrored cart the other way (cos is even, sin is odd) gives the mirrored
      next state. */
  lemma {:induction false} NextIsMirrorSymmetric(s: State, force: real, cosTheta: real, sinTheta: real)
    requires -1.0 <= cosTheta <= 1.0
    ensures Next(s.Mirror(), -force, cosTheta, -sinTheta) == Next(s, force, cosTheta, sinTheta).Mirror()
  {
    var t := Temperature(force, s.thetaDot, sinTheta);
    assert Temperature(-force, -s.thetaDot, -sinTheta) == -t by {
      assert (-s.thetaDot) * (-s.thetaDot) == s.thetaDot * s.thetaDot;
      assert PoleMoment * (s.thetaDot * s.thetaDot) * -sinTheta == -(PoleMoment * (s.thetaDot * s.thetaDot) * sinTheta);
    }
    var d := ThetaDenominator(cosTheta);
    var a := ThetaAcceleration(force, s.thetaDot, cosTheta, sinTheta);
    assert ThetaAcceleration(-force, -s.thetaDot, cosTheta, -sinTheta) == -a by {
      assert Gravity * -sinTheta - cosTheta * -t == -(Gravity * sinTheta - cosTheta * t);
      DivideNegation(Gravity * sinTheta - cosTheta * t, d);
    }
    assert XAcceleration(-force, -s.thetaDot, cosTheta, -sinTheta) == -XAcceleration(force, s.thetaDot, cosTheta, sinTheta) by {
      assert PoleMoment * -a * cosTheta == -(PoleMoment * a * cosTheta);
    }
  }

  lemma DivideNegation(n: real, d: real)
    requires d != 0.0
    ensures (-n) / d == -(n / d)
  {
  }

  /** Mirroring preserves the failure test. */
  lemma OutOfBoundsIsMirrorSymmetric(s: State)
    ensures OutOfBounds(s.Mirror()) <==> OutOfBounds(s)
  {
  }

  /** The ranges `reset` draws from: position and velocity in [-0.5, 0.5), angle within
      ±6 degrees, angular velocity in [-0.25, 0.25). */
  predicate InResetRange(s: State)
  {
    && -0.5 <= s.x < 0.5
    && -0.5 <= s.xDot < 0.5
    && -(6.0 / 360.0) * 2.0 * Pi <= s.theta < (6.0 / 360.0) * 2.0 * Pi
    && -0.25 <= s.thetaDot < 0.25
  }

  /** An observation of a state in the reset ranges. */
  predicate IsResetObservation(o: Observation)
  {
    |o| == 4 && InResetRange(State(o[0], o[1], o[2], o[3]))
  }

  /** A state drawn by `reset` is never already out of bounds. */
  lemma ResetStateIsInBounds(s: State)
    requires InResetRange(s)
    ensures !OutOfBounds(s)
  {
  }

  /** The four draws of `reset`, in order. */
  method DrawInitialState(rng: Rng.Rng) returns (s: State)
    modifies rng
    ensures InResetRange(s)
  {
    var u0 := rng.Uniform();
    var u1 := rng.Uniform();
    var u2 := rng.Uniform();
    var u3 := rng.Uniform();
    s := State(u0 - 0.5, u1 - 0.5, (u2 - 0.5) * 2.0 * ((6.0 / 360.0) * 2.0 * Pi), (u3 - 0.5) * 0.5);
  }

  class CartPole {
    /** `Math.cos` and `Math.sin`. */
    const cos: real -> real
    const sin: real -> real
    var steps: nat
    var done: bool
    var state: State

    /** The cosine oracle stays in [-1, 1]; a running episode has taken fewer than 200
        steps, so at most 200 steps succeed between resets. */
    ghost predicate Valid()
      reads this
    {
      && (forall t :: -1.0 <= cos(t) <= 1.0)
      && steps <= MaxEpisodeLength
      && (!done ==> steps < MaxEpisodeLength)
    }

    /** The environment starts done, so `step` before the first `reset` fails. */
    constructor (cos: real -> real, sin: real -> real)
      requires forall t :: -1.0 <= cos(t) <= 1.0
      ensures Valid()
      ensures this.cos == cos && this.sin == sin
      ensures steps == 0 && done && state == State(0.0, 0.0, 0.0, 0.0)
    {
      this.cos := cos;
      this.sin := sin;
      steps := 0;
      done := true;
      state := State(0.0, 0.0, 0.0, 0.0);
    }

    function Name(): string { "CartPole" }
    function WinningScore(): real { 195.0 }
    function NumObservationDimensions(): nat { 4 }
    function NumActions(): nat { 2 }

    method Reset(rng: Rng.Rng) returns (observation: Observation)
      requires Valid()
      modifies this, rng
      ensures Valid()
      ensures steps == 0 && !done && InResetRange(state)
      ensures observation == state.Observe() && IsResetObservation(observation)
    {
      var s := DrawInitialState(rng);
      steps := 0;
      state := s;
      done := false;
      observation := state.Observe();
    }

    method Step(action: int) returns (result: Result<Sample>)
      requires Valid()
      modifies this
      ensures Valid()
      ensures action >= 2 ==> result == Err(ActionNotInRange) && unchanged(this)
      ensures action < 2 && old(done) ==> result == Err(EnvIsDone) && unchanged(this)
      ensures action < 2 && !old(done) ==>
        && steps == old(steps) + 1
        && state == Next(old(state), Force(action), cos(old(state).theta), sin(old(state).theta))
        && (done <==> steps >= MaxEpisodeLength || OutOfBounds(state))
        && result == Ok(Sample(state.Observe(), 1.0, done))
    {
      if action >= 2 {
        return Err(ActionNotInRange);
      }
      if done {
        return Err(EnvIsDone);
      }
      var force := Force(action);
      var cosTheta := cos(state.theta);
      var sinTheta := sin(state.theta);
      steps := steps + 1;
      state := Next(state, force, cosTheta, sinTheta);
      done := steps >= MaxEpisodeLength || OutOfBounds(state);
      return Ok(Sample(state.Observe(), 1.0, done));
    }
  }
}
