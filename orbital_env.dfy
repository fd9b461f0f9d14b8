/**
 * The single-body engine, class OrbitalEnvironment of environment.py: one
 * vehicle under central gravity whose radius is clipped to [1e-5, 5.0],
 * advanced by RK4, followed by a tangential thrust impulse.
 */
module OrbitalEnv {
  import opened RealMath
  import opened Wrappers
  import opened Integrator

  const MinRadius: real := 0.00001
  const MaxClipRadius: real := 5.0
  const EscapeRadius: real := 5.0
  const CollisionRadius: real := 0.1

  /** The inner `acceleration` helper of `step`: gravity with a clipped radius. */
  function ClippedGravity(gm: real, x: real, y: real, m: Math): Vec {
    InverseSquare(-gm, x, y, Clip(m.sqrt(x * x + y * y), MinRadius, MaxClipRadius))
  }

  /** The clipped gravity is antiparallel to the position (for `gm >= 0`). */
  lemma ClippedGravityAntiparallel(gm: real, x: real, y: real, m: Math)
    ensures var a := ClippedGravity(gm, x, y, m);
      x * a.y - y * a.x == 0.0 && (gm >= 0.0 ==> x * a.x + y * a.y <= 0.0)
  {
    InverseSquareDirection(-gm, x, y, Clip(m.sqrt(x * x + y * y), MinRadius, MaxClipRadius));
  }

  /** The RK4 step of `step` before thrust: gravity only. */
  function GravityStep(s: State, gm: real, dt: real, m: Math): State {
    Rk4(s, dt, (px: real, py: real) => ClippedGravity(gm, px, py, m))
  }

  /** `max(sqrt(x^2 + y^2), 1e-5)`, the radius used after integration. */
  function FloorRadius(x: real, y: real, m: Math): (d: real)
    ensures d >= MinRadius
  {
    Max(m.sqrt(x * x + y * y), MinRadius)
  }

  /**
   * The impulse added after integration: the scalar `action` rotated into
   * the local frame of the new position (rotation matrix built from the
   * radial unit vector) and applied for `dt`.
   */
  function TangentialImpulse(p: State, action: real, dt: real, m: Math): (r: State)
    ensures r.x == p.x && r.y == p.y
    ensures p.x * (r.vx - p.vx) + p.y * (r.vy - p.vy) == 0.0
    ensures action == 0.0 ==> r == p
  {
    var dist := FloorRadius(p.x, p.y, m);
    var rx, ry := p.x / dist, p.y / dist;
    var thrust := Vec(-ry * action, rx * action);
    Perpendicular(p.x, p.y, dist, action, dt);
    State(p.x, p.y, p.vx + thrust.x * dt, p.vy + thrust.y * dt)
  }

  lemma Perpendicular(x: real, y: real, d: real, a: real, dt: real)
    requires d > 0.0
    ensures x * ((-(y / d) * a) * dt) + y * (((x / d) * a) * dt) == 0.0
  {
    assert x * ((-(y / d) * a) * dt) == -((x * y) * (a * dt / d));
    assert y * (((x / d) * a) * dt) == (x * y) * (a * dt / d);
  }

  /**
   * Away from the clipped core the impulse has magnitude `|action| * dt`:
   * the rotation matrix turns `(0, action)` without stretching it.
   */
  lemma ImpulseMagnitude(p: State, action: real, dt: real, m: Math)
    requires Sound(m) && m.sqrt(p.x * p.x + p.y * p.y) >= MinRadius
    ensures SpeedChangeSquared(p, TangentialImpulse(p, action, dt, m)) == (action * dt) * (action * dt)
  {
    var d := m.sqrt(p.x * p.x + p.y * p.y);
    SqrtNonNegative(m, p.x * p.x + p.y * p.y);
    ImpulseMagnitudeAt(p, action, dt, m, d);
  }

  lemma ImpulseMagnitudeAt(p: State, action: real, dt: real, m: Math, d: real)
    requires d == m.sqrt(p.x * p.x + p.y * p.y) && d >= MinRadius && d * d == p.x * p.x + p.y * p.y
    ensures SpeedChangeSquared(p, TangentialImpulse(p, action, dt, m)) == (action * dt) * (action * dt)
  {
    ImpulseComponents(p, action, dt, m, d);
    var r := TangentialImpulse(p, action, dt, m);
    var c, e := (-(p.y / d) * action) * dt, (p.x / d) * action * dt;
    SquaresAgree(p, r, c, e);
    UnitRotation(p.x, p.y, d, action, dt, c, e);
  }

  /** `|Δv|^2` between two states. */
  function SpeedChangeSquared(before: State, after: State): real {
    (after.vx - before.vx) * (after.vx - before.vx) + (after.vy - before.vy) * (after.vy - before.vy)
  }

  lemma SquaresAgree(before: State, after: State, c: real, e: real)
    requires after.vx - before.vx == c && after.vy - before.vy == e
    ensures SpeedChangeSquared(before, after) == c * c + e * e
  {
  }

  lemma ImpulseComponents(p: State, action: real, dt: real, m: Math, d: real)
    requires d == m.sqrt(p.x * p.x + p.y * p.y) && d >= MinRadius
    ensures TangentialImpulse(p, action, dt, m).vx - p.vx == (-(p.y / d) * action) * dt
    ensures TangentialImpulse(p, action, dt, m).vy - p.vy == (p.x / d) * action * dt
  {
    assert FloorRadius(p.x, p.y, m) == m.sqrt(p.x * p.x + p.y * p.y);
  }

  lemma UnitRotation(x: real, y: real, d: real, a: real, dt: real, c: real, e: real)
    requires d > 0.0 && d * d == x * x + y * y
    requires c == (-(y / d) * a) * dt && e == (x / d) * a * dt
    ensures c * c + e * e == (a * dt) * (a * dt)
  {
    var u, w := y / d, x / d;
    UnitVector(x, y, d);
    var k := a * dt;
    assert c == (-u) * k && e == w * k;
    ScaledSquare(-u, k);
    ScaledSquare(w, k);
    assert (-u) * (-u) == u * u;
    SumOfScaled(u * u, w * w, k * k);
  }

  lemma SumOfScaled(p: real, q: real, c: real)
    requires p + q == 1.0
    ensures p * c + q * c == c
  {
    assert p * c + q * c == (p + q) * c;
  }

  /** Everything `step` does to the state vector. */
  function StepState(s: State, action: real, gm: real, dt: real, m: Math): State {
    TangentialImpulse(GravityStep(s, gm, dt, m), action, dt, m)
  }

  /** The termination test of `step`, on the radius after integration. */
  predicate EpisodeOver(x: real, y: real, stepBefore: int, maxSteps: int, m: Math) {
    var dist := FloorRadius(x, y, m);
    dist > EscapeRadius || dist < CollisionRadius || stepBefore >= maxSteps
  }

  /** `np.clip((r - 1) / max(|init_r - 1|, 1e-2) * 2, -2, 2)` of `default_reward`. */
  function ScaledRadiusError(x: real, y: real, initR: real, m: Math): (e: real)
    ensures -2.0 <= e <= 2.0
  {
    var rErr := m.sqrt(x * x + y * y) - 1.0;
    var rMaxErr := Max(Abs(initR - 1.0), 0.01);
    Clip((rErr / rMaxErr) * 2.0, -2.0, 2.0)
  }

  /** `default_reward`: radius tracking times an action penalty. */
  function DefaultReward(x: real, y: real, initR: real, action: real, m: Math): real {
    var scaled := ScaledRadiusError(x, y, initR, m);
    m.exp(-(scaled * scaled)) * m.exp(-(action * action))
  }

  /** With a positive `exp` the default reward is positive. */
  lemma DefaultRewardPositive(x: real, y: real, initR: real, action: real, m: Math)
    requires Sound(m)
    ensures DefaultReward(x, y, initR, action, m) > 0.0
  {
    var scaled := ScaledRadiusError(x, y, initR, m);
    PositiveProduct(m.exp(-(scaled * scaled)), m.exp(-(action * action)));
  }

  lemma PositiveProduct(a: real, b: real)
    requires a > 0.0 && b > 0.0
    ensures a * b > 0.0
  {
  }

  /** The constructor's `reward_function or self.default_reward`. */
  datatype RewardFunction = Default | Custom(f: real -> real)

  class OrbitalEnvironment {
    const gm: real
    const dt: real
    const initR: real
    const enforceR: bool
    const maxSteps: int
    const rewardFunction: RewardFunction
    const math: Math

    var x: real
    var y: real
    var vx: real
    var vy: real
    var currentStep: int

    function Current(): State
      reads this
    {
      State(x, y, vx, vy)
    }

    /**
     * `r0 == None` draws the initial radius; `draw` stands for that call of
     * `np.random.uniform(0.2, 4.0)` and `resetDraw` for the one the final
     * `reset()` makes.
     */
    constructor (gm: real, r0: Option<real>, dt: real, maxSteps: int,
                 rewardFunction: RewardFunction, math: Math, draw: real, resetDraw: real)
      requires r0.Some? ==> r0.value != 0.0
      requires r0.None? ==> 0.2 <= draw < 4.0 && 0.2 <= resetDraw < 4.0
      ensures this.gm == gm && this.dt == dt && this.maxSteps == maxSteps
      ensures this.rewardFunction == rewardFunction && this.math == math
      ensures initR == (if r0.Some? then r0.value else draw) && initR != 0.0
      ensures enforceR == r0.Some?
      ensures x == (if enforceR then initR else resetDraw)
      ensures y == 0.0 && vx == 0.0 && vy == math.sqrt(gm / initR)
      ensures currentStep == 0
    {
      this.gm := gm;
      this.dt := dt;
      this.initR := if r0.Some? then r0.value else draw;
      this.enforceR := r0.Some?;
      this.maxSteps := maxSteps;
      this.rewardFunction := rewardFunction;
      this.math := math;
      new;
      x := initR;
      y := 0.0;
      vx := 0.0;
      vy := math.sqrt(gm / initR);
      currentStep := 0;
      var _ := Reset(resetDraw);
    }

    /** `reset`: back to a circular-speed start; `draw` is used only when `r0` was not given. */
    method Reset(draw: real) returns (s: State)
      requires initR != 0.0
      requires !enforceR ==> 0.2 <= draw < 4.0
      modifies this
      ensures x == (if enforceR then initR else draw)
      ensures y == 0.0 && vx == 0.0 && vy == math.sqrt(gm / initR)
      ensures currentStep == 0
      ensures s == Current()
    {
      x := if enforceR then initR else draw;
      y := 0.0;
      vx := 0.0;
      vy := math.sqrt(gm / initR);
      currentStep := 0;
      s := State(x, y, vx, vy);
    }

    /** `step(action)`: gravity-only RK4, then the thrust impulse, reward and termination. */
    method Step(action: real) returns (s: State, reward: real, done: bool)
      modifies this
      ensures Current() == StepState(old(Current()), action, gm, dt, math)
      ensures s == Current()
      ensures currentStep == old(currentStep) + 1
      ensures done == EpisodeOver(x, y, old(currentStep), maxSteps, math)
      ensures reward == (match rewardFunction
                         case Default => DefaultReward(x, y, initR, action, math)
                         case Custom(f) => f(action))
    {
      // Gravity-only RK4 first, then the tangential impulse at the new position.
      var g := GravityStep(Current(), gm, dt, math);
      var p := TangentialImpulse(g, action, dt, math);
      x, y, vx, vy := p.x, p.y, p.vx, p.vy;
      var dist := FloorRadius(x, y, math);
      s := p;
      reward := match rewardFunction
                case Default => DefaultReward(x, y, initR, action, math)
                case Custom(f) => f(action);
      done := dist > EscapeRadius || dist < CollisionRadius || currentStep >= maxSteps;
      currentStep := currentStep + 1;
    }
  }

  /** The thrust impulse changes only the velocity, and `action == 0` leaves the gravity-only step. */
  lemma StepWithoutThrust(s: State, gm: real, dt: real, m: Math)
    ensures StepState(s, 0.0, gm, dt, m) == GravityStep(s, gm, dt, m)
  {
  }
}
