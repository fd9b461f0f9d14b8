/** Option, the one wrapper type the model needs. */
module Wrappers {
  datatype Option<+T> = None | Some(value: T) {
    function GetOr(default: T): (r: T)
      ensures Some? ==> r == value
      ensures None? ==> r == default
    {
      if Some? then value else default
    }
  }
}

/**
 * The planar state vector, the inverse-square field and the classical
 * fourth-order Runge-Kutta step shared by the single-body and the
 * multi-ship engines of environment.py.
 */
module Integrator {
  import opened RealMath

  datatype Vec = Vec(x: real, y: real)

  function Add(a: Vec, b: Vec): Vec {
    Vec(a.x + b.x, a.y + b.y)
  }

  function Scale(k: real, a: Vec): Vec {
    Vec(k * a.x, k * a.y)
  }

  /** Position and velocity, numpy's `[x, y, vx, vy]`. */
  datatype State = State(x: real, y: real, vx: real, vy: real)

  /**
   * `k / d**2 * (dx, dy) / d`: a field of strength `k / d^2` along the unit
   * vector `(dx, dy) / d`. With `k < 0` it points back towards the origin of
   * `(dx, dy)` (central gravity), with `k > 0` along it (a pull).
   */
  function InverseSquare(k: real, dx: real, dy: real, d: real): Vec
    requires d > 0.0
  {
    var c := k / (d * d);
    Vec(c * (dx / d), c * (dy / d))
  }

  /**
   * The field lies on the line of `(dx, dy)`: away from it for `k < 0`,
   * along it for `k > 0`.
   */
  lemma InverseSquareDirection(k: real, dx: real, dy: real, d: real)
    requires d > 0.0
    ensures var a := InverseSquare(k, dx, dy, d);
      && dx * a.y - dy * a.x == 0.0
      && (k <= 0.0 ==> dx * a.x + dy * a.y <= 0.0)
      && (k >= 0.0 ==> dx * a.x + dy * a.y >= 0.0)
  {
    var c := k / (d * d);
    AlongDirection(c, dx, dy, d);
    assert k <= 0.0 ==> c <= 0.0;
    assert k >= 0.0 ==> c >= 0.0;
  }

  lemma AlongDirection(c: real, dx: real, dy: real, d: real)
    requires d > 0.0
    ensures dx * (c * (dy / d)) - dy * (c * (dx / d)) == 0.0
    ensures dx * (c * (dx / d)) + dy * (c * (dy / d)) == (c / d) * (dx * dx + dy * dy)
  {
    assert dx * (c * (dy / d)) == (c / d) * (dx * dy);
    assert dy * (c * (dx / d)) == (c / d) * (dx * dy);
    assert dx * (c * (dx / d)) == (c / d) * (dx * dx);
    assert dy * (c * (dy / d)) == (c / d) * (dy * dy);
  }

  /** Where stage 2 samples the field: half a step along the initial velocity. */
  function Mid1(s: State, dt: real): Vec {
    Vec(s.x + 0.5 * (dt * s.vx), s.y + 0.5 * (dt * s.vy))
  }

  /** Where stage 3 samples the field: half a step along the stage-2 velocity `v + dt * a1 / 2`. */
  function Mid2(s: State, dt: real, a1: Vec): Vec {
    Vec(s.x + 0.5 * (dt * (s.vx + 0.5 * (dt * a1.x))), s.y + 0.5 * (dt * (s.vy + 0.5 * (dt * a1.y))))
  }

  /** Where stage 4 samples the field: a full step along the stage-3 velocity `v + dt * a2 / 2`. */
  function End(s: State, dt: real, a2: Vec): Vec {
    Vec(s.x + dt * (s.vx + 0.5 * (dt * a2.x)), s.y + dt * (s.vy + 0.5 * (dt * a2.y)))
  }

  /**
   * The weighted sum with weights (1, 2, 2, 1) / 6: positions advance with
   * the stage velocities, velocities with the stage accelerations `a1..a4`.
   */
  function Combine(s: State, dt: real, a1: Vec, a2: Vec, a3: Vec, a4: Vec): State {
    State(
      s.x + (dt * s.vx + 2.0 * (dt * (s.vx + 0.5 * (dt * a1.x))) + 2.0 * (dt * (s.vx + 0.5 * (dt * a2.x)))
             + dt * (s.vx + dt * a3.x)) / 6.0,
      s.y + (dt * s.vy + 2.0 * (dt * (s.vy + 0.5 * (dt * a1.y))) + 2.0 * (dt * (s.vy + 0.5 * (dt * a2.y)))
             + dt * (s.vy + dt * a3.y)) / 6.0,
      s.vx + (dt * a1.x + 2.0 * (dt * a2.x) + 2.0 * (dt * a3.x) + dt * a4.x) / 6.0,
      s.vy + (dt * a1.y + 2.0 * (dt * a2.y) + 2.0 * (dt * a3.y) + dt * a4.y) / 6.0)
  }

  /**
   * One RK4 step of `dt` for `x'' = acc(x)`, with the stage layout of
   * environment.py: `k_i_p = dt * v_i`, `k_i_v = dt * a_i`, each stage
   * sampling the field at the position the previous stage reached.
   */
  function Rk4(s: State, dt: real, acc: (real, real) -> Vec): State {
    var a1 := acc(s.x, s.y);
    var p2 := Mid1(s, dt);
    var a2 := acc(p2.x, p2.y);
    var p3 := Mid2(s, dt, a1);
    var a3 := acc(p3.x, p3.y);
    var p4 := End(s, dt, a2);
    var a4 := acc(p4.x, p4.y);
    Combine(s, dt, a1, a2, a3, a4)
  }

  /**
   * RK4 is exact for a uniform field: the step is the closed-form motion
   * under constant acceleration `a`.
   */
  lemma {:induction false} Rk4UniformField(s: State, dt: real, acc: (real, real) -> Vec, a: Vec)
    requires forall px, py :: acc(px, py) == a
    ensures Rk4(s, dt, acc) == State(
      s.x + dt * s.vx + dt * dt * a.x / 2.0,
      s.y + dt * s.vy + dt * dt * a.y / 2.0,
      s.vx + dt * a.x,
      s.vy + dt * a.y)
  {
    var p2, p3, p4 := Mid1(s, dt), Mid2(s, dt, a), End(s, dt, a);
    assert acc(s.x, s.y) == a;
    assert acc(p2.x, p2.y) == a;
    assert acc(p3.x, p3.y) == a;
    assert acc(p4.x, p4.y) == a;
    assert Rk4(s, dt, acc) == Combine(s, dt, a, a, a, a);
    CombineUniform(s, dt, a);
  }

  /** The weighted sum when all four stages see the same acceleration, component by component. */
  lemma CombineUniform(s: State, dt: real, a: Vec)
    ensures Combine(s, dt, a, a, a, a) == State(
      s.x + dt * s.vx + dt * dt * a.x / 2.0,
      s.y + dt * s.vy + dt * dt * a.y / 2.0,
      s.vx + dt * a.x,
      s.vy + dt * a.y)
  {
    var c := Combine(s, dt, a, a, a, a);
    UniformSum(dt, s.vx, a.x);
    UniformSum(dt, s.vy, a.y);
    assert c.x == s.x + dt * s.vx + dt * dt * a.x / 2.0;
    assert c.y == s.y + dt * s.vy + dt * dt * a.y / 2.0;
    assert c.vx == s.vx + dt * a.x;
    assert c.vy == s.vy + dt * a.y;
  }

  lemma UniformSum(dt: real, v: real, a: real)
    ensures (dt * v + 2.0 * (dt * (v + 0.5 * (dt * a))) + 2.0 * (dt * (v + 0.5 * (dt * a)))
             + dt * (v + dt * a)) / 6.0 == dt * v + dt * dt * a / 2.0
    ensures (dt * a + 2.0 * (dt * a) + 2.0 * (dt * a) + dt * a) / 6.0 == dt * a
  {
  }
}
