/**
 * The Hohmann-transfer guidance client of hohman_client.py: pure orbital
 * helpers, the two-burn state machine of `choose_action`, the shortest-turn
 * arithmetic of `send_manual_control` and the message dispatch of `main`.
 */
module HohmannClient {
  import opened RealMath
  import opened Wrappers

  type ShipId = string

  const GM: real := 1.0
  /** One tick of the 60 Hz server. */
  const Dt: real := 1.0 / 60.0
  const TargetRadius: real := 1.0
  /** Below this radius the radial velocity reads as 0. */
  const RadialFloor: real := 0.00001
  /** Below this specific energy the orbit counts as parabolic. */
  const ParabolicEnergy: real := 0.000001
  /** `|r - TARGET_RADIUS|` gate of the circularisation burn. */
  const NearTarget: real := 0.1

  datatype Vec = Vec(x: real, y: real)

  function ComputeRadius(x: real, y: real, m: Math): real {
    m.sqrt(x * x + y * y)
  }

  /** `get_orbit_direction`: +1 for counter-clockwise motion (a zero cross product included), -1 otherwise. */
  function OrbitDirection(x: real, y: real, vx: real, vy: real): (d: int)
    ensures d == 1 || d == -1
    ensures d == 1 <==> x * vy - y * vx >= 0.0
  {
    if x * vy - y * vx >= 0.0 then 1 else -1
  }

  /** The unit tangent of `calculate_maneuver_vector`, turned the way the ship goes round. */
  function Tangent(x: real, y: real, vx: real, vy: real, m: Math): Vec
    requires ComputeRadius(x, y, m) != 0.0
  {
    var r := ComputeRadius(x, y, m);
    var nx, ny := x / r, y / r;
    if OrbitDirection(x, y, vx, vy) == 1 then Vec(-ny, nx) else Vec(ny, -nx)
  }

  /** The purely tangential velocity of the given speed. */
  function TargetVelocity(x: real, y: real, vx: real, vy: real, speed: real, m: Math): Vec
    requires ComputeRadius(x, y, m) != 0.0
  {
    var t := Tangent(x, y, vx, vy, m);
    Vec(t.x * speed, t.y * speed)
  }

  function DeltaV(x: real, y: real, vx: real, vy: real, speed: real, m: Math): Vec
    requires ComputeRadius(x, y, m) != 0.0
  {
    var target := TargetVelocity(x, y, vx, vy, speed, m);
    Vec(target.x - vx, target.y - vy)
  }

  datatype Maneuver = Maneuver(thrust: real, heading: real, dvMag: real)

  /** `calculate_maneuver_vector`: the burn that replaces the velocity by the target velocity in one tick. */
  function ManeuverVector(x: real, y: real, vx: real, vy: real, speed: real, m: Math): Maneuver
    requires ComputeRadius(x, y, m) != 0.0
  {
    var dv := DeltaV(x, y, vx, vy, speed, m);
    var mag := m.sqrt(dv.x * dv.x + dv.y * dv.y);
    Maneuver(mag / Dt, m.atan2(dv.y, dv.x), mag)
  }

  /**
   * The target velocity is perpendicular to the position, and the current
   * velocity plus the burn's delta-v is the target velocity.
   */
  lemma ManeuverReachesTarget(x: real, y: real, vx: real, vy: real, speed: real, m: Math)
    requires ComputeRadius(x, y, m) != 0.0
    ensures var target := TargetVelocity(x, y, vx, vy, speed, m);
      && x * target.x + y * target.y == 0.0
      && vx + DeltaV(x, y, vx, vy, speed, m).x == target.x
      && vy + DeltaV(x, y, vx, vy, speed, m).y == target.y
  {
    var r := ComputeRadius(x, y, m);
    Perpendicular(x, y, r, speed);
  }

  lemma Perpendicular(x: real, y: real, r: real, s: real)
    requires r != 0.0
    ensures x * (-(y / r) * s) + y * ((x / r) * s) == 0.0
    ensures x * ((y / r) * s) + y * (-(x / r) * s) == 0.0
  {
    assert x * (-(y / r) * s) == -(s / r) * (x * y);
    assert y * ((x / r) * s) == (s / r) * (x * y);
    assert x * ((y / r) * s) == (s / r) * (x * y);
    assert y * (-(x / r) * s) == -(s / r) * (x * y);
  }

  /**
   * The tangent is a unit vector turned with the orbit: its cross product
   * with the position is `direction * r`, so the target velocity has exactly
   * the requested speed and keeps the sense of rotation.
   */
  lemma {:induction false} TangentFollowsOrbit(x: real, y: real, vx: real, vy: real, m: Math)
    requires Sound(m) && ComputeRadius(x, y, m) != 0.0
    ensures var t := Tangent(x, y, vx, vy, m);
      && t.x * t.x + t.y * t.y == 1.0
      && x * t.y - y * t.x == OrbitDirection(x, y, vx, vy) as real * ComputeRadius(x, y, m)
  {
    var r := ComputeRadius(x, y, m);
    SqrtNonNegative(m, x * x + y * y);
    UnitTangent(x, y, r);
  }

  lemma UnitTangent(x: real, y: real, r: real)
    requires r > 0.0 && r * r == x * x + y * y
    ensures (x / r) * (x / r) + (y / r) * (y / r) == 1.0
    ensures x * (x / r) - y * (-(y / r)) == r
    ensures x * (-(x / r)) - y * (y / r) == -r
  {
    var u, v := x / r, y / r;
    UnitVector(x, y, r);
    assert x * u - y * (-v) == (u * u + v * v) * r;
    assert x * (-u) - y * v == -((u * u + v * v) * r);
  }

  /** The target velocity has the requested speed. */
  lemma {:induction false} TargetSpeed(x: real, y: real, vx: real, vy: real, speed: real, m: Math)
    requires Sound(m) && ComputeRadius(x, y, m) != 0.0
    ensures var v := TargetVelocity(x, y, vx, vy, speed, m);
      v.x * v.x + v.y * v.y == speed * speed
  {
    var t := Tangent(x, y, vx, vy, m);
    TangentFollowsOrbit(x, y, vx, vy, m);
    ScaledUnit(t.x, t.y, speed);
  }

  lemma ScaledUnit(a: real, b: real, s: real)
    requires a * a + b * b == 1.0
    ensures (a * s) * (a * s) + (b * s) * (b * s) == s * s
  {
    assert (a * s) * (a * s) + (b * s) * (b * s) == (a * a + b * b) * (s * s);
  }

  /** The thrust is the delta-v's length spread over one tick, never negative. */
  lemma {:induction false} ManeuverThrust(x: real, y: real, vx: real, vy: real, speed: real, m: Math)
    requires Sound(m) && ComputeRadius(x, y, m) != 0.0
    ensures var mv := ManeuverVector(x, y, vx, vy, speed, m);
      var dv := DeltaV(x, y, vx, vy, speed, m);
      && mv.thrust >= 0.0
      && mv.thrust * Dt == mv.dvMag
      && mv.dvMag * mv.dvMag == dv.x * dv.x + dv.y * dv.y
      && mv.heading == m.atan2(dv.y, dv.x)
  {
    var dv := DeltaV(x, y, vx, vy, speed, m);
    SqrtNonNegative(m, dv.x * dv.x + dv.y * dv.y);
  }

  datatype SemiMajor = Finite(a: real) | Infinite

  datatype Elements = Elements(energy: real, semiMajor: SemiMajor, eccentricity: real)

  /** `h^2 / (GM * a)`, 0 for an infinite semi-major axis. */
  function EccentricityTerm(h2: real, a: SemiMajor): real
    requires a.Finite? ==> a.a != 0.0
  {
    if a.Infinite? then 0.0 else h2 / (GM * a.a)
  }

  /** `calculate_orbital_elements`: specific energy, semi-major axis, eccentricity. */
  function OrbitalElements(x: real, y: real, vx: real, vy: real, m: Math): (el: Elements)
    requires ComputeRadius(x, y, m) != 0.0
    ensures el.semiMajor.Infinite? <==> Abs(el.energy) < ParabolicEnergy
    ensures el.semiMajor.Finite? ==> el.semiMajor.a != 0.0 && el.energy == -GM / (2.0 * el.semiMajor.a)
  {
    var r := ComputeRadius(x, y, m);
    var v2 := vx * vx + vy * vy;
    var energy := v2 / 2.0 - GM / r;
    var a := if Abs(energy) < ParabolicEnergy then Infinite else Finite(-GM / (2.0 * energy));
    var h := x * vy - y * vx;
    var term := EccentricityTerm(h * h, a);
    var e := if term <= 1.0 then m.sqrt(1.0 - term) else 0.0;
    Elements(energy, a, e)
  }

  /**
   * Vis-viva: on a bound or hyperbolic orbit the speed, the radius and the
   * semi-major axis satisfy `v^2 == GM (2 / r - 1 / a)`.
   */
  lemma {:induction false} OrbitalEnergy(x: real, y: real, vx: real, vy: real, m: Math)
    requires ComputeRadius(x, y, m) != 0.0
    ensures var el := OrbitalElements(x, y, vx, vy, m);
      el.semiMajor.Finite? ==>
        vx * vx + vy * vy == GM * (2.0 / ComputeRadius(x, y, m) - 1.0 / el.semiMajor.a)
  {
    var el := OrbitalElements(x, y, vx, vy, m);
    var r := ComputeRadius(x, y, m);
    if el.semiMajor.Finite? {
      var energy := (vx * vx + vy * vy) / 2.0 - GM / r;
      assert el.energy == energy;
      assert el.semiMajor.a == -GM / (2.0 * energy);
      assert 1.0 / el.semiMajor.a == -2.0 * energy / GM;
    }
  }

  /**
   * The eccentricity is never negative; it is clipped to 0 when
   * `h^2 / (GM a) > 1`, is 1 on a parabolic orbit, and otherwise satisfies
   * `h^2 == GM a (1 - e^2)`.
   */
  lemma {:induction false} Eccentricity(x: real, y: real, vx: real, vy: real, m: Math)
    requires Sound(m) && ComputeRadius(x, y, m) != 0.0
    ensures var el := OrbitalElements(x, y, vx, vy, m);
      var h := x * vy - y * vx;
      && el.eccentricity >= 0.0
      && (el.semiMajor.Infinite? ==> el.eccentricity == 1.0)
      && (el.semiMajor.Finite? && h * h / (GM * el.semiMajor.a) > 1.0 ==> el.eccentricity == 0.0)
      && (el.semiMajor.Finite? && h * h / (GM * el.semiMajor.a) <= 1.0 ==>
            h * h == GM * el.semiMajor.a * (1.0 - el.eccentricity * el.eccentricity))
  {
    var el := OrbitalElements(x, y, vx, vy, m);
    var h := x * vy - y * vx;
    EccentricityOf(h * h, el.semiMajor, m);
  }

  /** The eccentricity step of `calculate_orbital_elements` on its own. */
  lemma {:induction false} EccentricityOf(h2: real, a: SemiMajor, m: Math)
    requires Sound(m) && (a.Finite? ==> a.a != 0.0)
    ensures var term := EccentricityTerm(h2, a);
      var e := if term <= 1.0 then m.sqrt(1.0 - term) else 0.0;
      && e >= 0.0
      && (a.Infinite? ==> e == 1.0)
      && (a.Finite? && h2 / (GM * a.a) > 1.0 ==> e == 0.0)
      && (a.Finite? && h2 / (GM * a.a) <= 1.0 ==> h2 == GM * a.a * (1.0 - e * e))
  {
    var term := EccentricityTerm(h2, a);
    if a.Infinite? {
      assert 1.0 - term == 1.0 * 1.0;
      SqrtOfSquare(m, 1.0);
    } else if term <= 1.0 {
      SqrtNonNegative(m, 1.0 - term);
      RecoverNumerator(h2, GM * a.a, term);
    }
  }

  lemma RecoverNumerator(n: real, d: real, q: real)
    requires d != 0.0 && q == n / d
    ensures n == d * (1.0 - (1.0 - q))
  {
  }

  /** Python's `(d + pi) % (2 pi) - pi`: the angle brought into `[-pi, pi)`. */
  function WrapAngle(d: real, m: Math): (w: real)
    requires m.pi > 0.0
    ensures -m.pi <= w < m.pi
  {
    FloorMod(d + m.pi, 2.0 * m.pi) - m.pi
  }

  /** An angle already in `[-pi, pi)` is left alone. */
  lemma {:induction false} WrapIdentity(d: real, m: Math)
    requires m.pi > 0.0 && -m.pi <= d < m.pi
    ensures WrapAngle(d, m) == d
  {
    FloorModSmall(d + m.pi, 2.0 * m.pi);
  }

  /** Whole turns do not change the wrapped angle. */
  lemma {:induction false} WrapShift(d: real, k: int, m: Math)
    requires m.pi > 0.0
    ensures WrapAngle(d + 2.0 * m.pi * k as real, m) == WrapAngle(d, m)
  {
    var a, b := d + m.pi, 2.0 * m.pi;
    assert d + 2.0 * m.pi * k as real + m.pi == a + b * k as real;
    FloorModShift(a, b, k);
  }

  /** The wrapped angle differs from the input by a whole number of turns. */
  lemma {:induction false} WrapWholeTurns(d: real, m: Math)
    requires m.pi > 0.0
    ensures var q := (d - WrapAngle(d, m)) / (2.0 * m.pi); q.Floor as real == q
  {
    var b := 2.0 * m.pi;
    var f := ((d + m.pi) / b).Floor;
    var r := FloorMod(d + m.pi, b);
    FloorModQuotient(d + m.pi, b);
    assert r == d + m.pi - b * f as real;
    var w := WrapAngle(d, m);
    assert w == r - m.pi;
    QuotientOfMultiple(d - w, b, f);
  }

  lemma QuotientOfMultiple(n: real, b: real, f: int)
    requires b > 0.0 && n == b * f as real
    ensures n / b == f as real && (n / b).Floor == f
  {
  }

  /** The cached telemetry of the client's own ship. */
  datatype Telemetry = Telemetry(tick: int, x: real, y: real, vx: real, vy: real, heading: real)

  /** The module globals and the `prev_v_rad` attribute of `choose_action`. */
  datatype Session = Session(
    firstBurnApplied: bool,
    secondBurnApplied: bool,
    prevVRad: Option<real>,
    cachedState: Option<Telemetry>,
    myShipId: Option<ShipId>)

  const Initial: Session := Session(false, false, None, None, None)

  /** What `choose_action` gives back: a command, or the `ZeroDivisionError` at the origin. */
  datatype Reply = Command(thrust: real, heading: real) | Raised

  datatype Turn = Turn(reply: Reply, after: Session)

  function RadialVelocity(t: Telemetry, r: real): real {
    if r > RadialFloor then (t.x * t.vx + t.y * t.vy) / r else 0.0
  }

  /** `choose_action` divides by `r` in the telemetry log (every 60th tick) and in the first burn. */
  predicate Raises(s: Session, m: Math)
    requires s.cachedState.Some?
  {
    var t := s.cachedState.value;
    ComputeRadius(t.x, t.y, m) == 0.0 && (t.tick % 60 == 0 || !s.firstBurnApplied)
  }

  /** Vis-viva speed at radius `r1` on the transfer ellipse to `TargetRadius`. */
  function TransferSpeed(r1: real, m: Math): real
    requires r1 > 0.0
  {
    var aTransfer := (r1 + TargetRadius) / 2.0;
    m.sqrt(GM * (2.0 / r1 - 1.0 / aTransfer))
  }

  /** The circularisation test: a strict sign flip of the radial velocity near the target radius. */
  predicate CircularizeNow(s: Session, m: Math)
    requires s.cachedState.Some?
  {
    var t := s.cachedState.value;
    var r := ComputeRadius(t.x, t.y, m);
    var vRad := RadialVelocity(t, r);
    var prev := s.prevVRad.GetOr(vRad);
    && s.firstBurnApplied
    && !s.secondBurnApplied
    && prev * vRad < 0.0
    && Abs(r - TargetRadius) < NearTarget
  }

  /** `sqrt(GM / r)`, the circular-orbit speed at radius `r`. */
  function CircularSpeed(r: real, m: Math): real
    requires r != 0.0
  {
    m.sqrt(GM / r)
  }

  /** `atan2(vy, vx)`, the direction of the velocity. */
  function VelocityHeading(vx: real, vy: real, m: Math): real {
    m.atan2(vy, vx)
  }

  /** Burn 1: onto the transfer ellipse. */
  function InjectionBurn(t: Telemetry, m: Math): Maneuver
    requires ComputeRadius(t.x, t.y, m) > 0.0
  {
    ManeuverVector(t.x, t.y, t.vx, t.vy, TransferSpeed(ComputeRadius(t.x, t.y, m), m), m)
  }

  /** Burn 2: onto the circular orbit at the current radius. */
  function CircularizationBurn(t: Telemetry, m: Math): Maneuver
    requires ComputeRadius(t.x, t.y, m) > 0.0
  {
    ManeuverVector(t.x, t.y, t.vx, t.vy, CircularSpeed(ComputeRadius(t.x, t.y, m), m), m)
  }

  /** `choose_action` as a transition of the session. */
  function Choose(s: Session, m: Math): Turn
    requires Sound(m)
  {
    if s.cachedState.None? then Turn(Command(0.0, 0.0), s)
    else if Raises(s, m) then Turn(Raised, s)
    else
      var t := s.cachedState.value;
      var r := ComputeRadius(t.x, t.y, m);
      SqrtNonNegative(m, t.x * t.x + t.y * t.y);
      if !s.firstBurnApplied then
        var mv := InjectionBurn(t, m);
        Turn(Command(mv.thrust, mv.heading), s.(firstBurnApplied := true))
      else
        var next := s.(prevVRad := Some(RadialVelocity(t, r)));
        if CircularizeNow(s, m) then
          var mv := CircularizationBurn(t, m);
          Turn(Command(mv.thrust, mv.heading), next.(secondBurnApplied := true))
        else
          Turn(Command(0.0, VelocityHeading(t.vx, t.vy, m)), next)
  }

  /** Without telemetry the answer is `(0, 0)` and nothing changes. */
  lemma ChooseWithoutState(s: Session, m: Math)
    requires Sound(m) && s.cachedState.None?
    ensures Choose(s, m) == Turn(Command(0.0, 0.0), s)
  {
  }

  /**
   * `choose_action` raises exactly at the origin on a logging tick or before
   * the first burn, and a raise changes nothing; at the origin means
   * `x == y == 0`.
   */
  lemma {:induction false} ChooseRaises(s: Session, m: Math)
    requires Sound(m) && s.cachedState.Some?
    ensures Choose(s, m).reply.Raised? <==> Raises(s, m)
    ensures Choose(s, m).reply.Raised? ==> Choose(s, m).after == s
    ensures var t := s.cachedState.value; ComputeRadius(t.x, t.y, m) == 0.0 <==> t.x == 0.0 && t.y == 0.0
  {
    var t := s.cachedState.value;
    SqrtNonNegative(m, t.x * t.x + t.y * t.y);
    if t.x == 0.0 && t.y == 0.0 {
      assert t.x * t.x + t.y * t.y == 0.0 * 0.0;
      SqrtOfSquare(m, 0.0);
    }
    SumOfSquaresZero(t.x, t.y);
  }

  lemma SumOfSquaresZero(x: real, y: real)
    ensures x * x + y * y == 0.0 ==> x == 0.0 && y == 0.0
  {
    assert x * x >= 0.0 && y * y >= 0.0;
    if x * x == 0.0 {
      ZeroProduct(x, x);
    }
    if y * y == 0.0 {
      ZeroProduct(y, y);
    }
  }

  /**
   * The first call with telemetry fires the injection burn towards the
   * vis-viva transfer speed for `a_t = (r + 1) / 2`, sets the first flag and
   * leaves `prev_v_rad` unset.
   */
  lemma {:induction false} FirstBurn(s: Session, m: Math)
    requires Sound(m) && s.cachedState.Some? && !s.firstBurnApplied && !Raises(s, m)
    ensures var t := s.cachedState.value;
      var r := ComputeRadius(t.x, t.y, m);
      && r > 0.0
      && TransferSpeed(r, m) == m.sqrt(GM * (2.0 / r - 2.0 / (r + TargetRadius)))
      && InjectionBurn(t, m) == ManeuverVector(t.x, t.y, t.vx, t.vy, TransferSpeed(r, m), m)
      && Choose(s, m) == Turn(Command(InjectionBurn(t, m).thrust, InjectionBurn(t, m).heading),
                              s.(firstBurnApplied := true))
  {
    var t := s.cachedState.value;
    SqrtNonNegative(m, t.x * t.x + t.y * t.y);
    var r := ComputeRadius(t.x, t.y, m);
    assert 1.0 / ((r + TargetRadius) / 2.0) == 2.0 / (r + TargetRadius);
  }

  /**
   * After the first burn every call stores the current radial velocity
   * (0 within 1e-5 of the origin) as `prev_v_rad`; it either circularises,
   * exactly when `CircularizeNow` holds, or coasts with thrust 0 along the
   * velocity.
   */
  lemma {:induction false} AfterFirstBurn(s: Session, m: Math)
    requires Sound(m) && s.cachedState.Some? && s.firstBurnApplied && !Raises(s, m)
    ensures var t := s.cachedState.value;
      var r := ComputeRadius(t.x, t.y, m);
      var turn := Choose(s, m);
      && (r <= RadialFloor ==> RadialVelocity(t, r) == 0.0)
      && turn.after.prevVRad == Some(RadialVelocity(t, r))
      && turn.after.firstBurnApplied
      && (turn.after.secondBurnApplied <==> s.secondBurnApplied || CircularizeNow(s, m))
      && (CircularizeNow(s, m) ==>
            && r > 0.0
            && CircularizationBurn(t, m) == ManeuverVector(t.x, t.y, t.vx, t.vy, m.sqrt(GM / r), m)
            && turn.reply == Command(CircularizationBurn(t, m).thrust, CircularizationBurn(t, m).heading))
      && (!CircularizeNow(s, m) ==> turn.reply == Command(0.0, m.atan2(t.vy, t.vx)))
  {
    var t := s.cachedState.value;
    SqrtNonNegative(m, t.x * t.x + t.y * t.y);
  }

  /**
   * On the first call after the injection burn `prev_v_rad` defaults to the
   * current radial velocity, whose square is never negative: no
   * circularisation then.
   */
  lemma {:induction false} NoCircularizeWithoutHistory(s: Session, m: Math)
    requires s.cachedState.Some? && s.prevVRad.None?
    ensures !CircularizeNow(s, m)
  {
    var t := s.cachedState.value;
    var r := ComputeRadius(t.x, t.y, m);
    var v := RadialVelocity(t, r);
    assert v * v >= 0.0;
  }

  /** The burn flags only go from false to true. */
  predicate FlagsAdvance(s: Session, t: Session) {
    && (s.firstBurnApplied ==> t.firstBurnApplied)
    && (s.secondBurnApplied ==> t.secondBurnApplied)
  }

  /** The second burn is never applied before the first. */
  predicate FlagsOrdered(s: Session) {
    s.secondBurnApplied ==> s.firstBurnApplied
  }

  lemma {:induction false} ChooseAdvancesFlags(s: Session, m: Math)
    requires Sound(m)
    ensures FlagsAdvance(s, Choose(s, m).after)
    ensures Choose(s, m).after.secondBurnApplied && !s.secondBurnApplied ==> s.firstBurnApplied
    ensures FlagsOrdered(s) ==> FlagsOrdered(Choose(s, m).after)
    ensures Choose(s, m).after.cachedState == s.cachedState && Choose(s, m).after.myShipId == s.myShipId
  {
    if s.cachedState.Some? && !Raises(s, m) {
      var t := s.cachedState.value;
      SqrtNonNegative(m, t.x * t.x + t.y * t.y);
    }
  }

  /** One ship as a `state_update` reports it; `heading` may be missing. */
  datatype Report = Report(x: real, y: real, vx: real, vy: real, heading: Option<real>)

  /** The `ship_id` key of a `mode_confirmed` payload: missing, JSON `null`, or a string. */
  datatype IdField = Absent | Null | Present(id: ShipId)

  /** The message types `main` tells apart; JSON and the socket are not modelled. */
  datatype Message =
    | ModeConfirmed(shipId: IdField)
    | StateUpdate(tick: int, ships: map<ShipId, Report>)
    | ActionRequest(tick: int)
    | Other

  /** The payload of a `manual_action` message. */
  datatype ManualAction = ManualAction(tick: int, turn: real, thrust: real)

  /** What one message makes the client do. */
  datatype Effect = Nothing | Send(action: ManualAction) | Stop

  datatype Handled = Handled(effect: Effect, after: Session)

  /**
   * `send_manual_control`: with telemetry, the turn rate that reaches the
   * target heading along the shorter way in one tick; otherwise nothing.
   */
  function ManualControl(s: Session, tick: int, thrust: real, targetHeading: real, m: Math): Effect
    requires m.pi > 0.0
  {
    if s.cachedState.None? then Nothing
    else
      var diff := WrapAngle(targetHeading - s.cachedState.value.heading, m);
      Send(ManualAction(tick, diff / Dt, thrust))
  }

  /** A sent turn rate, held for one tick, turns by less than half a revolution onto the target heading. */
  lemma {:induction false} ManualControlTurn(s: Session, tick: int, thrust: real, targetHeading: real, m: Math)
    requires m.pi > 0.0
    ensures ManualControl(s, tick, thrust, targetHeading, m).Nothing? <==> s.cachedState.None?
    ensures var e := ManualControl(s, tick, thrust, targetHeading, m);
      e.Send? ==>
        var turned := e.action.turn * Dt;
        var q := (targetHeading - s.cachedState.value.heading - turned) / (2.0 * m.pi);
        && e.action.tick == tick && e.action.thrust == thrust
        && -m.pi <= turned < m.pi
        && q.Floor as real == q
  {
    if s.cachedState.Some? {
      var d := targetHeading - s.cachedState.value.heading;
      WrapWholeTurns(d, m);
    }
  }

  /** The receive loop's branch on the message type. */
  function Dispatch(s: Session, msg: Message, m: Math): Handled
    requires Sound(m)
  {
    match msg
    case ModeConfirmed(id) =>
      var newId := match id
        case Absent => s.myShipId
        case Null => None
        case Present(i) => Some(i);
      Handled(Nothing, s.(myShipId := newId))
    case StateUpdate(tick, ships) =>
      if s.myShipId.Some? && s.myShipId.value in ships then
        var p := ships[s.myShipId.value];
        Handled(Nothing, s.(cachedState := Some(Telemetry(tick, p.x, p.y, p.vx, p.vy, p.heading.GetOr(0.0)))))
      else Handled(Nothing, s)
    case ActionRequest(tick) =>
      var turn := Choose(s, m);
      if turn.reply.Raised? then Handled(Stop, turn.after)
      else Handled(ManualControl(turn.after, tick, turn.reply.thrust, turn.reply.heading, m), turn.after)
    case Other => Handled(Nothing, s)
  }

  /**
   * The dispatch rules: `mode_confirmed` without an id keeps the old one and
   * with `null` clears it, a
   * `state_update` without the own ship changes nothing, an `action_request`
   * without telemetry sends nothing, an unknown type is ignored.
   */
  lemma DispatchRules(s: Session, msg: Message, m: Math)
    requires Sound(m)
    ensures msg.ModeConfirmed? && msg.shipId.Absent? ==> Dispatch(s, msg, m) == Handled(Nothing, s)
    ensures msg.ModeConfirmed? && msg.shipId.Null? ==> Dispatch(s, msg, m).after == s.(myShipId := None)
    ensures msg.ModeConfirmed? && msg.shipId.Present? ==>
              Dispatch(s, msg, m).after == s.(myShipId := Some(msg.shipId.id))
    ensures msg.StateUpdate? && (s.myShipId.None? || s.myShipId.value !in msg.ships) ==>
              Dispatch(s, msg, m) == Handled(Nothing, s)
    ensures msg.StateUpdate? && s.myShipId.Some? && s.myShipId.value in msg.ships ==>
              var t := Dispatch(s, msg, m).after.cachedState;
              var p := msg.ships[s.myShipId.value];
              t == Some(Telemetry(msg.tick, p.x, p.y, p.vx, p.vy, p.heading.GetOr(0.0)))
    ensures msg.ActionRequest? && s.cachedState.None? ==> Dispatch(s, msg, m) == Handled(Nothing, s)
    ensures msg.Other? ==> Dispatch(s, msg, m) == Handled(Nothing, s)
  {
  }

  lemma {:induction false} DispatchAdvancesFlags(s: Session, msg: Message, m: Math)
    requires Sound(m)
    ensures FlagsAdvance(s, Dispatch(s, msg, m).after)
    ensures FlagsOrdered(s) ==> FlagsOrdered(Dispatch(s, msg, m).after)
  {
    if msg.ActionRequest? {
      ChooseAdvancesFlags(s, m);
    }
  }

  datatype Served = Served(sent: seq<ManualAction>, after: Session, stopped: bool)

  /** `main`'s loop over the messages in arrival order, until a message stops it. */
  function Serve(s: Session, msgs: seq<Message>, m: Math): Served
    requires Sound(m)
    decreases |msgs|
  {
    if |msgs| == 0 then Served([], s, false)
    else
      var h := Dispatch(s, msgs[0], m);
      match h.effect
      case Stop => Served([], h.after, true)
      case Nothing => Serve(h.after, msgs[1..], m)
      case Send(a) =>
        var rest := Serve(h.after, msgs[1..], m);
        rest.(sent := [a] + rest.sent)
  }

  /** Over a whole session the flags only advance, and the second burn never precedes the first. */
  lemma {:induction false} ServeAdvancesFlags(s: Session, msgs: seq<Message>, m: Math)
    requires Sound(m)
    ensures FlagsAdvance(s, Serve(s, msgs, m).after)
    ensures FlagsOrdered(s) ==> FlagsOrdered(Serve(s, msgs, m).after)
    ensures |Serve(s, msgs, m).sent| <= |msgs|
    decreases |msgs|
  {
    if |msgs| > 0 {
      var h := Dispatch(s, msgs[0], m);
      DispatchAdvancesFlags(s, msgs[0], m);
      if !h.effect.Stop? {
        ServeAdvancesFlags(h.after, msgs[1..], m);
      }
    }
  }

  /** The module globals of hohman_client.py and the function attribute `prev_v_rad`. */
  class Client {
    const math: Math
    var firstBurnApplied: bool
    var secondBurnApplied: bool
    var prevVRad: Option<real>
    var cachedState: Option<Telemetry>
    var myShipId: Option<ShipId>

    ghost function State(): Session
      reads this
    {
      Session(firstBurnApplied, secondBurnApplied, prevVRad, cachedState, myShipId)
    }

    constructor (m: Math)
      ensures math == m && State() == Initial
    {
      math := m;
      firstBurnApplied, secondBurnApplied := false, false;
      prevVRad, cachedState, myShipId := None, None, None;
    }

    method ChooseAction() returns (reply: Reply)
      requires Sound(math)
      modifies this
      ensures Turn(reply, State()) == Choose(old(State()), math)
    {
      ghost var s0 := State();
      if cachedState.None? {
        return Command(0.0, 0.0);
      }
      var t := cachedState.value;
      var r := ComputeRadius(t.x, t.y, math);
      SqrtNonNegative(math, t.x * t.x + t.y * t.y);
      var vRad := RadialVelocity(t, r);
      if r == 0.0 && (t.tick % 60 == 0 || !firstBurnApplied) {
        return Raised;
      }
      if !firstBurnApplied {
        var vTransfer := TransferSpeed(r, math);
        var mv := ManeuverVector(t.x, t.y, t.vx, t.vy, vTransfer, math);
        firstBurnApplied := true;
        return Command(mv.thrust, mv.heading);
      }
      var prev := prevVRad.GetOr(vRad);
      prevVRad := Some(vRad);
      var apsisReached := prev * vRad < 0.0;
      var nearTarget := Abs(r - TargetRadius) < NearTarget;
      if !secondBurnApplied && apsisReached && nearTarget {
        var mv := ManeuverVector(t.x, t.y, t.vx, t.vy, CircularSpeed(r, math), math);
        secondBurnApplied := true;
        return Command(mv.thrust, mv.heading);
      }
      reply := Command(0.0, VelocityHeading(t.vx, t.vy, math));
    }

    method SendManualControl(tick: int, thrust: real, targetHeading: real) returns (e: Effect)
      requires math.pi > 0.0
      ensures e == ManualControl(State(), tick, thrust, targetHeading, math)
    {
      if cachedState.None? {
        return Nothing;
      }
      var diff := targetHeading - cachedState.value.heading;
      diff := FloorMod(diff + math.pi, 2.0 * math.pi) - math.pi;
      e := Send(ManualAction(tick, diff / Dt, thrust));
    }

    /** One pass of the receive loop. */
    method Receive(msg: Message) returns (e: Effect)
      requires Sound(math)
      modifies this
      ensures Handled(e, State()) == Dispatch(old(State()), msg, math)
    {
      match msg {
        case ModeConfirmed(id) =>
          match id {
            case Absent =>
            case Null => myShipId := None;
            case Present(i) => myShipId := Some(i);
          }
          e := Nothing;
        case StateUpdate(tick, ships) =>
          if myShipId.Some? && myShipId.value in ships {
            var p := ships[myShipId.value];
            cachedState := Some(Telemetry(tick, p.x, p.y, p.vx, p.vy, p.heading.GetOr(0.0)));
          }
          e := Nothing;
        case ActionRequest(tick) =>
          var reply := ChooseAction();
          if reply.Raised? {
            e := Stop;
          } else {
            e := SendManualControl(tick, reply.thrust, reply.heading);
          }
        case Other =>
          e := Nothing;
      }
    }

    /** `main`'s receive loop over the messages in arrival order. */
    method Run(msgs: seq<Message>) returns (sent: seq<ManualAction>, stopped: bool)
      requires Sound(math)
      modifies this
      ensures Served(sent, State(), stopped) == Serve(old(State()), msgs, math)
    {
      sent, stopped := [], false;
      var i := 0;
      while i < |msgs| && !stopped
        invariant 0 <= i <= |msgs|
        invariant var rest := Serve(State(), msgs[i..], math);
          Serve(old(State()), msgs, math) ==
            if stopped then Served(sent, State(), true) else rest.(sent := sent + rest.sent)
      {
        ghost var before := State();
        var e := Receive(msgs[i]);
        assert msgs[i..][1..] == msgs[i + 1..];
        match e {
          case Stop => stopped := true;
          case Nothing =>
          case Send(a) => sent := sent + [a];
        }
        i := i + 1;
      }
      if !stopped {
        assert msgs[i..] == [];
      }
    }
  }
}
