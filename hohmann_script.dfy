/**
 * The scripted Hohmann transfer of hohman_example.py run against the
 * single-body engine: the burn parameters computed up front from the
 * vis-viva relations, then one transition per loop iteration that fires the
 * injection burn, tracks the radius in a sliding window and fires the
 * circularisation burn at the detected apsis.
 */
module HohmannScript {
  import opened RealMath
  import opened Wrappers
  import opened Integrator
  import opened OrbitalEnv

  /** `r_destination`. */
  const RDestination: real := 1.0
  /** `TARGET_RADIUS_TOLERANCE`, the gate of the second burn. */
  const TargetTolerance: real := 0.0005
  /** `radii_window` keeps at most this many radii. */
  const WindowSize: int := 20
  /** Below this radius the tangential speed reads as 0. */
  const TangentialFloor: real := 0.00001

  /** `(x vy - y vx) / r`, 0 within 1e-5 of the centre. */
  function TangentialSpeed(s: State, r: real): real {
    if r > TangentialFloor then (s.x * s.vy - s.y * s.vx) / r else 0.0
  }

  function Radius(s: State, m: Math): real {
    m.sqrt(SquaredRadius(s))
  }

  function SquaredRadius(s: State): real {
    s.x * s.x + s.y * s.y
  }

  /** The four burn quantities of either branch. */
  datatype Burns = Burns(v1Transfer: real, v2Transfer: real, deltaV1: real, deltaV2: real)

  datatype Plan = Plan(
    r1: real,
    goingInward: bool,
    aTransfer: real,
    burns: Burns,
    a1: real,
    a2: real,
    transferSteps: int)

  /** The vis-viva speed `sqrt(GM (2/r - 1/a))`. */
  function VisViva(gm: real, r: real, a: real, m: Math): real
    requires r != 0.0 && a != 0.0
  {
    m.sqrt(gm * (2.0 / r - 1.0 / a))
  }

  /**
   * The burn parameters computed before the loop: `r1` is the initial
   * radius and `vTangential` the initial tangential speed.
   */
  function PlanTransfer(r1: real, vTangential: real, gm: real, dt: real, m: Math): Plan
    requires r1 > 0.0 && gm != 0.0 && dt != 0.0
  {
    var aTransfer := (r1 + RDestination) / 2.0;
    var burns := TransferBurns(r1, vTangential, gm, m);
    Plan(r1, r1 > RDestination, aTransfer, burns, burns.deltaV1 / dt, burns.deltaV2 / dt,
         Trunc(HalfPeriod(aTransfer, gm, m) / dt))
  }

  /** The transfer speeds and delta-vs; the inward and outward branches are written out as the script writes them. */
  function TransferBurns(r1: real, vTangential: real, gm: real, m: Math): Burns
    requires r1 > 0.0
  {
    var r2 := RDestination;
    var aTransfer := (r1 + r2) / 2.0;
    if r1 > r2 then
      var v1 := VisViva(gm, r1, aTransfer, m);
      var v2 := VisViva(gm, r2, aTransfer, m);
      Burns(v1, v2, v1 - vTangential, m.sqrt(gm / r2) - v2)
    else
      var v1 := VisViva(gm, r1, aTransfer, m);
      var v2 := VisViva(gm, r2, aTransfer, m);
      Burns(v1, v2, v1 - vTangential, m.sqrt(gm / r2) - v2)
  }

  /** Kepler's third law: half the period of an orbit with semi-major axis `a`, `pi sqrt(a^3 / GM)`. */
  function HalfPeriod(a: real, gm: real, m: Math): real
    requires gm != 0.0
  {
    m.pi * m.sqrt(a * a * a / gm)
  }

  /**
   * The transfer ellipse's semi-major axis lies between the two radii, each
   * burn's acceleration applied for one step gives its delta-v, and the step
   * count truncates the half period.
   */
  lemma {:induction false} PlanShape(r1: real, vTangential: real, gm: real, dt: real, m: Math)
    requires r1 > 0.0 && gm != 0.0 && dt != 0.0
    ensures var p := PlanTransfer(r1, vTangential, gm, dt, m);
      && Min(r1, RDestination) <= p.aTransfer <= Max(r1, RDestination)
      && (p.goingInward <==> r1 > RDestination)
      && p.a1 * dt == p.burns.deltaV1
      && p.a2 * dt == p.burns.deltaV2
      && p.burns.deltaV1 == p.burns.v1Transfer - vTangential
      && p.burns.deltaV2 == m.sqrt(gm / RDestination) - p.burns.v2Transfer
      && p.transferSteps == Trunc(HalfPeriod(p.aTransfer, gm, m) / dt)
      && p.burns == TransferBurns(r1, vTangential, gm, m)
  {
    var p := PlanTransfer(r1, vTangential, gm, dt, m);
    assert p.a1 * dt == p.burns.deltaV1 by {
      DivideThenScale(p.burns.deltaV1, dt);
    }
    assert p.a2 * dt == p.burns.deltaV2 by {
      DivideThenScale(p.burns.deltaV2, dt);
    }
  }

  lemma DivideThenScale(v: real, dt: real)
    requires dt != 0.0
    ensures (v / dt) * dt == v
  {
  }

  /** Both branches compute the same burns: the transfer direction does not change them. */
  lemma PlanBranchesAgree(r1: real, vTangential: real, gm: real, m: Math)
    requires r1 > 0.0
    ensures var a := (r1 + RDestination) / 2.0;
      TransferBurns(r1, vTangential, gm, m)
        == Burns(VisViva(gm, r1, a, m), VisViva(gm, RDestination, a, m),
                 VisViva(gm, r1, a, m) - vTangential, m.sqrt(gm / RDestination) - VisViva(gm, RDestination, a, m))
  {
  }

  /**
   * Vis-viva on the transfer ellipse: the speeds at its ends are
   * `v1^2 = 2 GM r2 / (r1 (r1 + r2))` and `v2^2 = 2 GM r1 / (r2 (r1 + r2))`,
   * so `r1 v1 == r2 v2` (equal angular momentum at both apsides).
   */
  lemma TransferSpeeds(r1: real, vTangential: real, gm: real, m: Math)
    requires Sound(m) && r1 > 0.0 && gm > 0.0
    ensures var b := TransferBurns(r1, vTangential, gm, m);
      var r2 := RDestination;
      && b.v1Transfer * b.v1Transfer == 2.0 * gm * r2 / (r1 * (r1 + r2))
      && b.v2Transfer * b.v2Transfer == 2.0 * gm * r1 / (r2 * (r1 + r2))
      && r1 * b.v1Transfer == r2 * b.v2Transfer
  {
    EndSpeeds(gm, r1, RDestination, m);
  }

  lemma EndSpeeds(gm: real, r1: real, r2: real, m: Math)
    requires Sound(m) && r1 > 0.0 && r2 > 0.0 && gm > 0.0
    ensures var a := (r1 + r2) / 2.0;
      var v1, v2 := VisViva(gm, r1, a, m), VisViva(gm, r2, a, m);
      && v1 * v1 == 2.0 * gm * r2 / (r1 * (r1 + r2))
      && v2 * v2 == 2.0 * gm * r1 / (r2 * (r1 + r2))
      && r1 * v1 == r2 * v2
  {
    var a := (r1 + r2) / 2.0;
    VisVivaEnds(gm, r1, r2);
    VisVivaSquare(gm, r1, a, m);
    VisVivaSquare(gm, r2, a, m);
    EqualMoments(r1, r2, VisViva(gm, r1, a, m), VisViva(gm, r2, a, m), gm);
  }

  /**
   * The inward transfer from `r1 = 4` with `GM = 1`: `a_transfer = 2.5`, the
   * transfer speed is `sqrt(0.1)` at the start and `sqrt(1.6)`, four times
   * as much, at the destination.
   */
  lemma InwardFromFour(vTangential: real, m: Math)
    requires Sound(m)
    ensures var b := TransferBurns(4.0, vTangential, 1.0, m);
      && b.v1Transfer * b.v1Transfer == 0.1
      && b.v2Transfer * b.v2Transfer == 1.6
      && b.v2Transfer == 4.0 * b.v1Transfer
  {
    TransferSpeeds(4.0, vTangential, 1.0, m);
  }

  /** With a non-negative radicand the vis-viva speed is its non-negative root. */
  lemma VisVivaSquare(gm: real, r: real, a: real, m: Math)
    requires Sound(m) && r != 0.0 && a != 0.0 && gm * (2.0 / r - 1.0 / a) >= 0.0
    ensures VisViva(gm, r, a, m) >= 0.0
    ensures VisViva(gm, r, a, m) * VisViva(gm, r, a, m) == gm * (2.0 / r - 1.0 / a)
  {
    SqrtNonNegative(m, gm * (2.0 / r - 1.0 / a));
  }

  lemma VisVivaEnds(gm: real, r1: real, r2: real)
    requires gm > 0.0 && r1 > 0.0 && r2 > 0.0
    ensures gm * (2.0 / r1 - 1.0 / ((r1 + r2) / 2.0)) == 2.0 * gm * r2 / (r1 * (r1 + r2))
    ensures gm * (2.0 / r2 - 1.0 / ((r1 + r2) / 2.0)) == 2.0 * gm * r1 / (r2 * (r1 + r2))
    ensures 2.0 * gm * r2 / (r1 * (r1 + r2)) > 0.0 && 2.0 * gm * r1 / (r2 * (r1 + r2)) > 0.0
  {
    var s := r1 + r2;
    assert 1.0 / (s / 2.0) == 2.0 / s;
    assert 2.0 / r1 - 2.0 / s == 2.0 * r2 / (r1 * s);
    assert 2.0 / r2 - 2.0 / s == 2.0 * r1 / (r2 * s);
    assert r1 * s > 0.0 && r2 * s > 0.0;
    PositiveQuotient(2.0 * gm * r2, r1 * s);
    PositiveQuotient(2.0 * gm * r1, r2 * s);
  }

  lemma PositiveQuotient(a: real, b: real)
    requires a > 0.0 && b > 0.0
    ensures a / b > 0.0
  {
  }

  lemma EqualMoments(r1: real, r2: real, v1: real, v2: real, gm: real)
    requires r1 > 0.0 && r2 > 0.0 && v1 >= 0.0 && v2 >= 0.0
    requires v1 * v1 == 2.0 * gm * r2 / (r1 * (r1 + r2))
    requires v2 * v2 == 2.0 * gm * r1 / (r2 * (r1 + r2))
    ensures r1 * v1 == r2 * v2
  {
    var s := r1 + r2;
    var k := 2.0 * gm * r1 * r2 / s;
    MomentSquare(r1, v1, 2.0 * gm * r2 / (r1 * s), k, gm, r2, s);
    MomentSquare(r2, v2, 2.0 * gm * r1 / (r2 * s), k, gm, r1, s);
    NonNegativeProduct(r1, v1);
    NonNegativeProduct(r2, v2);
    EqualSquares(r1 * v1, r2 * v2);
  }

  /** `(r v)^2 == r^2 v^2 == 2 GM r r' / s` once `v^2 == 2 GM r' / (r s)`. */
  lemma MomentSquare(r: real, v: real, q: real, k: real, gm: real, r': real, s: real)
    requires r > 0.0 && s > 0.0 && v * v == q && q == 2.0 * gm * r' / (r * s) && k == 2.0 * gm * r * r' / s
    ensures (r * v) * (r * v) == k
  {
    assert (r * v) * (r * v) == (r * r) * q;
    assert (r * r) * (2.0 * gm * r' / (r * s)) == 2.0 * gm * r * r' / s;
  }

  lemma NonNegativeProduct(a: real, b: real)
    requires a > 0.0 && b >= 0.0
    ensures a * b >= 0.0
  {
  }

  lemma EqualSquares(a: real, b: real)
    requires a >= 0.0 && b >= 0.0 && a * a == b * b
    ensures a == b
  {
    assert (a - b) * (a + b) == 0.0;
    ZeroProduct(a - b, a + b);
  }

  /** The loop variables the script carries from one iteration to the next. */
  datatype Script = Script(
    firstBurnApplied: bool,
    secondBurnApplied: bool,
    firstBurnTimestep: Option<int>,
    secondBurnTimestep: Option<int>,
    a2Actual: Option<real>,
    /** `min_r_reached` when going inward, `max_r_reached` when going outward. */
    extremeR: real,
    radiiWindow: seq<real>)

  /** The variables as set before the loop. */
  function InitialScript(plan: Plan): Script {
    Script(false, false, None, None, None,
           if plan.goingInward then plan.r1 * 10.0 else plan.r1, [])
  }

  /** What one iteration asks the engine for and what it leaves behind. */
  datatype Decision = Decision(action: real, after: Script)

  /** `radii_window.append(r)` followed by `pop(0)` once it holds more than 20. */
  function Slide(window: seq<real>, r: real): seq<real> {
    var w := window + [r];
    if |w| > WindowSize then w[1..] else w
  }

  /** The sliding-window extremum test; it holds outright with fewer than 3 radii. */
  predicate AtExtremum(window: seq<real>, r: real, goingInward: bool) {
    if |window| < 3 then true
    else
      var a, b, c := window[|window| - 3], window[|window| - 2], window[|window| - 1];
      if goingInward then r <= Min(Min(a, b), c) * 1.001 else r >= Max(Max(a, b), c) * 0.999
  }

  /** `min_r_reached` or `max_r_reached` after seeing `r`. */
  function Track(extremeR: real, r: real, goingInward: bool): real {
    if goingInward then (if r < extremeR then r else extremeR)
    else (if r > extremeR then r else extremeR)
  }

  /** The second burn's gate: at the target radius, at the extremum, past 30% of the transfer. */
  predicate BurnCondition(window: seq<real>, r: real, i: int, plan: Plan) {
    && Abs(r - RDestination) < TargetTolerance
    && AtExtremum(window, r, plan.goingInward)
    && i as real > plan.transferSteps as real * 0.3
  }

  /** `(sqrt(GM / r2) - v_tangential) / dt`, the same in both branches. */
  function SecondBurn(s: State, r: real, gm: real, dt: real, m: Math): real
    requires dt != 0.0
  {
    (m.sqrt(gm / RDestination) - TangentialSpeed(s, r)) / dt
  }

  /** The body of the loop at iteration `i` with the engine in state `s`. */
  function Iterate(st: Script, i: int, s: State, plan: Plan, gm: real, dt: real, m: Math): Decision
    requires dt != 0.0
  {
    var r := Radius(s, m);
    if !st.firstBurnApplied then
      Decision(plan.a1, st.(firstBurnApplied := true, firstBurnTimestep := Some(i)))
    else if !st.secondBurnApplied then
      var window := Slide(st.radiiWindow, r);
      var coasting := st.(radiiWindow := window, extremeR := Track(st.extremeR, r, plan.goingInward));
      if BurnCondition(window, r, i, plan) then
        var a2 := SecondBurn(s, r, gm, dt, m);
        Decision(a2, coasting.(secondBurnApplied := true, secondBurnTimestep := Some(i), a2Actual := Some(a2)))
      else Decision(0.0, coasting)
    else Decision(0.0, st)
  }

  /** What every iteration keeps: the window bound and the flags in step with their timesteps. */
  predicate Consistent(st: Script) {
    && |st.radiiWindow| <= WindowSize
    && (st.secondBurnApplied ==> st.firstBurnApplied)
    && (st.firstBurnApplied <==> st.firstBurnTimestep.Some?)
    && (st.secondBurnApplied <==> st.secondBurnTimestep.Some?)
    && (st.secondBurnApplied <==> st.a2Actual.Some?)
  }

  lemma InitialConsistent(plan: Plan)
    ensures Consistent(InitialScript(plan))
    ensures !InitialScript(plan).firstBurnApplied && !InitialScript(plan).secondBurnApplied
  {
  }

  /**
   * One iteration keeps `Consistent`; the flags only go from false to true;
   * the window ends with the current radius after a coasting iteration.
   */
  lemma {:induction false} IterateConsistent(st: Script, i: int, s: State, plan: Plan, gm: real, dt: real, m: Math)
    requires dt != 0.0 && Consistent(st)
    ensures var d := Iterate(st, i, s, plan, gm, dt, m);
      && Consistent(d.after)
      && (st.firstBurnApplied ==> d.after.firstBurnApplied)
      && (st.secondBurnApplied ==> d.after.secondBurnApplied)
      && (st.firstBurnApplied && !st.secondBurnApplied ==>
            d.after.radiiWindow[|d.after.radiiWindow| - 1] == Radius(s, m))
  {
    var r := Radius(s, m);
    var w := st.radiiWindow + [r];
    assert w[|w| - 1] == r;
  }

  /** The first iteration fires the injection burn and records its index. */
  lemma FirstBurn(st: Script, i: int, s: State, plan: Plan, gm: real, dt: real, m: Math)
    requires dt != 0.0 && !st.firstBurnApplied
    ensures Iterate(st, i, s, plan, gm, dt, m)
            == Decision(plan.a1, st.(firstBurnApplied := true, firstBurnTimestep := Some(i)))
  {
  }

  /**
   * Between the burns the trackers move one way only: the inward minimum
   * never rises and ends at most `r`, the outward maximum never falls and
   * ends at least `r`.
   */
  lemma {:induction false} TrackerMonotone(st: Script, i: int, s: State, plan: Plan, gm: real, dt: real, m: Math)
    requires dt != 0.0 && st.firstBurnApplied && !st.secondBurnApplied
    ensures var d := Iterate(st, i, s, plan, gm, dt, m);
      var r := Radius(s, m);
      && (plan.goingInward ==> d.after.extremeR <= st.extremeR && d.after.extremeR <= r)
      && (!plan.goingInward ==> d.after.extremeR >= st.extremeR && d.after.extremeR >= r)
  {
  }

  /**
   * The second burn fires exactly when its gate holds between the burns,
   * with the acceleration that brings the tangential speed to the circular
   * speed at `r2` in one step; every other iteration after the first coasts.
   */
  lemma {:induction false} SecondBurnGate(st: Script, i: int, s: State, plan: Plan, gm: real, dt: real, m: Math)
    requires dt != 0.0 && st.firstBurnApplied
    ensures var d := Iterate(st, i, s, plan, gm, dt, m);
      var r := Radius(s, m);
      var fires := !st.secondBurnApplied && BurnCondition(Slide(st.radiiWindow, r), r, i, plan);
      && (d.after.secondBurnApplied && !st.secondBurnApplied <==> fires)
      && (fires ==> d.action == SecondBurn(s, r, gm, dt, m) && d.after.secondBurnTimestep == Some(i)
                    && d.action * dt == m.sqrt(gm / RDestination) - TangentialSpeed(s, r))
      && (!fires ==> d.action == 0.0)
  {
    var r := Radius(s, m);
    DivideThenScale(m.sqrt(gm / RDestination) - TangentialSpeed(s, r), dt);
  }

  /** After the second burn nothing changes any more and the engine only coasts. */
  lemma AfterSecondBurn(st: Script, i: int, s: State, plan: Plan, gm: real, dt: real, m: Math)
    requires dt != 0.0 && st.firstBurnApplied && st.secondBurnApplied
    ensures Iterate(st, i, s, plan, gm, dt, m) == Decision(0.0, st)
  {
  }

  /** The extremum test cannot hold back the burn before the window has 3 radii. */
  lemma ShortWindowVacuous(window: seq<real>, r: real, goingInward: bool)
    requires |window| < 3
    ensures AtExtremum(window, r, goingInward)
  {
  }

  /** The script state after the iterations over the engine states `track`. */
  function Replay(st: Script, track: seq<State>, plan: Plan, gm: real, dt: real, m: Math): Script
    requires dt != 0.0
  {
    if |track| == 0 then st
    else
      var n := |track| - 1;
      Iterate(Replay(st, track[..n], plan, gm, dt, m), n, track[n], plan, gm, dt, m).after
  }

  /** The action of iteration `k` of a run through the engine states `track`. */
  function ActionAt(st: Script, track: seq<State>, k: int, plan: Plan, gm: real, dt: real, m: Math): real
    requires dt != 0.0 && 0 <= k < |track|
  {
    Iterate(Replay(st, track[..k], plan, gm, dt, m), k, track[k], plan, gm, dt, m).action
  }

  /** Each engine state of `states` is one engine step from the one before, with that iteration's action. */
  ghost predicate Traced(st: Script, states: seq<State>, plan: Plan, gm: real, dt: real, m: Math)
    requires dt != 0.0
  {
    forall k :: 0 <= k < |states| - 1 ==>
      states[k + 1] == StepState(states[k], ActionAt(st, states, k, plan, gm, dt, m), gm, dt, m)
  }

  /** A run extended by one more engine step. */
  lemma TracedExtend(st: Script, states: seq<State>, s: State, plan: Plan, gm: real, dt: real, m: Math)
    requires dt != 0.0 && |states| > 0 && Traced(st, states, plan, gm, dt, m)
    requires var n := |states| - 1;
      s == StepState(states[n], Iterate(Replay(st, states[..n], plan, gm, dt, m), n, states[n], plan, gm, dt, m).action,
                     gm, dt, m)
    ensures Traced(st, states + [s], plan, gm, dt, m)
    ensures (states + [s])[..|states|] == states
  {
    var t := states + [s];
    forall k | 0 <= k < |t| - 1
      ensures t[k + 1] == StepState(t[k], ActionAt(st, t, k, plan, gm, dt, m), gm, dt, m)
    {
      ActionAtPrefix(st, states, t, k, plan, gm, dt, m);
      if k < |states| - 1 {
        assert t[k] == states[k] && t[k + 1] == states[k + 1];
      } else {
        assert t[k] == states[k] && t[k + 1] == s && t[..k] == states[..k];
      }
    }
  }

  /** The action of iteration `k` depends only on the states up to `k`. */
  lemma ActionAtPrefix(st: Script, states: seq<State>, t: seq<State>, k: int, plan: Plan, gm: real, dt: real, m: Math)
    requires dt != 0.0 && 0 <= k < |states| <= |t| && t[..|states|] == states
    ensures ActionAt(st, t, k, plan, gm, dt, m) == ActionAt(st, states, k, plan, gm, dt, m)
  {
    assert t[..k] == states[..k];
    assert t[k] == states[k];
  }

  /**
   * Over any run from the initial variables the first burn happens at
   * iteration 0 and only there, the window stays within 20 radii and the
   * second burn, once recorded, keeps its iteration.
   */
  lemma {:induction false} ReplayFacts(plan: Plan, track: seq<State>, gm: real, dt: real, m: Math)
    requires dt != 0.0
    ensures var st := Replay(InitialScript(plan), track, plan, gm, dt, m);
      && Consistent(st)
      && (|track| > 0 ==> st.firstBurnApplied && st.firstBurnTimestep == Some(0))
      && (|track| > 0 ==> ActionAt(InitialScript(plan), track, 0, plan, gm, dt, m) == plan.a1)
      && (st.secondBurnTimestep.Some? ==> 0 < st.secondBurnTimestep.value < |track|)
  {
    InitialConsistent(plan);
    if |track| > 0 {
      var n := |track| - 1;
      var prev := Replay(InitialScript(plan), track[..n], plan, gm, dt, m);
      ReplayFacts(plan, track[..n], gm, dt, m);
      IterateConsistent(prev, n, track[n], plan, gm, dt, m);
      if n == 0 {
        assert track[..0] == [];
      }
      assert track[..0] == [];
    }
  }

  /**
   * The whole script: reset the engine, plan the burns, then `max_steps`
   * iterations, each one engine step with the action `Iterate` chooses.
   * `draw` stands for the radius `reset` draws when the engine has no fixed one.
   */
  method Run(env: OrbitalEnvironment, draw: real) returns (states: seq<State>, final: Script)
    requires Sound(env.math) && env.gm > 0.0 && env.dt != 0.0 && env.initR != 0.0
    requires !env.enforceR ==> 0.2 <= draw < 4.0
    modifies env
    ensures |states| == (if env.maxSteps > 0 then env.maxSteps else 0) + 1
    ensures states[0] == State(if env.enforceR then env.initR else draw, 0.0, 0.0, env.math.sqrt(env.gm / env.initR))
    ensures var r1 := Radius(states[0], env.math);
      && r1 > 0.0
      && var plan := PlanTransfer(r1, TangentialSpeed(states[0], r1), env.gm, env.dt, env.math);
         && final == Replay(InitialScript(plan), states[..|states| - 1], plan, env.gm, env.dt, env.math)
         && Traced(InitialScript(plan), states, plan, env.gm, env.dt, env.math)
    ensures env.Current() == states[|states| - 1]
    ensures env.currentStep == |states| - 1
  {
    var init := env.Reset(draw);
    var r1 := Radius(init, env.math);
    InitialRadius(init, env.math);
    var plan := PlanTransfer(r1, TangentialSpeed(init, r1), env.gm, env.dt, env.math);
    var st := InitialScript(plan);
    states := [init];
    var i := 0;
    while i < env.maxSteps
      invariant 0 <= i && (i <= env.maxSteps || i == 0)
      invariant |states| == i + 1 && states[0] == init && states[i] == env.Current()
      invariant env.currentStep == i
      invariant st == Replay(InitialScript(plan), states[..i], plan, env.gm, env.dt, env.math)
      invariant Traced(InitialScript(plan), states, plan, env.gm, env.dt, env.math)
    {
      var d := Iterate(st, i, env.Current(), plan, env.gm, env.dt, env.math);
      var s, _, _ := env.Step(d.action);
      TracedExtend(InitialScript(plan), states, s, plan, env.gm, env.dt, env.math);
      states := states + [s];
      st := d.after;
      i := i + 1;
    }
    final := st;
  }

  /** The reset state lies on the x axis, at radius `|x|`. */
  lemma InitialRadius(s: State, m: Math)
    requires Sound(m) && s.y == 0.0
    ensures Radius(s, m) == Abs(s.x)
  {
    assert SquaredRadius(s) == Abs(s.x) * Abs(s.x);
    SqrtAt(m, SquaredRadius(s), Abs(s.x));
  }
}
