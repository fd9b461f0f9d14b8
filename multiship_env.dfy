/**
 * The shared engine, class MultiShipOrbitalEnvironment of environment.py:
 * a registry of ship records keyed by id, each advanced by RK4 under central
 * gravity, the pulls of the other live ships and its own thrust.
 *
 * Python's dict keeps insertion order and the step iterates it, so the
 * registry is the record map `ships` together with the id sequence `order`.
 */
module MultiShip {
  import opened RealMath
  import opened Wrappers
  import opened Integrator

  type ShipId = string

  /** Any `control_type` string other than 'ai' and 'manual'. */
  type OtherTag = t: string | t != "ai" && t != "manual" witness "other"

  /** The record's `control_type`: 'ai', 'manual' or any other string. */
  datatype ControlType = Ai | Manual | Unrecognised(tag: OtherTag)

  /** One record of `self.ships`. */
  datatype Ship = Ship(
    x: real, y: real, vx: real, vy: real,
    initR: real,
    done: bool,
    control: ControlType,
    heading: real,
    thrust: real,
    turnRate: real,
    steps: int,
    tangentialThrust: real)

  /**
   * An entry of the `actions` dict: a float for an AI ship, a dict with
   * optional 'turn' and 'thrust' keys for a manual one.
   */
  datatype ShipAction = Tangential(value: real) | Steer(turn: Option<real>, thrust: Option<real>)

  /** One entry of the frozen `positions` dict. */
  datatype Entry = Entry(id: ShipId, x: real, y: real)

  const PullFactor: real := 0.1
  const OverlapDistance: real := 0.001
  const CentralMinRadius: real := 0.00001
  const ThrustMinRadius: real := 0.00001
  const EscapeRadius: real := 5.0
  const CollisionRadius: real := 0.1

  /** The record `add_ship` stores: a circular-speed start at `(r0, 0)`, nothing else set. */
  function NewShip(r0: real, control: ControlType, gm: real, m: Math): (s: Ship)
    requires r0 != 0.0
    ensures s.x == r0 && s.y == 0.0 && s.vx == 0.0 && s.vy == m.sqrt(gm / r0)
    ensures s.initR == r0 && s.control == control && !s.done && s.steps == 0
    ensures s.heading == 0.0 && s.thrust == 0.0 && s.turnRate == 0.0 && s.tangentialThrust == 0.0
  {
    Ship(r0, 0.0, 0.0, m.sqrt(gm / r0), r0, false, control, 0.0, 0.0, 0.0, 0, 0.0)
  }

  /** The `positions` comprehension: the live ships' positions, in registry order. */
  function Snapshot(order: seq<ShipId>, ships: map<ShipId, Ship>): (snap: seq<Entry>)
    ensures |snap| <= |order|
  {
    if |order| == 0 then []
    else
      var rest := Snapshot(order[..|order| - 1], ships);
      var id := order[|order| - 1];
      if id in ships && !ships[id].done then rest + [Entry(id, ships[id].x, ships[id].y)] else rest
  }

  /** An entry is in the snapshot exactly when it is a live registered ship at its position. */
  lemma {:induction false} SnapshotMembers(order: seq<ShipId>, ships: map<ShipId, Ship>, e: Entry)
    ensures e in Snapshot(order, ships) <==>
      e.id in order && e.id in ships && !ships[e.id].done && e.x == ships[e.id].x && e.y == ships[e.id].y
  {
    if |order| > 0 {
      var init := order[..|order| - 1];
      SnapshotMembers(init, ships, e);
      assert order == init + [order[|order| - 1]];
    }
  }

  /** An action fits a control type when the handler for that type can read it. */
  predicate ActionFits(control: ControlType, action: Option<ShipAction>) {
    action.Some? ==>
      (control == Ai ==> action.value.Tangential?) && (control == Manual ==> action.value.Steer?)
  }

  /** `actions.get(ship_id)`. */
  function Lookup(actions: map<ShipId, ShipAction>, id: ShipId): Option<ShipAction> {
    if id in actions then Some(actions[id]) else None
  }

  /** `_apply_ai_control` with `actions.get(ship_id, 0.0)`: the scalar is stored as given. */
  function ApplyAiControl(s: Ship, action: Option<ShipAction>): (r: Ship)
    requires ActionFits(Ai, action)
    ensures action.None? ==> r == s.(tangentialThrust := 0.0)
    ensures action.Some? ==> r == s.(tangentialThrust := action.value.value)
  {
    var value := if action.Some? then action.value.value else 0.0;
    s.(tangentialThrust := value)
  }

  /**
   * `_apply_manual_control` with `actions.get(ship_id, {'turn': 0.0, 'thrust': 0.0})`:
   * missing keys read as 0, the heading integrates the turn rate over `dt`.
   */
  function ApplyManualControl(s: Ship, action: Option<ShipAction>, dt: real): (r: Ship)
    requires ActionFits(Manual, action)
    ensures r.heading == s.heading + r.turnRate * dt
    ensures action.None? ==> r.turnRate == 0.0 && r.thrust == 0.0 && r.heading == s.heading
    ensures action.Some? ==>
              r.turnRate == action.value.turn.GetOr(0.0) && r.thrust == action.value.thrust.GetOr(0.0)
    ensures r.(heading := s.heading, thrust := s.thrust, turnRate := s.turnRate) == s
  {
    var turn := if action.Some? then action.value.turn.GetOr(0.0) else 0.0;
    var thrust := if action.Some? then action.value.thrust.GetOr(0.0) else 0.0;
    s.(turnRate := turn, heading := s.heading + turn * dt, thrust := thrust)
  }

  /** The central part of `_compute_acc`: gravity with the radius floored at 1e-5, not capped. */
  function CentralGravity(gm: real, x: real, y: real, m: Math): Vec {
    InverseSquare(-gm, x, y, Max(m.sqrt(x * x + y * y), CentralMinRadius))
  }

  /** Central gravity is antiparallel to the position (for `gm >= 0`). */
  lemma CentralGravityAntiparallel(gm: real, x: real, y: real, m: Math)
    ensures var a := CentralGravity(gm, x, y, m);
      x * a.y - y * a.x == 0.0 && (gm >= 0.0 ==> x * a.x + y * a.y <= 0.0)
  {
    InverseSquareDirection(-gm, x, y, Max(m.sqrt(x * x + y * y), CentralMinRadius));
  }

  /** Distance from `(x, y)` to an entry. */
  function Separation(x: real, y: real, e: Entry, m: Math): real {
    m.sqrt(SquaredSeparation(x, y, e))
  }

  function SquaredSeparation(x: real, y: real, e: Entry): real {
    (e.x - x) * (e.x - x) + (e.y - y) * (e.y - y)
  }

  /**
   * The pull of one snapshot entry on a ship at `(x, y)`: none from the ship
   * itself or from an entry closer than 1e-3, otherwise one tenth of the
   * central strength, towards the entry.
   */
  function Pull(x: real, y: real, self: ShipId, e: Entry, gm: real, m: Math): Vec {
    if e.id == self then Vec(0.0, 0.0)
    else
      var odist := Separation(x, y, e, m);
      if odist < OverlapDistance then Vec(0.0, 0.0)
      else InverseSquare(gm * PullFactor, e.x - x, e.y - y, odist)
  }

  /**
   * The ship itself and entries closer than 1e-3 exert nothing; any other
   * pull lies on the line to the entry and (for `gm >= 0`) points towards it.
   */
  lemma PullDirection(x: real, y: real, self: ShipId, e: Entry, gm: real, m: Math)
    ensures var a := Pull(x, y, self, e, gm, m);
      && (e.id == self || Separation(x, y, e, m) < OverlapDistance ==> a == Vec(0.0, 0.0))
      && (e.x - x) * a.y - (e.y - y) * a.x == 0.0
      && (gm >= 0.0 ==> (e.x - x) * a.x + (e.y - y) * a.y >= 0.0)
  {
    var odist := Separation(x, y, e, m);
    if e.id != self && odist >= OverlapDistance {
      InverseSquareDirection(gm * PullFactor, e.x - x, e.y - y, odist);
    }
  }

  /** The sum of the pulls of the snapshot entries, accumulated in snapshot order. */
  function Pulls(x: real, y: real, self: ShipId, snap: seq<Entry>, gm: real, m: Math): Vec {
    if |snap| == 0 then Vec(0.0, 0.0)
    else Add(Pulls(x, y, self, snap[..|snap| - 1], gm, m), Pull(x, y, self, snap[|snap| - 1], gm, m))
  }

  /** One more entry of the loop in `_compute_acc`. */
  lemma PullsExtend(x: real, y: real, self: ShipId, snap: seq<Entry>, k: int, gm: real, m: Math)
    requires 0 <= k < |snap|
    ensures Pulls(x, y, self, snap[..k + 1], gm, m)
            == Add(Pulls(x, y, self, snap[..k], gm, m), Pull(x, y, self, snap[k], gm, m))
  {
    assert snap[..k + 1][..k] == snap[..k];
  }

  /** Adding one more pull (possibly none) to a running sum. */
  lemma Accumulate(central: Vec, sum: Vec, pull: Vec, before: Vec, after: Vec)
    requires before == Add(central, sum)
    requires after == Add(before, pull) || (pull == Vec(0.0, 0.0) && after == before)
    ensures after == Add(central, Add(sum, pull))
  {
  }

  /** What `_compute_acc` returns. */
  function Acceleration(x: real, y: real, self: ShipId, snap: seq<Entry>, gm: real, m: Math): Vec {
    Add(CentralGravity(gm, x, y, m), Pulls(x, y, self, snap, gm, m))
  }

  /** An entry that exerts no pull: the ship itself or one closer than 1e-3. */
  predicate Excluded(x: real, y: real, self: ShipId, e: Entry, m: Math) {
    e.id == self || Separation(x, y, e, m) < OverlapDistance
  }

  /** With no qualifying neighbour, `_compute_acc` is central gravity alone. */
  lemma {:induction false} NoNeighboursCentralOnly(x: real, y: real, self: ShipId, snap: seq<Entry>, gm: real, m: Math)
    requires forall k :: 0 <= k < |snap| ==> Excluded(x, y, self, snap[k], m)
    ensures Acceleration(x, y, self, snap, gm, m) == CentralGravity(gm, x, y, m)
  {
    NoPulls(x, y, self, snap, gm, m);
  }

  lemma {:induction false} NoPulls(x: real, y: real, self: ShipId, snap: seq<Entry>, gm: real, m: Math)
    requires forall k :: 0 <= k < |snap| ==> Excluded(x, y, self, snap[k], m)
    ensures Pulls(x, y, self, snap, gm, m) == Vec(0.0, 0.0)
  {
    if |snap| > 0 {
      var init := snap[..|snap| - 1];
      assert forall k :: 0 <= k < |init| ==> init[k] == snap[k];
      NoPulls(x, y, self, init, gm, m);
      assert Excluded(x, y, self, snap[|snap| - 1], m);
    }
  }

  /** A ship exactly 1e-3 away still pulls: the overlap test is strict. */
  lemma PullAtOverlapDistance(x: real, y: real, self: ShipId, e: Entry, gm: real, m: Math)
    requires Sound(m) && e.id != self
    requires SquaredSeparation(x, y, e) == OverlapDistance * OverlapDistance
    ensures Pull(x, y, self, e, gm, m) == InverseSquare(gm * PullFactor, e.x - x, e.y - y, OverlapDistance)
  {
    SqrtAt(m, SquaredSeparation(x, y, e), OverlapDistance);
  }

  /**
   * The thrust acceleration of `_apply_physics`: an AI ship's stored scalar
   * turned into the tangent direction (none at radius 1e-5 or less), a manual
   * ship's thrust along its heading (only when positive), otherwise none.
   */
  function ThrustAcc(s: Ship, m: Math): Vec {
    match s.control
    case Ai =>
      var dist := Radius(s.x, s.y, m);
      if dist > ThrustMinRadius then
        var rx, ry := s.x / dist, s.y / dist;
        Vec(rx * 0.0 + -ry * s.tangentialThrust, ry * 0.0 + rx * s.tangentialThrust)
      else Vec(0.0, 0.0)
    case Manual =>
      if s.thrust > 0.0 then Vec(m.cos(s.heading) * s.thrust, m.sin(s.heading) * s.thrust)
      else Vec(0.0, 0.0)
    case Unrecognised(_) => Vec(0.0, 0.0)
  }

  /**
   * AI thrust is perpendicular to the position and absent at radius 1e-5 or
   * less; manual thrust acts along the heading and only when positive; any
   * other control type has none.
   */
  lemma ThrustAccCases(s: Ship, m: Math)
    ensures var t := ThrustAcc(s, m);
      && (s.control == Ai ==> s.x * t.x + s.y * t.y == 0.0)
      && (s.control == Ai && Radius(s.x, s.y, m) <= ThrustMinRadius ==> t == Vec(0.0, 0.0))
      && (s.control == Manual && s.thrust <= 0.0 ==> t == Vec(0.0, 0.0))
      && (s.control == Manual && s.thrust > 0.0 ==>
            t == Vec(m.cos(s.heading) * s.thrust, m.sin(s.heading) * s.thrust))
      && (s.control.Unrecognised? ==> t == Vec(0.0, 0.0))
  {
    var dist := Radius(s.x, s.y, m);
    if s.control == Ai && dist > ThrustMinRadius {
      Tangent(s.x, s.y, dist, s.tangentialThrust);
    }
  }

  lemma Tangent(x: real, y: real, d: real, t: real)
    requires d > 0.0
    ensures x * ((x / d) * 0.0 + -(y / d) * t) + y * ((y / d) * 0.0 + (x / d) * t) == 0.0
  {
    assert x * (-(y / d) * t) == -((x * y) * (t / d));
    assert y * ((x / d) * t) == (x * y) * (t / d);
  }

  /** The field a ship integrates: `_compute_acc` plus the constant thrust. */
  function Field(s: Ship, self: ShipId, snap: seq<Entry>, gm: real, m: Math): (real, real) -> Vec {
    (px: real, py: real) => Add(Acceleration(px, py, self, snap, gm, m), ThrustAcc(s, m))
  }

  /** What `_apply_physics` writes back: one RK4 step of the ship's state in its field. */
  function Physics(s: Ship, self: ShipId, snap: seq<Entry>, gm: real, dt: real, m: Math): State {
    Rk4(State(s.x, s.y, s.vx, s.vy), dt, Field(s, self, snap, gm, m))
  }

  /** `np.sqrt(x**2 + y**2)`. */
  function Radius(x: real, y: real, m: Math): real {
    m.sqrt(x * x + y * y)
  }

  /** The strict band test of `step`: beyond 5.0 or inside 0.1. */
  predicate LeftBand(x: real, y: real, m: Math) {
    var dist := Radius(x, y, m);
    dist > EscapeRadius || dist < CollisionRadius
  }

  /** A ship exactly on either edge of the band is still live. */
  lemma EdgesStayInBand(x: real, y: real, m: Math)
    requires Sound(m)
    requires x * x + y * y == EscapeRadius * EscapeRadius || x * x + y * y == CollisionRadius * CollisionRadius
    ensures !LeftBand(x, y, m)
  {
    SqrtOfSquare(m, EscapeRadius);
    SqrtOfSquare(m, CollisionRadius);
  }

  /** The first half of a loop iteration in `step`: count the step, then read the action. */
  function Controlled(s: Ship, action: Option<ShipAction>, dt: real): (r: Ship)
    requires ActionFits(s.control, action)
    ensures r.steps == s.steps + 1 && r.control == s.control && r.done == s.done
    ensures r.x == s.x && r.y == s.y && r.vx == s.vx && r.vy == s.vy && r.initR == s.initR
  {
    var counted := s.(steps := s.steps + 1);
    match s.control
    case Ai => ApplyAiControl(counted, action)
    case Manual => ApplyManualControl(counted, action, dt)
    case Unrecognised(_) => counted
  }

  /** One iteration of the loop in `step` for a single record. */
  function StepShip(s: Ship, self: ShipId, action: Option<ShipAction>, snap: seq<Entry>,
                    gm: real, dt: real, m: Math): (r: Ship)
    requires !s.done ==> ActionFits(s.control, action)
    ensures s.done ==> r == s
    ensures !s.done ==> r.steps == s.steps + 1
    ensures !s.done ==> (r.done <==> LeftBand(r.x, r.y, m))
    ensures s.done ==> r.done
    ensures r.control == s.control && r.initR == s.initR
  {
    if s.done then s
    else
      var c := Controlled(s, action, dt);
      var p := Physics(c, self, snap, gm, dt, m);
      c.(x := p.x, y := p.y, vx := p.vx, vy := p.vy, done := LeftBand(p.x, p.y, m))
  }

  /** Every live ship's action can be read by its handler. */
  predicate ActionsFit(ships: map<ShipId, Ship>, actions: map<ShipId, ShipAction>) {
    forall id :: id in ships && !ships[id].done ==> ActionFits(ships[id].control, Lookup(actions, id))
  }

  /** The registry after `step`: every record advanced against the same frozen snapshot. */
  function StepAll(ships: map<ShipId, Ship>, order: seq<ShipId>, actions: map<ShipId, ShipAction>,
                   gm: real, dt: real, m: Math): (r: map<ShipId, Ship>)
    requires ActionsFit(ships, actions)
    ensures r.Keys == ships.Keys
  {
    var snap := Snapshot(order, ships);
    map id | id in ships :: StepShip(ships[id], id, Lookup(actions, id), snap, gm, dt, m)
  }

  /**
   * `step` as the registry sees it: ships already done are untouched, `done`
   * never goes back to false, and every live ship counts one more step and is
   * done afterwards exactly when it has left the band.
   */
  lemma StepAllRecords(ships: map<ShipId, Ship>, order: seq<ShipId>, actions: map<ShipId, ShipAction>,
                       gm: real, dt: real, m: Math, id: ShipId)
    requires ActionsFit(ships, actions) && id in ships
    ensures var r := StepAll(ships, order, actions, gm, dt, m);
      && (ships[id].done ==> r[id] == ships[id])
      && (ships[id].done ==> r[id].done)
      && (!ships[id].done ==> r[id].steps == ships[id].steps + 1)
      && (!ships[id].done ==> (r[id].done <==> LeftBand(r[id].x, r[id].y, m)))
  {
    var snap := Snapshot(order, ships);
    var s := StepShip(ships[id], id, Lookup(actions, id), snap, gm, dt, m);
    assert StepAll(ships, order, actions, gm, dt, m)[id] == s;
  }

  /**
   * The loop of `step`: the records of `ids` replaced one after another in
   * the dict, each by its advance against the frozen snapshot `snap`. An id
   * the dict does not hold is passed over (the registry order holds none).
   */
  function StepAlong(ships: map<ShipId, Ship>, ids: seq<ShipId>, snap: seq<Entry>,
                     actions: map<ShipId, ShipAction>, gm: real, dt: real, m: Math): (r: map<ShipId, Ship>)
    requires ActionsFit(ships, actions)
    ensures r.Keys == ships.Keys
    ensures forall k :: k in ships && k !in ids ==> r[k] == ships[k]
  {
    if |ids| == 0 then ships
    else
      var prev := StepAlong(ships, ids[..|ids| - 1], snap, actions, gm, dt, m);
      var id := ids[|ids| - 1];
      if id in ships then prev[id := StepShip(ships[id], id, Lookup(actions, id), snap, gm, dt, m)]
      else prev
  }

  /** Every listed record ends up advanced exactly once, from its value before the loop. */
  lemma {:induction false} StepAlongAt(ships: map<ShipId, Ship>, ids: seq<ShipId>, snap: seq<Entry>,
                                       actions: map<ShipId, ShipAction>, gm: real, dt: real, m: Math, k: ShipId)
    requires ActionsFit(ships, actions) && k in ids && k in ships
    ensures StepAlong(ships, ids, snap, actions, gm, dt, m)[k]
            == StepShip(ships[k], k, Lookup(actions, k), snap, gm, dt, m)
  {
    var init, id := ids[..|ids| - 1], ids[|ids| - 1];
    if k != id {
      assert ids == init + [id];
      assert k in init;
      StepAlongAt(ships, init, snap, actions, gm, dt, m, k);
    }
  }

  /**
   * Walking the registry in order gives the same records as advancing every
   * record at once against the snapshot: the order of the loop is irrelevant.
   */
  lemma StepAlongIsStepAll(ships: map<ShipId, Ship>, order: seq<ShipId>, actions: map<ShipId, ShipAction>,
                           gm: real, dt: real, m: Math)
    requires Registry(order, ships) && ActionsFit(ships, actions)
    ensures StepAlong(ships, order, Snapshot(order, ships), actions, gm, dt, m)
            == StepAll(ships, order, actions, gm, dt, m)
  {
    var r := StepAlong(ships, order, Snapshot(order, ships), actions, gm, dt, m);
    var t := StepAll(ships, order, actions, gm, dt, m);
    forall k | k in ships ensures r[k] == t[k] {
      AgreeAt(ships, order, actions, gm, dt, m, k);
    }
  }

  lemma AgreeAt(ships: map<ShipId, Ship>, order: seq<ShipId>, actions: map<ShipId, ShipAction>,
                gm: real, dt: real, m: Math, k: ShipId)
    requires ActionsFit(ships, actions) && k in order && k in ships
    ensures StepAlong(ships, order, Snapshot(order, ships), actions, gm, dt, m)[k]
            == StepAll(ships, order, actions, gm, dt, m)[k]
  {
    StepAlongAt(ships, order, Snapshot(order, ships), actions, gm, dt, m, k);
  }

  /** One more iteration of the loop over a prefix of `order`. */
  lemma StepAlongExtend(ships: map<ShipId, Ship>, order: seq<ShipId>, i: int, snap: seq<Entry>,
                        actions: map<ShipId, ShipAction>, gm: real, dt: real, m: Math)
    requires ActionsFit(ships, actions) && 0 <= i < |order| && order[i] in ships
    ensures StepAlong(ships, order[..i + 1], snap, actions, gm, dt, m)
            == StepAlong(ships, order[..i], snap, actions, gm, dt, m)[order[i] :=
                 StepShip(ships[order[i]], order[i], Lookup(actions, order[i]), snap, gm, dt, m)]
  {
    assert order[..i + 1][..i] == order[..i];
  }

  /** In a distinct order, the id at `i` has not come up before `i`. */
  lemma NotYetVisited(order: seq<ShipId>, i: int)
    requires Distinct(order) && 0 <= i < |order|
    ensures order[i] !in order[..i]
  {
    forall j | 0 <= j < i ensures order[..i][j] != order[i] {
      assert order[..i][j] == order[j];
    }
  }

  /** The copy `get_states` returns, in registry order. */
  function States(order: seq<ShipId>, ships: map<ShipId, Ship>): (r: seq<(ShipId, Ship)>)
    requires forall id :: id in order ==> id in ships
    ensures |r| == |order|
    ensures forall i :: 0 <= i < |r| ==> r[i].0 == order[i] && r[i].1 == ships[order[i]]
  {
    if |order| == 0 then []
    else States(order[..|order| - 1], ships) + [(order[|order| - 1], ships[order[|order| - 1]])]
  }

  /** `order` lists the keys of `ships` once each, as a dict's iteration order does. */
  ghost predicate Registry(order: seq<ShipId>, ships: map<ShipId, Ship>) {
    && Distinct(order)
    && (forall id :: id in ships <==> id in order)
  }

  predicate Distinct(order: seq<ShipId>) {
    forall i, j :: 0 <= i < j < |order| ==> order[i] != order[j]
  }

  /** The iteration order after `del ships[id]`. */
  function Without(order: seq<ShipId>, id: ShipId): (r: seq<ShipId>)
    ensures forall k :: k in r <==> k in order && k != id
    ensures |r| <= |order|
  {
    if |order| == 0 then []
    else if order[|order| - 1] == id then Without(order[..|order| - 1], id)
    else Without(order[..|order| - 1], id) + [order[|order| - 1]]
  }

  /** Removing an id keeps the others distinct. */
  lemma {:induction false} WithoutDistinct(order: seq<ShipId>, id: ShipId)
    requires Distinct(order)
    ensures Distinct(Without(order, id))
  {
    if |order| > 0 {
      var init := order[..|order| - 1];
      assert forall i, j :: 0 <= i < j < |init| ==> init[i] != init[j] by {
        forall i, j | 0 <= i < j < |init| ensures init[i] != init[j] {
          assert init[i] == order[i] && init[j] == order[j];
        }
      }
      WithoutDistinct(init, id);
      var last := order[|order| - 1];
      assert last !in init by {
        forall k | 0 <= k < |init| ensures init[k] != last {
          assert init[k] == order[k];
        }
      }
      assert last !in Without(init, id);
    }
  }

  /** Removing an absent id changes nothing. */
  lemma {:induction false} WithoutAbsent(order: seq<ShipId>, id: ShipId)
    requires id !in order
    ensures Without(order, id) == order
  {
    if |order| > 0 {
      var init := order[..|order| - 1];
      assert id !in init by {
        forall k | 0 <= k < |init| ensures init[k] != id {
          assert init[k] == order[k];
        }
      }
      WithoutAbsent(init, id);
      assert order == init + [order[|order| - 1]];
    }
  }

  class MultiShipOrbitalEnvironment {
    const gm: real
    const dt: real
    /** Stored by the constructor; `step` never reads it. */
    const maxSteps: Option<int>
    const math: Math

    var ships: map<ShipId, Ship>
    var order: seq<ShipId>
    var currentStep: int

    ghost predicate Valid()
      reads this
    {
      Registry(order, ships)
    }

    constructor (gm: real, dt: real, maxSteps: Option<int>, math: Math)
      ensures this.gm == gm && this.dt == dt && this.maxSteps == maxSteps && this.math == math
      ensures ships == map[] && order == [] && currentStep == 0
      ensures Valid()
    {
      this.gm := gm;
      this.dt := dt;
      this.maxSteps := maxSteps;
      this.math := math;
      ships := map[];
      order := [];
      currentStep := 0;
    }

    /**
     * `add_ship`: `r0 == None` draws the radius, `draw` stands for that draw.
     * A record already under `id` is replaced and keeps its place in the order.
     */
    method AddShip(id: ShipId, r0: Option<real>, control: ControlType, draw: real)
      requires Valid()
      requires r0.Some? ==> r0.value != 0.0
      requires r0.None? ==> 0.2 <= draw < 4.0
      modifies this
      ensures Valid()
      ensures ships == old(ships)[id := NewShip(if r0.Some? then r0.value else draw, control, gm, math)]
      ensures order == if id in old(order) then old(order) else old(order) + [id]
      ensures currentStep == old(currentStep)
    {
      var radius := if r0.Some? then r0.value else draw;
      ships := ships[id := NewShip(radius, control, gm, math)];
      if id !in order {
        order := order + [id];
      }
    }

    /** `remove_ship`: deletes only that key; an absent id is a no-op. */
    method RemoveShip(id: ShipId)
      requires Valid()
      modifies this
      ensures Valid()
      ensures ships == old(ships) - {id}
      ensures order == Without(old(order), id)
      ensures id !in old(ships) ==> ships == old(ships) && order == old(order)
      ensures currentStep == old(currentStep)
    {
      if id in ships {
        ships := ships - {id};
        WithoutDistinct(order, id);
        order := Without(order, id);
      } else {
        WithoutAbsent(order, id);
      }
    }

    /** `reset`: empties the registry and restarts the step count. */
    method Reset()
      modifies this
      ensures Valid()
      ensures ships == map[] && order == [] && currentStep == 0
    {
      ships := map[];
      order := [];
      currentStep := 0;
    }

    /** `_compute_acc`: central gravity, then the pulls accumulated entry by entry. */
    method ComputeAcc(px: real, py: real, self: ShipId, positions: seq<Entry>) returns (acc: Vec)
      ensures acc == Acceleration(px, py, self, positions, gm, math)
    {
      var central := CentralGravity(gm, px, py, math);
      acc := central;
      var k := 0;
      while k < |positions|
        invariant 0 <= k <= |positions|
        invariant acc == Add(central, Pulls(px, py, self, positions[..k], gm, math))
      {
        var e := positions[k];
        ghost var before := acc;
        if e.id != self {
          var odist := Separation(px, py, e, math);
          if odist >= OverlapDistance {
            acc := Add(acc, InverseSquare(gm * PullFactor, e.x - px, e.y - py, odist));
          }
        }
        PullsExtend(px, py, self, positions, k, gm, math);
        Accumulate(central, Pulls(px, py, self, positions[..k], gm, math),
                   Pull(px, py, self, e, gm, math), before, acc);
        k := k + 1;
      }
      assert positions[..k] == positions;
    }

    /** `_apply_physics`: four stages, each calling `_compute_acc` and adding the thrust. */
    method ApplyPhysics(s: Ship, positions: seq<Entry>, self: ShipId) returns (r: State)
      ensures r == Physics(s, self, positions, gm, dt, math)
    {
      var thrust := ThrustAcc(s, math);
      var start := State(s.x, s.y, s.vx, s.vy);
      var g1 := ComputeAcc(s.x, s.y, self, positions);
      var a1 := Add(g1, thrust);
      var p2 := Mid1(start, dt);
      var g2 := ComputeAcc(p2.x, p2.y, self, positions);
      var a2 := Add(g2, thrust);
      var p3 := Mid2(start, dt, a1);
      var g3 := ComputeAcc(p3.x, p3.y, self, positions);
      var a3 := Add(g3, thrust);
      var p4 := End(start, dt, a2);
      var g4 := ComputeAcc(p4.x, p4.y, self, positions);
      var a4 := Add(g4, thrust);
      r := Combine(start, dt, a1, a2, a3, a4);
    }

    /** The body of the loop in `step` for a live record. */
    method AdvanceShip(id: ShipId, ship: Ship, action: Option<ShipAction>, positions: seq<Entry>)
      returns (r: Ship)
      requires !ship.done && ActionFits(ship.control, action)
      ensures r == StepShip(ship, id, action, positions, gm, dt, math)
    {
      r := ship.(steps := ship.steps + 1);
      match r.control {
        case Ai => r := ApplyAiControl(r, action);
        case Manual => r := ApplyManualControl(r, action, dt);
        case Unrecognised(_) =>
      }
      ghost var c := Controlled(ship, action, dt);
      assert r == c;
      var p := ApplyPhysics(r, positions, id);
      r := r.(x := p.x, y := p.y, vx := p.vx, vy := p.vy);
      var dist := Radius(r.x, r.y, math);
      if dist > EscapeRadius || dist < CollisionRadius {
        r := r.(done := true);
      }
    }

    /**
     * `step(actions)`: freezes the live positions, walks the registry in
     * order advancing each live record against that snapshot, then counts
     * the step.
     */
    method Step(actions: map<ShipId, ShipAction>)
      requires Valid() && ActionsFit(ships, actions)
      modifies this
      ensures Valid()
      ensures ships == StepAlong(old(ships), old(order), Snapshot(old(order), old(ships)), actions, gm, dt, math)
      ensures order == old(order)
      ensures currentStep == old(currentStep) + 1
    {
      var positions := Snapshot(order, ships);
      var next := AdvanceAll(positions, actions);
      ships := next;
      currentStep := currentStep + 1;
    }

    /** The loop of `step`: each live record in registry order, the others skipped. */
    method AdvanceAll(positions: seq<Entry>, actions: map<ShipId, ShipAction>) returns (next: map<ShipId, Ship>)
      requires Valid() && ActionsFit(ships, actions)
      ensures next == StepAlong(ships, order, positions, actions, gm, dt, math)
    {
      next := ships;
      var i := 0;
      while i < |order|
        invariant 0 <= i <= |order|
        invariant next == StepAlong(ships, order[..i], positions, actions, gm, dt, math)
      {
        var id := order[i];
        assert id in ships;
        NotYetVisited(order, i);
        StepAlongExtend(ships, order, i, positions, actions, gm, dt, math);
        var ship := next[id];
        if !ship.done {
          ship := AdvanceShip(id, ship, Lookup(actions, id), positions);
        }
        next := next[id := ship];
        i := i + 1;
      }
      assert order[..i] == order;
    }

    /** `get_states`. */
    function GetStates(): (r: seq<(ShipId, Ship)>)
      requires Valid()
      reads this
      ensures |r| == |order|
      ensures forall i :: 0 <= i < |r| ==> r[i] == (order[i], ships[order[i]])
    {
      States(order, ships)
    }
  }
}
