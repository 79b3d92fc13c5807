/** Newton's third law for the pairwise force and its consequence: in exact
    arithmetic one step leaves the total momentum of the system unchanged.

    Both need one property of the uninterpreted normalisation: that it is
    odd on non-zero vectors, normalize(-v) == -normalize(v) for v != 0.
    Normalising by a reciprocal length has it, since negation changes
    neither the length nor the magnitude. At the zero vector the engine's
    normalisation yields NaN, so both also need the bodies to be apart.
 */
module Conservation {
  import opened Vectors
  import opened Physics

  /** Normalisation is odd on non-zero vectors. At the zero vector the
      engine's normalisation yields NaN, so nothing is assumed there. */
  ghost predicate OddNormalize(nm: Numerics)
  {
    forall v :: v != Zero ==> nm.normalize(Neg(v)) == Neg(nm.normalize(v))
  }

  /** No two bodies share a position, so every pairwise direction is
      between distinct points. */
  predicate Distinct(bodies: seq<Body>)
  {
    forall i, j :: 0 <= i < j < |bodies| ==> bodies[i].position != bodies[j].position
  }

  /** Equal and opposite: the pull of `b` on `a` is minus the pull of `a` on `b`. */
  lemma PullAntisymmetric(nm: Numerics, g: real, a: Body, b: Body)
    requires OddNormalize(nm)
    requires a.position != b.position
    ensures Pull(nm, g, a, b) == Neg(Pull(nm, g, b, a))
  {
    var d := Sub(b.position, a.position);
    SubSwap(a.position, b.position);
    assert nm.normalize(Sub(a.position, b.position)) == Neg(nm.normalize(d));
    assert g * a.mass * b.mass == g * b.mass * a.mass;
  }

  /** Sum of the net forces on bodies 0 .. k-1, each counting only the pulls
      of bodies 0 .. m-1. */
  function SumNetForces(nm: Numerics, g: real, bodies: seq<Body>, k: nat, m: nat): Vec3
    requires k <= |bodies| && m <= |bodies|
  {
    if k == 0 then Zero
    else Add(SumNetForces(nm, g, bodies, k - 1, m), NetForceUpTo(nm, g, bodies, k - 1, m))
  }

  /** Sum of the pulls that body `c` exerts on bodies 0 .. k-1 other than itself. */
  function Reactions(nm: Numerics, g: real, bodies: seq<Body>, k: nat, c: nat): Vec3
    requires k <= |bodies| && c < |bodies|
  {
    if k == 0 then Zero
    else
      var acc := Reactions(nm, g, bodies, k - 1, c);
      if k - 1 == c then acc else Add(acc, Pull(nm, g, bodies[k - 1], bodies[c]))
  }

  /** Admitting body `m` as a source adds, to the total, its pulls on the
      first `k` bodies. */
  lemma {:induction false} SumNetForcesExtend(nm: Numerics, g: real, bodies: seq<Body>, k: nat, m: nat)
    requires k <= |bodies| && m < |bodies|
    ensures SumNetForces(nm, g, bodies, k, m + 1)
            == Add(SumNetForces(nm, g, bodies, k, m), Reactions(nm, g, bodies, k, m))
  {
    if k > 0 {
      SumNetForcesExtend(nm, g, bodies, k - 1, m);
    }
  }

  /** The pulls of body `c` on bodies below `m` cancel the pulls those bodies
      exert on `c`. */
  lemma {:induction false} ReactionsCancel(nm: Numerics, g: real, bodies: seq<Body>, m: nat, c: nat)
    requires OddNormalize(nm) && Distinct(bodies)
    requires m <= c < |bodies|
    ensures Add(Reactions(nm, g, bodies, m, c), NetForceUpTo(nm, g, bodies, c, m)) == Zero
  {
    if m > 0 {
      var j := m - 1;
      ReactionsCancel(nm, g, bodies, j, c);
      var p := Pull(nm, g, bodies[j], bodies[c]);
      var q := Pull(nm, g, bodies[c], bodies[j]);
      PullAntisymmetric(nm, g, bodies[c], bodies[j]);
      var rs := Reactions(nm, g, bodies, j, c);
      var ns := NetForceUpTo(nm, g, bodies, c, j);
      assert Reactions(nm, g, bodies, m, c) == Add(rs, p);
      assert NetForceUpTo(nm, g, bodies, c, m) == Add(ns, q);
      AddInterchange(rs, p, ns, q);
      AddNeg(p);
      AddZero(Zero);
    }
  }

  /** Internal forces cancel: the net forces on the first `k` bodies, counting
      pulls among those `k` only, sum to zero. */
  lemma {:induction false} InternalForcesCancel(nm: Numerics, g: real, bodies: seq<Body>, k: nat)
    requires OddNormalize(nm) && Distinct(bodies)
    requires k <= |bodies|
    ensures SumNetForces(nm, g, bodies, k, k) == Zero
  {
    if k > 0 {
      var j := k - 1;
      InternalForcesCancel(nm, g, bodies, j);
      SumNetForcesExtend(nm, g, bodies, k, j);
      ReactionsCancel(nm, g, bodies, j, j);
      var net := NetForceUpTo(nm, g, bodies, j, j);
      var rs := Reactions(nm, g, bodies, j, j);
      assert Reactions(nm, g, bodies, k, j) == rs;
      assert SumNetForces(nm, g, bodies, k, j) == Add(Zero, net);
      AddZero(net);
      AddZero(rs);
      assert Add(rs, net) == Add(net, rs);
    }
  }

  /** Momentum sum m_i * v_i over the first `k` bodies. */
  function MomentumUpTo(bodies: seq<Body>, k: nat): Vec3
    requires k <= |bodies|
  {
    if k == 0 then Zero
    else Add(MomentumUpTo(bodies, k - 1), Scale(bodies[k - 1].velocity, bodies[k - 1].mass))
  }

  function Momentum(bodies: seq<Body>): Vec3
  {
    MomentumUpTo(bodies, |bodies|)
  }

  lemma ImpulseComponent(v: real, f: real, m: real, dt: real)
    requires m != 0.0
    ensures (v + (f / m) * dt) * m == v * m + f * dt
  {
    calc {
      (v + (f / m) * dt) * m;
      v * m + ((f / m) * m) * dt;
      { assert (f / m) * m == f; }
      v * m + f * dt;
    }
  }

  /** One body's momentum after integration grows by exactly force * dt. */
  lemma IntegrateImpulse(b: Body, f: Vec3, dt: real)
    requires b.mass != 0.0
    ensures Scale(Integrate(b, f, dt).velocity, b.mass) == Add(Scale(b.velocity, b.mass), Scale(f, dt))
  {
    var m := b.mass;
    var u := b.velocity;
    var v := Add(u, Scale(Div(f, m), dt));
    assert Integrate(b, f, dt).velocity == v;
    ImpulseComponent(u.x, f.x, m, dt);
    ImpulseComponent(u.y, f.y, m, dt);
    ImpulseComponent(u.z, f.z, m, dt);
    assert v == Vec3(u.x + (f.x / m) * dt, u.y + (f.y / m) * dt, u.z + (f.z / m) * dt);
    assert Scale(v, m) == Vec3(u.x * m + f.x * dt, u.y * m + f.y * dt, u.z * m + f.z * dt);
  }

  /** Over the first `k` bodies, a step adds dt times the sum of their forces
      to the momentum. */
  lemma {:induction false} StepMomentumUpTo(nm: Numerics, s: Sim, k: nat)
    requires Steppable(s) && k <= |s.bodies|
    ensures MomentumUpTo(Step(nm, s).bodies, k)
            == Add(MomentumUpTo(s.bodies, k),
                   Scale(SumNetForces(nm, s.g, s.bodies, k, |s.bodies|), s.dt))
  {
    if k > 0 {
      var j := k - 1;
      StepMomentumUpTo(nm, s, j);
      var r := Step(nm, s);
      var f := r.forces[j];
      assert f == NetForceUpTo(nm, s.g, s.bodies, j, |s.bodies|);
      assert r.bodies[j] == Integrate(s.bodies[j], f, s.dt);
      IntegrateImpulse(s.bodies[j], f, s.dt);
      var mom := MomentumUpTo(s.bodies, j);
      var sum := SumNetForces(nm, s.g, s.bodies, j, |s.bodies|);
      var own := Scale(s.bodies[j].velocity, s.bodies[j].mass);
      ScaleAdd(sum, f, s.dt);
      AddInterchange(mom, Scale(sum, s.dt), own, Scale(f, s.dt));
    }
  }

  /** Conservation of momentum: with an odd normalisation and no two bodies
      at the same place, one step leaves the sum of m_i * v_i unchanged. */
  lemma StepConservesMomentum(nm: Numerics, s: Sim)
    requires OddNormalize(nm) && Distinct(s.bodies) && Steppable(s)
    ensures Momentum(Step(nm, s).bodies) == Momentum(s.bodies)
  {
    var r := Step(nm, s);
    var n := |s.bodies|;
    StepMomentumUpTo(nm, s, n);
    InternalForcesCancel(nm, s.g, s.bodies, n);
    var before := MomentumUpTo(s.bodies, n);
    assert Scale(Zero, s.dt) == Zero;
    AddZero(before);
    assert Momentum(r.bodies) == MomentumUpTo(r.bodies, n);
  }

  /** The bodies of a new simulation are always apart: their heights are
      strictly increasing with the index. Momentum conservation therefore
      applies to the first step of every new simulation. */
  lemma NewBodiesDistinct(nm: Numerics, n: nat)
    ensures Distinct(New(nm, n).bodies)
  {
    var bs := New(nm, n).bodies;
    forall i, j | 0 <= i < j < n
      ensures bs[i].position != bs[j].position
    {
      assert bs[i].mass * n as real == (n + i) as real;
      assert bs[j].mass * n as real == (n + j) as real;
      assert bs[i].mass < bs[j].mass;
      assert bs[i].position.z < bs[j].position.z;
    }
  }

  /** With two bodies, each one's force is the other's pull alone. */
  lemma TwoBodyForces(nm: Numerics, s: Sim)
    requires Steppable(s) && |s.bodies| == 2
    ensures Step(nm, s).forces[0] == Pull(nm, s.g, s.bodies[0], s.bodies[1])
    ensures Step(nm, s).forces[1] == Pull(nm, s.g, s.bodies[1], s.bodies[0])
  {
    var p := Pull(nm, s.g, s.bodies[0], s.bodies[1]);
    var q := Pull(nm, s.g, s.bodies[1], s.bodies[0]);
    assert NetForceUpTo(nm, s.g, s.bodies, 0, 1) == Zero;
    assert NetForceUpTo(nm, s.g, s.bodies, 0, 2) == Add(Zero, p);
    assert NetForceUpTo(nm, s.g, s.bodies, 1, 1) == Add(Zero, q);
    assert NetForceUpTo(nm, s.g, s.bodies, 1, 2) == Add(Zero, q);
    AddZero(p);
    AddZero(q);
  }

  /** A body at rest is displaced by (F/m)*dt^2 in one step. */
  lemma RestDisplacement(b: Body, f: Vec3, dt: real)
    requires b.mass != 0.0 && b.velocity == Zero
    ensures Sub(Integrate(b, f, dt).position, b.position)
            == Vec3(((f.x / b.mass) * dt) * dt, ((f.y / b.mass) * dt) * dt, ((f.z / b.mass) * dt) * dt)
  {
  }

  lemma NegDisplacement(f: real, m: real, dt: real)
    requires m != 0.0
    ensures (((-f) / m) * dt) * dt == -(((f / m) * dt) * dt)
  {
    assert (-f) / m == -(f / m);
  }

  /** Equal masses at rest pushed by opposite forces move oppositely. */
  lemma OppositeImpulses(b0: Body, b1: Body, f: Vec3, dt: real)
    requires b0.mass == b1.mass && b0.mass != 0.0
    requires b0.velocity == Zero && b1.velocity == Zero
    ensures Sub(Integrate(b0, f, dt).position, b0.position)
            == Neg(Sub(Integrate(b1, Neg(f), dt).position, b1.position))
  {
    RestDisplacement(b0, f, dt);
    RestDisplacement(b1, Neg(f), dt);
    NegDisplacement(f.x, b0.mass, dt);
    NegDisplacement(f.y, b0.mass, dt);
    NegDisplacement(f.z, b0.mass, dt);
  }

  /** Two bodies of equal mass starting at rest move by equal and opposite
      displacements in one step, wherever they are placed, as long as
      they are apart. */
  lemma TwoEqualBodiesMoveOppositely(nm: Numerics, s: Sim)
    requires OddNormalize(nm) && Distinct(s.bodies) && Steppable(s)
    requires |s.bodies| == 2 && s.bodies[0].mass == s.bodies[1].mass
    requires s.bodies[0].velocity == Zero && s.bodies[1].velocity == Zero
    ensures var r := Step(nm, s);
            Sub(r.bodies[0].position, s.bodies[0].position)
            == Neg(Sub(r.bodies[1].position, s.bodies[1].position))
  {
    var r := Step(nm, s);
    TwoBodyForces(nm, s);
    PullAntisymmetric(nm, s.g, s.bodies[1], s.bodies[0]);
    var f := r.forces[0];
    assert r.forces[1] == Neg(f);
    assert r.bodies[0] == Integrate(s.bodies[0], f, s.dt);
    assert r.bodies[1] == Integrate(s.bodies[1], Neg(f), s.dt);
    OppositeImpulses(s.bodies[0], s.bodies[1], f, s.dt);
  }

  /** A concrete two-body configuration: unit masses at rest at (-1, 0, 0) and
      (1, 0, 0), g = 1, dt = 0.016. */
  predicate IsTwoBodyScenario(s: Sim)
  {
    && |s.bodies| == 2 && |s.forces| == 2
    && s.bodies[0] == Body(Vec3(-1.0, 0.0, 0.0), Zero, 1.0)
    && s.bodies[1] == Body(Vec3(1.0, 0.0, 0.0), Zero, 1.0)
    && s.g == G && s.dt == Dt
  }

  /** The pull of the right body on the left one in the two-body scenario, with
      the normalisation returning the exact unit vector along x. */
  lemma ScenarioPullRight(nm: Numerics)
    requires nm.normalize(Vec3(2.0, 0.0, 0.0)) == Vec3(1.0, 0.0, 0.0)
    ensures Pull(nm, G, Body(Vec3(-1.0, 0.0, 0.0), Zero, 1.0), Body(Vec3(1.0, 0.0, 0.0), Zero, 1.0))
            == Vec3(1.0 / 4.000001, 0.0, 0.0)
  {
    var a := Body(Vec3(-1.0, 0.0, 0.0), Zero, 1.0);
    var b := Body(Vec3(1.0, 0.0, 0.0), Zero, 1.0);
    var d := Sub(b.position, a.position);
    assert d == Vec3(2.0, 0.0, 0.0);
    assert LengthSquared(d) == 4.0;
    assert SoftenedDistSq(d) == 4.000001;
    var k := G * a.mass * b.mass / SoftenedDistSq(d);
    assert k == 1.0 / 4.000001;
    assert Pull(nm, G, a, b) == Scale(nm.normalize(d), k);
  }

  /** The pull of the left body on the right one in the two-body scenario. */
  lemma ScenarioPullLeft(nm: Numerics)
    requires nm.normalize(Vec3(-2.0, 0.0, 0.0)) == Vec3(-1.0, 0.0, 0.0)
    ensures Pull(nm, G, Body(Vec3(1.0, 0.0, 0.0), Zero, 1.0), Body(Vec3(-1.0, 0.0, 0.0), Zero, 1.0))
            == Vec3(-1.0 / 4.000001, 0.0, 0.0)
  {
    var a := Body(Vec3(1.0, 0.0, 0.0), Zero, 1.0);
    var b := Body(Vec3(-1.0, 0.0, 0.0), Zero, 1.0);
    var d := Sub(b.position, a.position);
    assert d == Vec3(-2.0, 0.0, 0.0);
    assert LengthSquared(d) == 4.0;
    assert SoftenedDistSq(d) == 4.000001;
    var k := G * a.mass * b.mass / SoftenedDistSq(d);
    assert k == 1.0 / 4.000001;
    assert Pull(nm, G, a, b) == Scale(nm.normalize(d), k);
  }

  lemma StepBody(nm: Numerics, s: Sim, i: nat)
    requires Steppable(s) && i < |s.bodies|
    ensures Step(nm, s).bodies[i] == Integrate(s.bodies[i], Step(nm, s).forces[i], s.dt)
  {
  }

  /** A body at rest moves by (F/m) dt^2. */
  lemma RestStep(b: Body, f: Vec3, dt: real)
    requires b.mass != 0.0 && b.velocity == Zero
    ensures Integrate(b, f, dt).position == Add(b.position, Scale(Scale(Div(f, b.mass), dt), dt))
  {
  }

  /** Two bodies at rest: each is displaced by the other's pull over its
      mass, times dt^2. */
  lemma TwoBodiesAtRest(nm: Numerics, s: Sim)
    requires Steppable(s) && |s.bodies| == 2
    requires s.bodies[0].velocity == Zero && s.bodies[1].velocity == Zero
    ensures Step(nm, s).bodies[0].position
            == Add(s.bodies[0].position,
                   Scale(Scale(Div(Pull(nm, s.g, s.bodies[0], s.bodies[1]), s.bodies[0].mass), s.dt), s.dt))
    ensures Step(nm, s).bodies[1].position
            == Add(s.bodies[1].position,
                   Scale(Scale(Div(Pull(nm, s.g, s.bodies[1], s.bodies[0]), s.bodies[1].mass), s.dt), s.dt))
  {
    TwoBodyForces(nm, s);
    StepBody(nm, s, 0);
    StepBody(nm, s, 1);
    RestStep(s.bodies[0], Step(nm, s).forces[0], s.dt);
    RestStep(s.bodies[1], Step(nm, s).forces[1], s.dt);
  }

  /** The displacement along x of the scenario: 0.016^2 / 4.000001. */
  lemma ScenarioDisplacement(k: real)
    requires k * 4.000001 == 1.0
    ensures k * Dt * Dt == 0.000256 / 4.000001
  {
    assert k * Dt * Dt == k * 0.000256;
    assert (k * 0.000256) * 4.000001 == 0.000256;
  }

  /** Body 0 of the scenario, pushed toward +x. */
  lemma ScenarioShiftRight(k: real)
    requires k * 4.000001 == 1.0
    ensures Add(Vec3(-1.0, 0.0, 0.0), Scale(Scale(Div(Vec3(k, 0.0, 0.0), 1.0), Dt), Dt))
            == Vec3(-1.0 + 0.000256 / 4.000001, 0.0, 0.0)
  {
    ScenarioDisplacement(k);
    assert Div(Vec3(k, 0.0, 0.0), 1.0) == Vec3(k, 0.0, 0.0);
  }

  /** Body 1 of the scenario, pushed toward -x. */
  lemma ScenarioShiftLeft(k: real)
    requires k * 4.000001 == 1.0
    ensures Add(Vec3(1.0, 0.0, 0.0), Scale(Scale(Div(Vec3(-k, 0.0, 0.0), 1.0), Dt), Dt))
            == Vec3(1.0 - 0.000256 / 4.000001, 0.0, 0.0)
  {
    ScenarioDisplacement(k);
    assert Div(Vec3(-k, 0.0, 0.0), 1.0) == Vec3(-k, 0.0, 0.0);
    assert -k * Dt * Dt == -(k * Dt * Dt);
  }

  /** After one step from the two-body configuration the bodies have moved
      straight toward each other along the x axis, each by
      0.016^2 / (2^2 + softening): equal in size, opposite in direction. */
  lemma TwoBodyScenario(nm: Numerics, s: Sim)
    requires IsTwoBodyScenario(s)
    requires nm.normalize(Vec3(2.0, 0.0, 0.0)) == Vec3(1.0, 0.0, 0.0)
    requires nm.normalize(Vec3(-2.0, 0.0, 0.0)) == Vec3(-1.0, 0.0, 0.0)
    ensures var r := Step(nm, s);
            && r.bodies[0].position == Vec3(-1.0 + 0.000256 / 4.000001, 0.0, 0.0)
            && r.bodies[1].position == Vec3(1.0 - 0.000256 / 4.000001, 0.0, 0.0)
            && r.bodies[0].position.x > -1.0
            && r.bodies[1].position.x < 1.0
  {
    TwoBodiesAtRest(nm, s);
    ScenarioPullRight(nm);
    ScenarioPullLeft(nm);
    var k := 1.0 / 4.000001;
    assert -1.0 / 4.000001 == -k;
    ScenarioShiftRight(k);
    ScenarioShiftLeft(k);
  }
}
