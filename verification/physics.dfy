/** The N-body engine: bodies, construction on a helix, and the two-phase
    step (pairwise force accumulation, then semi-implicit Euler integration).

    Arithmetic is exact over the reals. The three floating-point primitives
    whose values the model does not interpret -- cosine, sine and vector
    normalisation -- are supplied by the caller as a `Numerics` record, so
    every statement below holds whatever those primitives compute.
 */
module Physics {
  import opened Vectors

  /** The primitives the engine calls but does not define. */
  datatype Numerics = Numerics(cos: real -> real, sin: real -> real, normalize: Vec3 -> Vec3)

  datatype Body = Body(position: Vec3, velocity: Vec3, mass: real)

  /** The engine state. `forces` is the per-body accumulator that each step
      clears and refills; it stays observable between steps. */
  datatype Sim = Sim(bodies: seq<Body>, forces: seq<Vec3>, g: real, dt: real)

  /** Layout and integration constants fixed at construction. */
  const Radius: real := 8.0
  const Height: real := 16.0
  const Tau: real := 6.2831855
  const Turns: real := 5.0
  const G: real := 1.0
  const Dt: real := 0.016

  /** Added to the squared distance so the force denominator is never zero. */
  const Softening: real := 0.000001

  /** A body placed at `position` with mass `mass`, at rest. */
  function NewBody(position: Vec3, mass: real): (b: Body)
    ensures b.position == position && b.mass == mass
    ensures b.velocity == Zero
    ensures Scale(b.velocity, b.mass) == Zero
  {
    Body(position, Zero, mass)
  }

  /** Index `i` of `n` as a fraction of the whole: always in [0, 1). */
  function Fraction(i: nat, n: nat): (t: real)
    requires i < n
    ensures 0.0 <= t < 1.0
    ensures t * n as real == i as real
  {
    i as real / n as real
  }

  /** Position of the body at fraction `t` along a five-turn helix of
      radius 8 and height 16 centred on the origin. */
  function Layout(nm: Numerics, t: real): Vec3
  {
    var angle := t * Tau * Turns;
    Vec3(nm.cos(angle) * Radius, nm.sin(angle) * Radius, (t - 0.5) * Height)
  }

  /** The fresh engine of `n` bodies. */
  function New(nm: Numerics, n: nat): (s: Sim)
    ensures |s.bodies| == n && |s.forces| == n
    ensures s.g == 1.0 && s.dt == 0.016
    ensures forall k :: 0 <= k < n ==> s.forces[k] == Zero
    ensures forall i :: 0 <= i < n ==> s.bodies[i].velocity == Zero
    ensures forall i :: 0 <= i < n ==> s.bodies[i].mass * n as real == (n + i) as real
    ensures forall i :: 0 <= i < n ==> 1.0 <= s.bodies[i].mass < 2.0
    ensures forall i :: 0 <= i < n ==> -8.0 <= s.bodies[i].position.z < 8.0
    ensures forall i :: 0 <= i < n ==> s.bodies[i].position.z == (s.bodies[i].mass - 1.5) * Height
    ensures Valid(s)
  {
    var bodies := seq(n, i requires 0 <= i < n =>
                        var t := Fraction(i, n);
                        NewBody(Layout(nm, t), 1.0 + t));
    Sim(bodies, seq(n, _ => Zero), G, Dt)
  }

  /** When cosine and sine satisfy the Pythagorean identity, every new body
      lies on the cylinder of radius 8 around the z axis. */
  lemma NewBodiesOnHelix(nm: Numerics, n: nat)
    requires forall a :: nm.cos(a) * nm.cos(a) + nm.sin(a) * nm.sin(a) == 1.0
    ensures forall i :: 0 <= i < n ==>
              var p := New(nm, n).bodies[i].position;
              p.x * p.x + p.y * p.y == Radius * Radius
  {
    forall i | 0 <= i < n
      ensures var p := New(nm, n).bodies[i].position;
              p.x * p.x + p.y * p.y == Radius * Radius
    {
      var angle := Fraction(i, n) * Tau * Turns;
      var c := nm.cos(angle);
      var sn := nm.sin(angle);
      assert New(nm, n).bodies[i].position == Layout(nm, Fraction(i, n));
      assert (c * Radius) * (c * Radius) + (sn * Radius) * (sn * Radius) == (c * c + sn * sn) * (Radius * Radius);
    }
  }

  /** What `Step` needs of its input: a force slot for every body (the
      accumulator is indexed by body) and no massless body (the acceleration
      divides by mass). */
  predicate Steppable(s: Sim)
  {
    && |s.bodies| <= |s.forces|
    && forall i :: 0 <= i < |s.bodies| ==> s.bodies[i].mass != 0.0
  }

  /** The invariant of every engine built by `New` and stepped any number
      of times. */
  predicate Valid(s: Sim)
  {
    && |s.forces| == |s.bodies|
    && s.g == G
    && s.dt == Dt
    && forall i :: 0 <= i < |s.bodies| ==> 1.0 <= s.bodies[i].mass < 2.0
  }

  /** The softened squared distance: the denominator of the pairwise force. */
  function SoftenedDistSq(diff: Vec3): (d: real)
    ensures d >= Softening
    ensures d > 0.0
  {
    LengthSquared(diff) + Softening
  }

  /** The pull of body `b` on body `a`: along the normalised direction from
      `a` to `b`, with magnitude g * m_a * m_b / (|b - a|^2 + softening). */
  function Pull(nm: Numerics, g: real, a: Body, b: Body): Vec3
  {
    var diff := Sub(b.position, a.position);
    Scale(nm.normalize(diff), g * a.mass * b.mass / SoftenedDistSq(diff))
  }

  /** The force on body `i` from bodies 0 .. m-1 other than itself, summed in
      index order. */
  function NetForceUpTo(nm: Numerics, g: real, bodies: seq<Body>, i: nat, m: nat): Vec3
    requires i < |bodies| && m <= |bodies|
  {
    if m == 0 then Zero
    else
      var acc := NetForceUpTo(nm, g, bodies, i, m - 1);
      if m - 1 == i then acc else Add(acc, Pull(nm, g, bodies[i], bodies[m - 1]))
  }

  /** The force on body `i` from every other body. */
  function NetForce(nm: Numerics, g: real, bodies: seq<Body>, i: nat): Vec3
    requires i < |bodies|
  {
    NetForceUpTo(nm, g, bodies, i, |bodies|)
  }

  /** The force phase: the accumulator cleared, then slot `k` holding the net
      force on body `k`, computed from the pre-step bodies. */
  function ForcePhase(nm: Numerics, s: Sim): seq<Vec3>
    requires |s.bodies| <= |s.forces|
  {
    seq(|s.forces|, k requires 0 <= k < |s.forces| =>
          if k < |s.bodies| then NetForce(nm, s.g, s.bodies, k) else Zero)
  }

  /** Semi-implicit Euler for one body: velocity first, then position from
      the new velocity. */
  function Integrate(b: Body, f: Vec3, dt: real): Body
    requires b.mass != 0.0
  {
    var v := Add(b.velocity, Scale(Div(f, b.mass), dt));
    Body(Add(b.position, Scale(v, dt)), v, b.mass)
  }

  /** One time step: every force from pre-step positions, then every body
      integrated with its own force. */
  function Step(nm: Numerics, s: Sim): (r: Sim)
    requires Steppable(s)
    ensures |r.bodies| == |s.bodies| && |r.forces| == |s.forces|
    ensures r.g == s.g && r.dt == s.dt
    ensures forall i :: 0 <= i < |s.bodies| ==> r.bodies[i].mass == s.bodies[i].mass
    ensures Steppable(r)
    ensures Valid(s) ==> Valid(r)
  {
    var f := ForcePhase(nm, s);
    Sim(seq(|s.bodies|, k requires 0 <= k < |s.bodies| => Integrate(s.bodies[k], f[k], s.dt)),
        f, s.g, s.dt)
  }

  /** `n` steps in a row. */
  function Run(nm: Numerics, s: Sim, n: nat): Sim
    requires Steppable(s)
    decreases n
  {
    if n == 0 then s else Run(nm, Step(nm, s), n - 1)
  }

  /** The pull between two bodies ignores their velocities. */
  lemma PullDependsOnPositionsAndMasses(nm: Numerics, g: real, a1: Body, a2: Body, b1: Body, b2: Body)
    requires a1.position == a2.position && a1.mass == a2.mass
    requires b1.position == b2.position && b1.mass == b2.mass
    ensures Pull(nm, g, a1, b1) == Pull(nm, g, a2, b2)
  {
    var diff := Sub(b1.position, a1.position);
    assert diff == Sub(b2.position, a2.position);
    assert g * a1.mass * b1.mass == g * a2.mass * b2.mass;
  }

  /** The force on a body depends only on the positions and masses of the
      bodies before the step: bodies that agree on those (whatever their
      velocities) receive the same forces. */
  lemma {:induction false} NetForceUpToDependsOnPositionsAndMasses(
    nm: Numerics, g: real, b1: seq<Body>, b2: seq<Body>, i: nat, m: nat)
    requires |b1| == |b2| && i < |b1| && m <= |b1|
    requires forall k :: 0 <= k < |b1| ==> b1[k].position == b2[k].position && b1[k].mass == b2[k].mass
    ensures NetForceUpTo(nm, g, b1, i, m) == NetForceUpTo(nm, g, b2, i, m)
  {
    if m > 0 {
      NetForceUpToDependsOnPositionsAndMasses(nm, g, b1, b2, i, m - 1);
      if m - 1 != i {
        PullDependsOnPositionsAndMasses(nm, g, b1[i], b2[i], b1[m - 1], b2[m - 1]);
      }
    }
  }

  /** The force phase reads nothing but pre-step positions and masses: two
      engines that agree on those, on `g` and on the accumulator size end
      the step with the same forces, whatever their velocities and whatever
      was left in their accumulators. */
  lemma StepForcesUsePreStepPositionsOnly(nm: Numerics, s1: Sim, s2: Sim)
    requires Steppable(s1) && Steppable(s2)
    requires |s1.bodies| == |s2.bodies| && |s1.forces| == |s2.forces| && s1.g == s2.g
    requires forall k :: 0 <= k < |s1.bodies| ==>
               s1.bodies[k].position == s2.bodies[k].position && s1.bodies[k].mass == s2.bodies[k].mass
    ensures Step(nm, s1).forces == Step(nm, s2).forces
  {
    forall k | 0 <= k < |s1.bodies|
      ensures NetForce(nm, s1.g, s1.bodies, k) == NetForce(nm, s2.g, s2.bodies, k)
    {
      NetForceUpToDependsOnPositionsAndMasses(nm, s1.g, s1.bodies, s2.bodies, k, |s1.bodies|);
    }
  }

  /** Semi-implicit Euler: the new velocity adds (F/m)*dt to the old one, and
      the new position advances by the NEW velocity times dt -- so compared
      with explicit Euler (p + v*dt) the position gains an extra (F/m)*dt^2. */
  lemma StepIsSemiImplicitEuler(nm: Numerics, s: Sim, i: nat)
    requires Steppable(s) && i < |s.bodies|
    ensures Step(nm, s).forces[i] == NetForce(nm, s.g, s.bodies, i)
    ensures Step(nm, s).bodies[i].velocity
            == Add(s.bodies[i].velocity, Scale(Div(Step(nm, s).forces[i], s.bodies[i].mass), s.dt))
    ensures Step(nm, s).bodies[i].position
            == Add(s.bodies[i].position, Scale(Step(nm, s).bodies[i].velocity, s.dt))
    ensures Step(nm, s).bodies[i].position
            == Add(Add(s.bodies[i].position, Scale(s.bodies[i].velocity, s.dt)),
                   Scale(Scale(Div(Step(nm, s).forces[i], s.bodies[i].mass), s.dt), s.dt))
  {
    var r := Step(nm, s);
    var b := s.bodies[i];
    var a := Div(r.forces[i], b.mass);
    assert r.bodies[i] == Integrate(b, r.forces[i], s.dt);
    assert r.bodies[i].velocity == Add(b.velocity, Scale(a, s.dt));
    assert r.bodies[i].position == Add(b.position, Scale(Add(b.velocity, Scale(a, s.dt)), s.dt));
    SemiImplicitExpansion(b.position, b.velocity, a, s.dt);
  }

  /** p + (v + a*dt)*dt == (p + v*dt) + (a*dt)*dt. */
  lemma SemiImplicitExpansion(p: Vec3, v: Vec3, a: Vec3, dt: real)
    ensures Add(p, Scale(Add(v, Scale(a, dt)), dt)) == Add(Add(p, Scale(v, dt)), Scale(Scale(a, dt), dt))
  {
    assert (v.x + a.x * dt) * dt == v.x * dt + (a.x * dt) * dt;
    assert (v.y + a.y * dt) * dt == v.y * dt + (a.y * dt) * dt;
    assert (v.z + a.z * dt) * dt == v.z * dt + (a.z * dt) * dt;
  }

  /** Body count, masses and constants are the same after any number of steps. */
  lemma {:induction false} RunPreservesShape(nm: Numerics, s: Sim, n: nat)
    requires Steppable(s)
    ensures var r := Run(nm, s, n);
            && |r.bodies| == |s.bodies| && |r.forces| == |s.forces|
            && r.g == s.g && r.dt == s.dt
            && (forall i :: 0 <= i < |s.bodies| ==> r.bodies[i].mass == s.bodies[i].mass)
            && (Valid(s) ==> Valid(r))
    decreases n
  {
    if n > 0 {
      RunPreservesShape(nm, Step(nm, s), n - 1);
    }
  }
}
