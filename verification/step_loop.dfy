/** The step written the way the engine runs it: the accumulator is cleared
    slot by slot, the nested loop over ordered pairs adds each pull into the
    slot of the body pulled, and a final pass integrates body and force
    side by side. `StepInPlace` is proved to compute exactly `Physics.Step`.
 */
module StepLoop {
  import opened Vectors
  import opened Physics

  /** Every slot of the accumulator reset to the zero vector. */
  method ClearForces(forces: seq<Vec3>) returns (cleared: seq<Vec3>)
    ensures |cleared| == |forces|
    ensures forall t :: 0 <= t < |cleared| ==> cleared[t] == Zero
  {
    cleared := forces;
    var k := 0;
    while k < |cleared|
      invariant 0 <= k <= |cleared| == |forces|
      invariant forall t :: 0 <= t < k ==> cleared[t] == Zero
    {
      cleared := cleared[k := Zero];
      k := k + 1;
    }
  }

  /** One pull added into slot `i`, computed exactly as the engine's inner
      loop does. */
  method AddPull(nm: Numerics, s: Sim, forces: seq<Vec3>, i: nat, j: nat) returns (next: seq<Vec3>)
    requires i < |s.bodies| && j < |s.bodies| && i != j && i < |forces|
    ensures |next| == |forces|
    ensures next[i] == Add(forces[i], Pull(nm, s.g, s.bodies[i], s.bodies[j]))
    ensures forall t :: 0 <= t < |forces| && t != i ==> next[t] == forces[t]
  {
    var a := s.bodies[i];
    var b := s.bodies[j];
    var diff := Sub(b.position, a.position);
    var distSq := LengthSquared(diff) + Softening;
    var dir := nm.normalize(diff);
    var f := s.g * a.mass * b.mass / distSq;
    next := forces[i := Add(forces[i], Scale(dir, f))];
  }

  /** The nested loop over ordered pairs (i, j), i != j, on a cleared
      accumulator. No body is touched, so every pull is computed from the
      pre-step positions. */
  method AccumulateForces(nm: Numerics, s: Sim, cleared: seq<Vec3>) returns (forces: seq<Vec3>)
    requires |s.bodies| <= |cleared|
    requires forall t :: 0 <= t < |cleared| ==> cleared[t] == Zero
    ensures |forces| == |cleared|
    ensures forall t :: 0 <= t < |s.bodies| ==> forces[t] == NetForce(nm, s.g, s.bodies, t)
    ensures forall t :: |s.bodies| <= t < |forces| ==> forces[t] == Zero
  {
    var n := |s.bodies|;
    forces := cleared;
    var i := 0;
    while i < n
      invariant 0 <= i <= n
      invariant |forces| == |cleared|
      invariant forall t :: 0 <= t < i ==> forces[t] == NetForce(nm, s.g, s.bodies, t)
      invariant forall t :: i <= t < |forces| ==> forces[t] == Zero
    {
      var j := 0;
      while j < n
        invariant 0 <= j <= n
        invariant |forces| == |cleared|
        invariant forces[i] == NetForceUpTo(nm, s.g, s.bodies, i, j)
        invariant forall t :: 0 <= t < i ==> forces[t] == NetForce(nm, s.g, s.bodies, t)
        invariant forall t :: i < t < |forces| ==> forces[t] == Zero
      {
        if i != j {
          forces := AddPull(nm, s, forces, i, j);
        }
        j := j + 1;
      }
      i := i + 1;
    }
  }

  /** Semi-implicit Euler over bodies and forces taken pairwise in storage
      order: velocity from the force, then position from the new velocity. */
  method IntegrateAll(s: Sim, forces: seq<Vec3>) returns (bodies: seq<Body>)
    requires |s.bodies| <= |forces|
    requires forall t :: 0 <= t < |s.bodies| ==> s.bodies[t].mass != 0.0
    ensures |bodies| == |s.bodies|
    ensures forall t :: 0 <= t < |bodies| ==> bodies[t] == Integrate(s.bodies[t], forces[t], s.dt)
  {
    var n := |s.bodies|;
    bodies := s.bodies;
    var m := 0;
    while m < n
      invariant 0 <= m <= n
      invariant |bodies| == n
      invariant forall t :: 0 <= t < m ==> bodies[t] == Integrate(s.bodies[t], forces[t], s.dt)
      invariant forall t :: m <= t < n ==> bodies[t] == s.bodies[t]
    {
      var b := bodies[m];
      var accel := Div(forces[m], b.mass);
      var v := Add(b.velocity, Scale(accel, s.dt));
      bodies := bodies[m := Body(Add(b.position, Scale(v, s.dt)), v, b.mass)];
      m := m + 1;
    }
  }

  /** The whole step: clear, accumulate, integrate. */
  method StepInPlace(nm: Numerics, s: Sim) returns (r: Sim)
    requires Steppable(s)
    ensures r == Step(nm, s)
  {
    var cleared := ClearForces(s.forces);
    var forces := AccumulateForces(nm, s, cleared);
    assert forces == ForcePhase(nm, s);
    var bodies := IntegrateAll(s, forces);
    r := Sim(bodies, forces, s.g, s.dt);
  }
}
