/** The engine's public entry points around the per-thread simulation slot.

    The slot is a write-once cell: it starts empty, the first
    `InitSimulation` fills it, and every later call leaves it alone.
    `StepSimulation` and `FillXyz` abort while the slot is empty; here that
    abort is the precondition `c.Some?`. The slot is threaded through the
    functions as an explicit `Cell` value.
 */
module SimCell {
  import opened Vectors
  import opened Physics

  datatype Option<T> = None | Some(value: T)

  /** The per-thread slot: empty, or holding the one simulation. */
  type Cell = Option<Sim>

  /** Every cell the entry points can produce from an empty one. */
  predicate Reachable(c: Cell)
  {
    c.Some? ==> Valid(c.value)
  }

  /** Build the simulation of `n` bodies, unless one already exists. */
  function InitSimulation(nm: Numerics, c: Cell, n: nat): (r: Cell)
    ensures r.Some?
    ensures c.Some? ==> r == c
    ensures c.None? ==> r.value == New(nm, n)
    ensures c.None? ==> |r.value.bodies| == n && |r.value.forces| == n && Valid(r.value)
    ensures c.None? ==> forall i :: 0 <= i < n ==> r.value.bodies[i].velocity == Zero
    ensures Reachable(c) ==> Reachable(r)
  {
    if c.Some? then c else Some(New(nm, n))
  }

  /** Advance the existing simulation by one step. */
  function StepSimulation(nm: Numerics, c: Cell): (r: Cell)
    requires c.Some? && Steppable(c.value)
    ensures r.Some? && Steppable(r.value)
    ensures |r.value.bodies| == |c.value.bodies| && |r.value.forces| == |c.value.forces|
    ensures r.value.g == c.value.g && r.value.dt == c.value.dt
    ensures forall i :: 0 <= i < |c.value.bodies| ==> r.value.bodies[i].mass == c.value.bodies[i].mass
    ensures Reachable(c) ==> Reachable(r)
  {
    Some(Step(nm, c.value))
  }

  /** The position of every body, in storage order. */
  function Positions(bodies: seq<Body>): (ps: seq<Vec3>)
    ensures |ps| == |bodies|
    ensures forall k :: 0 <= k < |bodies| ==> ps[k] == bodies[k].position
  {
    seq(|bodies|, k requires 0 <= k < |bodies| => bodies[k].position)
  }

  /** Points laid out as x, y, z triples, one triple per point, in order. */
  function Flatten(ps: seq<Vec3>): (buf: seq<real>)
    ensures |buf| == 3 * |ps|
    ensures forall k :: 0 <= k < |ps| ==>
              buf[3 * k] == ps[k].x && buf[3 * k + 1] == ps[k].y && buf[3 * k + 2] == ps[k].z
  {
    if |ps| == 0 then []
    else
      var last := ps[|ps| - 1];
      Flatten(ps[..|ps| - 1]) + [last.x, last.y, last.z]
  }

  /** A buffer of whole triples read back as points. */
  function Unflatten(buf: seq<real>): (ps: seq<Vec3>)
    requires |buf| % 3 == 0
    ensures 3 * |ps| == |buf|
  {
    seq(|buf| / 3, k requires 0 <= k < |buf| / 3 => Vec3(buf[3 * k], buf[3 * k + 1], buf[3 * k + 2]))
  }

  /** Reading the triples back gives the points that were written. */
  lemma UnflattenFlatten(ps: seq<Vec3>)
    ensures Unflatten(Flatten(ps)) == ps
  {
    var back := Unflatten(Flatten(ps));
    forall k | 0 <= k < |ps|
      ensures back[k] == ps[k]
    {
      assert back[k] == Vec3(Flatten(ps)[3 * k], Flatten(ps)[3 * k + 1], Flatten(ps)[3 * k + 2]);
    }
  }

  /** Writing the points of a buffer of whole triples gives the buffer back. */
  lemma FlattenUnflatten(buf: seq<real>)
    requires |buf| % 3 == 0
    ensures Flatten(Unflatten(buf)) == buf
  {
    var ps := Unflatten(buf);
    var out := Flatten(ps);
    forall t | 0 <= t < |buf|
      ensures out[t] == buf[t]
    {
      var k := t / 3;
      assert ps[k] == Vec3(buf[3 * k], buf[3 * k + 1], buf[3 * k + 2]);
      assert t == 3 * k || t == 3 * k + 1 || t == 3 * k + 2;
    }
  }

  /** The coordinate buffer of the existing simulation. Whatever `out` held
      before is discarded. */
  function FillXyz(c: Cell, out: seq<real>): (buf: seq<real>)
    requires c.Some?
    ensures |buf| == 3 * |c.value.bodies|
    ensures forall k :: 0 <= k < |c.value.bodies| ==>
              && buf[3 * k] == c.value.bodies[k].position.x
              && buf[3 * k + 1] == c.value.bodies[k].position.y
              && buf[3 * k + 2] == c.value.bodies[k].position.z
  {
    Flatten(Positions(c.value.bodies))
  }

  /** The old contents of `out` never reach the result. */
  lemma FillXyzIgnoresOut(c: Cell, out1: seq<real>, out2: seq<real>)
    requires c.Some?
    ensures FillXyz(c, out1) == FillXyz(c, out2)
  {
  }

  /** The buffer decodes back to exactly the body positions. */
  lemma FillXyzDecodes(c: Cell, out: seq<real>)
    requires c.Some?
    ensures |FillXyz(c, out)| % 3 == 0
    ensures Unflatten(FillXyz(c, out)) == Positions(c.value.bodies)
  {
    assert FillXyz(c, out) == Flatten(Positions(c.value.bodies));
    UnflattenFlatten(Positions(c.value.bodies));
  }

  /** Filling again into the buffer just filled, with no step in between,
      produces the same buffer: the extraction only reads the simulation. */
  lemma FillXyzTwice(c: Cell, out: seq<real>)
    requires c.Some?
    ensures FillXyz(c, FillXyz(c, out)) == FillXyz(c, out)
  {
    FillXyzIgnoresOut(c, FillXyz(c, out), out);
  }

  /** The extraction as the engine runs it: clear the buffer, then push the
      three coordinates of each body in turn. */
  method FillXyzF32(c: Cell, out: seq<real>) returns (buf: seq<real>)
    requires c.Some?
    ensures buf == FillXyz(c, out)
  {
    buf := [];
    var bodies := c.value.bodies;
    var ps := Positions(bodies);
    var k := 0;
    while k < |bodies|
      invariant 0 <= k <= |bodies|
      invariant buf == Flatten(ps[..k])
    {
      var p := bodies[k].position;
      buf := buf + [p.x, p.y, p.z];
      assert ps[..k + 1][..k] == ps[..k];
      k := k + 1;
    }
    assert ps[..k] == ps;
  }

  /** The first initialisation wins: a second call, with any size, changes
      nothing. */
  lemma InitIsOnceOnly(nm: Numerics, c: Cell, n: nat, m: nat)
    ensures InitSimulation(nm, InitSimulation(nm, c, n), m) == InitSimulation(nm, c, n)
  {
  }

  /** Stepping the cell `k` times. */
  function StepSimulationTimes(nm: Numerics, c: Cell, k: nat): (r: Cell)
    requires c.Some? && Steppable(c.value)
    ensures r.Some? && Steppable(r.value)
    ensures |r.value.bodies| == |c.value.bodies|
    ensures Reachable(c) ==> Reachable(r)
    decreases k
  {
    if k == 0 then c else StepSimulationTimes(nm, StepSimulation(nm, c), k - 1)
  }

  /** Stepping the cell `k` times runs the engine `k` steps. */
  lemma {:induction false} StepSimulationTimesIsRun(nm: Numerics, s: Sim, k: nat)
    requires Steppable(s)
    ensures StepSimulationTimes(nm, Some(s), k) == Some(Run(nm, s, k))
    decreases k
  {
    if k > 0 {
      StepSimulationTimesIsRun(nm, Step(nm, s), k - 1);
    }
  }

  /** A late initialisation does not undo the steps taken so far. */
  lemma InitAfterStepsKeepsProgress(nm: Numerics, n: nat, k: nat, m: nat)
    ensures var c := StepSimulationTimes(nm, InitSimulation(nm, None, n), k);
            InitSimulation(nm, c, m) == c
  {
  }

  /** The host's frame loop: initialise with `n` bodies, step `k` times, fill.
      The buffer always holds 3n coordinates, the positions of the bodies
      after `k` engine steps. */
  lemma FrameBuffer(nm: Numerics, n: nat, k: nat, out: seq<real>)
    ensures var c := StepSimulationTimes(nm, InitSimulation(nm, None, n), k);
            && |FillXyz(c, out)| == 3 * n
            && Unflatten(FillXyz(c, out)) == Positions(Run(nm, New(nm, n), k).bodies)
  {
    var c0 := InitSimulation(nm, None, n);
    var c := StepSimulationTimes(nm, c0, k);
    StepSimulationTimesIsRun(nm, New(nm, n), k);
    FillXyzDecodes(c, out);
  }
}
