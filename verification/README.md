# N-body simulation core, modelled in Dafny

The engine behind the 3D point-cloud demo keeps a single simulation of
gravitating bodies in a per-thread write-once slot. It exposes three entry
points:

- `init_simulation(n)` builds the simulation the first time it is called.
- `step_simulation()` advances the simulation by one time step.
- `fill_xyz_f32(out)` writes every body's position into a flat buffer of
  x, y, z triples for the renderer.

The engine is modelled in five modules:

- `Vectors` (`vectors.dfy`): three-component vectors over the reals, with the
  few operations the engine uses.
- `Physics` (`physics.dfy`): bodies, the simulation state, construction of
  `n` bodies on a five-turn helix, and the two-phase step. The force phase is
  a pairwise softened gravity sum over j != i from pre-step positions. It is
  followed by semi-implicit Euler integration. The step is a pure function.
- `StepLoop` (`step_loop.dfy`): the step as the engine writes it, as
  imperative loops. It clears the accumulator, runs the nested pair loop,
  then runs the zipped integration pass. It is proved to compute exactly
  `Physics.Step`.
- `Conservation` (`conservation.dfy`): Newton's third law for the pairwise
  pull, conservation of total momentum by a step, and a two-body
  configuration worked out exactly.
- `SimCell` (`cell.dfy`): the write-once slot as an `Option<Sim>` value. It
  also holds the init/step/fill entry points and the flat coordinate buffer
  with its decoding.

Single-precision arithmetic becomes exact `real` arithmetic. Cosine, sine and
vector normalisation are not interpreted: they are fields of a `Numerics`
record that every operation takes as a parameter. So every property holds
whatever those primitives return, except where a lemma states a hypothesis
about them. The abort on an uninitialised slot ("Simulation not initialized")
becomes the precondition `c.Some?`.

## Model

| member | source | states |
|---|---|---|
| Physics.NewBody | src/physics.rs:13-19 | a new body has the given position and mass, and is at rest (zero velocity, so zero momentum) |
| Physics.Fraction | src/physics.rs:36 | the layout parameter i/n of body i lies in [0, 1) and times n gives back i |
| Physics.New | src/physics.rs:30-54 | n bodies and n zero force slots; every velocity zero; body i has mass (n+i)/n, so in [1, 2); z within the helix height [-8, 8) and equal to 16 (m - 1.5), tying each body's height to its mass; g = 1, dt = 0.016; the state satisfies the step invariant `Valid` |
| Physics.NewBodiesOnHelix | src/physics.rs:35-44 | if cosine and sine satisfy cos^2 + sin^2 = 1, every new body lies at distance 8 from the z axis |
| Physics.SoftenedDistSq | src/physics.rs:68 | the force denominator is at least the softening 1e-6, hence strictly positive, for every separation including coincident bodies |
| Physics.Step | src/physics.rs:57-82 | a step keeps the number of bodies, the accumulator length, every mass, g and dt; it keeps the preconditions of the next step and the invariant `Valid` |
| Physics.NetForceUpToDependsOnPositionsAndMasses | src/physics.rs:61-75 | the accumulated force on body i reads only positions and masses, never velocities |
| Physics.StepForcesUsePreStepPositionsOnly | src/physics.rs:59-75 | two states agreeing on pre-step positions, masses, g and accumulator size get identical forces, whatever their velocities and whatever the accumulator held before |
| Physics.StepIsSemiImplicitEuler | src/physics.rs:77-81 | slot i holds the net force on body i; v' = v + (F/m)dt, then p' = p + v'dt with the new velocity, so p' = p + v dt + (F/m)dt^2 |
| Physics.RunPreservesShape | src/physics.rs:57-82 | any number of steps keep body count, accumulator length, masses, g, dt and `Valid` |
| StepLoop.ClearForces | src/physics.rs:59 | the accumulator keeps its length and every slot becomes zero |
| StepLoop.AddPull | src/physics.rs:64-72 | one pass of the inner loop adds the pull of body j on body i into slot i and leaves every other slot untouched |
| StepLoop.AccumulateForces | src/physics.rs:61-75 | after the nested pair loop, slot i holds the sum over j != i of the pulls on body i in j order, and slots past the bodies stay zero |
| StepLoop.IntegrateAll | src/physics.rs:77-81 | the zipped pass integrates body k with force slot k, for every body |
| StepLoop.StepInPlace | src/physics.rs:57-82 | the imperative step (clear, accumulate, integrate) yields exactly the state `Physics.Step` defines |
| Conservation.PullAntisymmetric | src/physics.rs:67-71 | with a normalisation odd on non-zero vectors and a, b at different positions, the pull of b on a is the negation of the pull of a on b |
| Conservation.InternalForcesCancel | src/physics.rs:61-75 | with a normalisation odd on non-zero vectors and no two bodies at the same position, the net forces on all bodies sum to the zero vector |
| Conservation.StepConservesMomentum | src/physics.rs:57-82 | with a normalisation odd on non-zero vectors and no two bodies at the same position, the total momentum (sum of m v) after a step equals the total before it |
| Conservation.NewBodiesDistinct | src/physics.rs:35-46 | the bodies of a new simulation never share a position (their heights strictly increase with the index), so momentum conservation applies from the first step |
| Conservation.TwoBodyForces | src/physics.rs:61-75 | with two bodies, each one's force slot holds exactly the other's pull |
| Conservation.TwoEqualBodiesMoveOppositely | src/physics.rs:57-82 | two equal masses at rest at different positions are displaced by equal and opposite vectors in one step |
| Conservation.TwoBodyScenario | src/physics.rs:57-82 | unit masses at rest at x = -1 and x = 1 move toward each other along x by exactly 0.016^2 / 4.000001 each |
| SimCell.InitSimulation | src/physics.rs:89-95 | the slot is filled afterwards; a filled slot is returned unchanged, whatever n; an empty one receives exactly the simulation `Physics.New` builds for n, so n bodies at rest with masses (n+i)/n, n zero force slots, satisfying `Valid` |
| SimCell.InitIsOnceOnly | src/physics.rs:89-95 | initialising twice, with any sizes, is the same as initialising once |
| SimCell.InitAfterStepsKeepsProgress | src/physics.rs:89-95 | after steps have been taken, a further initialisation does not reset the simulation |
| SimCell.StepSimulation | src/physics.rs:97-101 | on a filled slot, one step keeps the slot filled, with the same body count, masses, g and dt, and keeps `Reachable` |
| SimCell.StepSimulationTimesIsRun | src/physics.rs:97-101 | stepping the slot k times stores the state after k engine steps |
| SimCell.Flatten | src/physics.rs:111-115 | the buffer has 3 entries per point, and entries 3k, 3k+1, 3k+2 are point k's x, y, z |
| SimCell.UnflattenFlatten | src/physics.rs:111-115 | reading the triples back gives the points written |
| SimCell.FlattenUnflatten | src/physics.rs:111-115 | every buffer of whole triples is the flattening of its decoding |
| SimCell.FillXyz | src/physics.rs:104-116 | the buffer has length 3n, and entries 3k, 3k+1, 3k+2 are body k's x, y, z in storage order |
| SimCell.FillXyzIgnoresOut | src/physics.rs:106 | the buffer's previous contents never influence the result |
| SimCell.FillXyzDecodes | src/physics.rs:104-116 | the buffer decodes to exactly the list of body positions |
| SimCell.FillXyzTwice | src/physics.rs:107-109 | filling again into the buffer just produced, with no step in between, reproduces the same buffer |
| SimCell.FillXyzF32 | src/physics.rs:104-116 | the clear-then-push loop produces exactly the buffer `FillXyz` defines |
| SimCell.FrameBuffer | src/physics.rs:89-116 | after init with n bodies and k steps, the buffer has 3n entries and decodes to the positions after k engine steps |

## Left out

- The renderer (`src/render.rs`: WebGL context, shaders, draw calls), the UI component and its timed async loop (`src/app.rs`), and the wasm entry point (`src/main.rs`) are browser plumbing outside the engine.
- `src/app.rs` imports a two-component extraction `fill_xy_f32` and calls `render_xy`. Neither is defined in `src/physics.rs` or `src/render.rs`, so there is nothing to model for them.
- Single-precision rounding, overflow to infinity and NaN are not modelled: arithmetic is exact over the reals, and no claim is made about bit-exact outputs.
- Cosine, sine and `normalize` are uninterpreted parameters. In particular, `normalize` of the zero vector (two coincident bodies) yields NaN in the engine. The model says nothing about finiteness, and the softening only guards the denominator.
- Physics.Step: requires every mass to be non-zero, because real division needs it. The engine would instead produce infinities or NaN without aborting. Every state the entry points can reach has masses in [1, 2), so the requirement never excludes a reachable state.
- Physics.Step: requires at least as many force slots as bodies. The engine aborts on a short accumulator as soon as a pair is visited. With fewer than two bodies it would silently integrate only the zipped prefix, which the model does not cover. Every reachable state has equal lengths.
- Conservation.StepConservesMomentum: holds under the hypothesis that `normalize` is odd on non-zero vectors (normalize(-v) == -normalize(v) for v != 0), and only when no two bodies share a position. The vector library's normalisation multiplies by the reciprocal length, which is odd on non-zero vectors; at the zero vector it yields NaN, so coincident bodies are excluded. The hypothesis is stated, not derived. Momentum after a step that brings two bodies together is not covered.
- Conservation.TwoBodyScenario: assumes `normalize` returns the exact unit vectors for (±2, 0, 0). In single precision those results are exact too, but the other quantities would be rounded.
- SimCell.FillXyz: the engine clears `out` before it checks that the slot is filled, so an aborted call still leaves the buffer empty. With the abort modelled as a precondition, that side effect is not represented.
- The engine does not reject n = 0. `New(0)` builds an empty simulation, and the model keeps that behaviour rather than inventing validation.
- The thread-local storage and the `RefCell` borrow checks are represented by passing the slot value explicitly. The model runs on a single thread, and nothing else can borrow the slot concurrently.

## Behaviour of the code at its edges

- Only the squared distance is softened (src/physics.rs:68).
- The direction `normalize` is unguarded (src/physics.rs:69), so coincident bodies are not protected from NaN.
- n = 0 is accepted and builds an empty simulation (src/physics.rs:35).
- Initialisation happens once only (src/physics.rs:91). Later calls are ignored, whatever n they pass.
- Stepping or filling an empty slot aborts (src/physics.rs:99, src/physics.rs:108).
