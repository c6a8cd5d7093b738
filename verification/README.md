# Wave simulator: runner bookkeeping in Dafny

This project models the host-side bookkeeping of the wave simulator's
GPU field-evolution engine, `SimulationRunner`, together with the settings
value types and the initial-condition provider it consumes. The model
covers these parts:

- **Triple-buffer role rotation** (`rotation.dfy`, module `Rotation`). The
  three field buffers are identities `W1`, `W2`, `W3`. The state
  `CurrentWave` is `Wave1`, `Wave2` or `Wave3`. Three lookups give the
  buffer playing the *previous*, *current* and *next* role, and `Rotate`
  (`set_next_wave`) advances the state by one step of the cycle.
- **Settings and provider** (`simulation.dfy`, module `Simulation`).
  `SimulationSettings` and `RenderSettings` are immutable records. A
  `Provider` (the `Simulation` trait) holds both settings and the initial
  amplitude function. The model assumes that a provider has no interior
  mutability and that its `psi_0` is deterministic, so a provider is a
  plain value. The `&self` receivers alone do not guarantee this.
- **Lattice enumeration and seeding** (`lattice.dfy`, module `Lattice`).
  These are the nested loops of `new` that evaluate `psi_0` once per
  lattice point in row-major order.
- **Construction and update** (`runner.dfy`, module `Runner`).
  - `New` covers the alignment asserts, the debug-build integer overflow
    checks, the library calls in the order they are issued, the constant
    record and the fresh runner.
  - `Update` covers the role-to-slot binding, the single dispatch and the
    single rotation.
- **Machine types** (`prims.dfy`, module `Prims`). `usize` and `u32` are
  bounded integers, and `f32` is an opaque 32-bit pattern.

Modelling choices:

- No floating-point arithmetic is modelled. Each `f32` value is an
  uninterpreted bit pattern.
- Values the source derives with float arithmetic are kept as symbolic
  records that say what was computed from which inputs:
  - `width = ((n - 1) as f32) * dx` becomes `Extent(n - 1, dx)`;
  - `r = c * c * dt * dt` becomes `CSquaredDtSquared(c, dt)`.
- The provider's `psi0(i, j)` is `psi_0` already composed with the f32
  computation of the centred coordinates of column `i` and row `j`.
- The graphics library (`alexandria`) is not executed.
  - Construction returns the list of library calls it issues. Each call
    carries its buffer identity, contents and slot.
  - `update` returns the list of commands it issues.
  - A `Backend` parameter says which `.unwrap()`-ed library constructors
    fail.
  - The library's binding calls are given this meaning: `set_slot`
    records the slot a buffer uses, and `set_active_rw` binds the buffer
    at the slot it last recorded.
- Integer arithmetic follows a debug build.
  - `num_points_x - 1` with zero points panics.
  - `num_points_x * num_points_y` panics when the product overflows
    `usize`.
  - `as u32` keeps the low 32 bits.
- `usize` is 64 bits wide.

The model follows the code in these details:

- The coefficient uploaded is `c*c*dt*dt`. It has no `dx`.
- The client programs target an older revision of the library, where
  `RenderSettings::new` takes a fourth `xz_scale` argument
  (examples/common.rs:25), and the trait has a `time_scale` method and a
  `psi_0` that returns a pair (examples/standing.rs:46-50). The model
  follows the library's own revision instead:
  - `RenderSettings` has three fields.
  - The trait has no `time_scale`.
  - `psi_0` returns one `f32`.
- `update` binds the output texture for the kernel to write. It does not
  copy the current buffer into it on the host.
- A lattice with zero points passes both alignment asserts. It is rejected
  only by the integer underflow check on `num_points - 1` (a release build
  would wrap there instead).

## Model

| member | source | states |
|---|---|---|
| Rotation.RoleOf | src/simulation_runner.rs:177-199 | every buffer plays some role in every state, and looking that role up gives the buffer back |
| Rotation.RolesAreBijection | src/simulation_runner.rs:177-199 | in every state previous, current and next are three pairwise-distinct buffers that together are all three; role-to-buffer and buffer-to-role are mutually inverse |
| Rotation.Rotate | src/simulation_runner.rs:201-207 | one rotation is the leapfrog shift: new previous = old current, new current = old next, new next = old previous, so the oldest level becomes the write target (slot 2) |
| Rotation.LookupsAreModularIndex | src/simulation_runner.rs:177-207 | the three lookups agree with the index-mod-3 reading (current = i, next = i+1, previous = i+2) and rotation adds one to the index |
| Rotation.IterateIndex | src/simulation_runner.rs:201-207 | n rotations advance the index by n modulo 3 |
| Rotation.RotationPeriod | src/simulation_runner.rs:201-207 | three rotations return to the start state; one or two do not |
| Rotation.IterateReturnsIff | src/simulation_runner.rs:201-207 | n rotations return to the start exactly when n is a multiple of 3 |
| Rotation.WriteTargetPeriod | src/simulation_runner.rs:185-207 | a buffer is the write target again exactly after a multiple of 3 rotations |
| Simulation.NewSimulationSettings | src/simulation.rs:26-66 | the constructor takes any point counts unvalidated, and num_points_x, num_points_y, dx, dy, dt, c give back its arguments in order |
| Simulation.NewRenderSettings | src/simulation.rs:70-88 | the constructor's three arguments come back from the three accessors |
| Simulation.SettingsDeterminedByAccessors | src/simulation.rs:25-89 | rebuilding a settings value from its accessors gives the same value, so the accessors lose nothing |
| Lattice.PointsRowMajor | src/simulation_runner.rs:69-76 | the loops visit nx*ny points, and visit k is column k % nx, row k / nx |
| Lattice.PointAtOffset | src/simulation_runner.rs:69-76 | lattice point (x, y) is visited at position y*nx + x |
| Lattice.EachPointOnce | src/simulation_runner.rs:69-76 | every lattice point is visited, nothing outside the lattice is, and no point is visited twice |
| Lattice.SeedsRowMajor | src/simulation_runner.rs:66-76 | the seed list has nx*ny entries; entry y*nx + x is psi_0 at column x, row y, and entry k is psi_0 at (k % nx, k / nx) |
| Lattice.BuildSeeds | src/simulation_runner.rs:66-76 | the nested loops query the points in row-major order and produce exactly the seed list |
| Prims.AsU32 | src/simulation_runner.rs:98-99 | the u32 cast keeps the value when it fits and otherwise differs from it by a multiple of 2^32 |
| Runner.Fresh | src/simulation_runner.rs:105-129 | a fresh runner has n/16 groups per axis, num_points_x()/num_points_y() give back the settings' counts, spacings and dt are kept, width/height are built from n - 1, and it starts in Wave1 |
| Runner.New | src/simulation_runner.rs:53-121 | construction succeeds exactly for tile-aligned, non-empty lattices whose point count fits usize on a backend whose constructors succeed; a misaligned lattice fails before any library call; on success the runner is the fresh one |
| Runner.NewSeedsAllBuffersAlike | src/simulation_runner.rs:78-90 | on success six calls are issued; all three buffers and the output texture get the same seed list; each buffer is created at the slot of its role in Wave1 (wave1 current, wave2 next, wave3 previous) |
| Runner.NewCreatesEachBufferOnce | src/simulation_runner.rs:78-83 | no buffer identity is created twice |
| Runner.NoBufferForInadmissibleLattice | src/simulation_runner.rs:56-66 | a lattice that is misaligned, empty or too large fails, and no buffer or texture is created for it |
| Runner.PayloadMatchesSettings | src/simulation_runner.rs:92-103 | the constant record carries dx, dy, dt unchanged, a coefficient built from c and dt only, color_mod 3.0, reserved 0.0, and the point counts as u32 (equal to them when they fit) |
| Runner.AlignmentEnforcedOnlyByRunner | src/simulation_runner.rs:56-57 | settings with any point counts are constructible; the runner rejects every lattice with nx % 16 != 0 by the x-alignment panic, and every x-aligned lattice with ny % 16 != 0 by the y-alignment panic, in both cases with no library call |
| Runner.Runner.NumPointsX | src/simulation_runner.rs:123-125 | num_points_x() is a multiple of 16 whose quotient by 16 is the x group count |
| Runner.Runner.NumPointsY | src/simulation_runner.rs:127-129 | num_points_y() is a multiple of 16 whose quotient by 16 is the y group count |
| Runner.Update | src/simulation_runner.rs:151-171 | one dispatch of groupsX x groupsY x 1 tiles covering the lattice, issued last; the buffer that was at slot 2 becomes current and the oldest moves to slot 2; no other runner field changes |
| Runner.UpdateBindsRoles | src/simulation_runner.rs:152-159 | whatever slots the buffers had before, at dispatch slots 0/1/2 hold previous/current/next and each buffer's slot is its role's |
| Runner.UpdatePeriod | src/simulation_runner.rs:151-171 | three updates give back the same runner; one or two do not |
| Runner.Advance | src/simulation_runner.rs:151-171 | n successive updates rotate n times, change nothing else and issue exactly n identical dispatches |

## Left out

- The stencil kernel (`compute.hlsl`) is not part of this model. Its
  source is not available, and it runs f32 arithmetic on the GPU. Nothing
  is stated about the field values it writes.
- f32 arithmetic is not modelled: `width`/`height`, the centred
  coordinates and `r` are kept symbolic or folded into `psi0`.
- The `width()`, `height()`, `dx()`, `dy()` and `dt()` accessors are the
  datatype's fields. They have no members of their own.
- `output()` is left out. It returns a handle to a library texture and
  does no bookkeeping.
- Allocation failures are not modelled. A lattice whose point count fits
  `usize` but does not fit memory is treated as built.
- Release-build wrap-around of `num_points - 1` and
  `num_points_x * num_points_y` is not modelled.
- `Simulation::new()` constructs a client scenario and is client code.
- GPU concurrency and per-dispatch barriers are assumed, not modelled.
- What the kernel writes is not modelled. `update` binds all three
  buffers read-write, so the model does not show that the kernel writes
  only through slot 2. It shows only which buffer sits at each slot.
- Runner.UpdateBindsRoles: the output texture and the constant record are
  activated in the command list, but their slots are not tracked.
- `src/observer.rs`, `src/renderer.rs`, `src/main.rs`, `src/lib.rs` and
  the client scenario programs are not part of this model. They
  are camera handling, mesh building, host-loop glue and client initial
  conditions.
