/** Settings value types and the initial-condition provider
    (`SimulationSettings`, `RenderSettings` and the `Simulation` trait).

    Both settings types are immutable records: their constructors store
    the arguments unvalidated and every accessor is a read of one field.
    A provider is modelled as a value too, with `psi_0` a function. This
    assumes the provider has no interior mutability and that `psi_0` is
    deterministic. The `&self` receivers alone do not guarantee it. */
module Simulation {
  import opened Prims

  /** Lattice resolution, spacing, time step and wave speed `c`. The
      fields are the accessors `num_points_x()`, ..., `c()`. */
  datatype SimulationSettings = SimulationSettings(
    numPointsX: Usize,
    numPointsY: Usize,
    dx: F32,
    dy: F32,
    dt: F32,
    c: F32)

  /** Presentation-side view of the lattice. */
  datatype RenderSettings = RenderSettings(
    numPointsX: Usize,
    numPointsY: Usize,
    yScale: F32)

  /** `SimulationSettings::new`: accepts every point count, aligned or not,
      and each accessor gives back its own argument, in order. */
  function NewSimulationSettings(nx: Usize, ny: Usize, dx: F32, dy: F32, dt: F32, c: F32)
    : (s: SimulationSettings)
    ensures s.numPointsX == nx && s.numPointsY == ny
    ensures s.dx == dx && s.dy == dy && s.dt == dt && s.c == c
  {
    SimulationSettings(nx, ny, dx, dy, dt, c)
  }

  /** `RenderSettings::new`: each accessor gives back its own argument. */
  function NewRenderSettings(nx: Usize, ny: Usize, yScale: F32): (s: RenderSettings)
    ensures s.numPointsX == nx && s.numPointsY == ny && s.yScale == yScale
  {
    RenderSettings(nx, ny, yScale)
  }

  /** The accessors lose nothing: rebuilding a settings value from its
      accessors gives the same value, so two settings built from different
      arguments are different. */
  lemma SettingsDeterminedByAccessors(s: SimulationSettings, r: RenderSettings)
    ensures NewSimulationSettings(s.numPointsX, s.numPointsY, s.dx, s.dy, s.dt, s.c) == s
    ensures NewRenderSettings(r.numPointsX, r.numPointsY, r.yScale) == r
  {
  }

  /** A client scenario implementing the `Simulation` trait.
      `psi0(i, j)` is the initial amplitude the provider reports for the
      lattice point in column `i`, row `j`; it stands for `psi_0` applied to
      that point's centred physical coordinates, whose f32 computation is
      not modelled. */
  datatype Provider = Provider(
    simulationSettings: SimulationSettings,
    renderSettings: RenderSettings,
    psi0: (nat, nat) -> F32)
}
