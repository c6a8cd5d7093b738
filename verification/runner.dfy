/** Host-side bookkeeping of `SimulationRunner`: construction (alignment
    checks, seeding, the uploaded constant record), the point-count
    accessors, and `update` (role binding, one dispatch, one rotation).

    Calls into the graphics library are not executed; construction returns
    the list of library calls it issues, and an update returns the list of
    commands it issues, so that their order and arguments can be stated.
    The stencil kernel itself is not part of this model. */
module Runner {
  import opened Prims
  import opened Rotation
  import opened Simulation
  import opened Lattice

  /** Side length of one thread group's tile, in lattice points. */
  const TILE: nat := 16

  const PREVIOUS_WAVE_SLOT: nat := 0
  const CURRENT_WAVE_SLOT: nat := 1
  const NEXT_WAVE_SLOT: nat := 2
  const OUTPUT_SLOT: nat := 3

  /** Register the constant record is created at. */
  const SETTINGS_SLOT: nat := 0

  /** The slot the kernel reads or writes a role through. */
  function SlotFor(role: Role): (slot: nat)
  {
    match role
    case Previous => PREVIOUS_WAVE_SLOT
    case Current => CURRENT_WAVE_SLOT
    case Next => NEXT_WAVE_SLOT
  }

  /** A thread-group count small enough that `count * 16` is a `usize`;
      every count built from a `usize` point count is one. */
  type GroupCount = g: nat | g < USIZE_LIMIT / 16

  /** The f32 value `((n - 1) as f32) * spacing`, kept symbolic. */
  datatype Extent = Extent(intervals: Usize, spacing: F32)

  /** The f32 value `c * c * dt * dt`, kept symbolic. */
  datatype Coefficient = CSquaredDtSquared(c: F32, dt: F32)

  /** The `#[repr(C)]` constant record uploaded to the kernel, in field order. */
  datatype Payload = Payload(
    r: Coefficient,
    dx: F32,
    dy: F32,
    dt: F32,
    colorMod: F32,
    numPointsX: U32,
    numPointsY: U32,
    reserved: F32)

  /** The runner's own fields. Its buffers, texture, constant buffer and
      shader are library objects, named by identity only. */
  datatype Runner = Runner(
    groupsX: GroupCount,
    groupsY: GroupCount,
    width: Extent,
    height: Extent,
    dx: F32,
    dy: F32,
    dt: F32,
    wave: CurrentWave)
  {
    /** `num_points_x()`: a tile-aligned count whose tile count is `groupsX`. */
    function NumPointsX(): (n: Usize)
      ensures n % TILE == 0 && n / TILE == groupsX
    {
      groupsX * TILE
    }

    /** `num_points_y()`: a tile-aligned count whose tile count is `groupsY`. */
    function NumPointsY(): (n: Usize)
      ensures n % TILE == 0 && n / TILE == groupsY
    {
      groupsY * TILE
    }
  }

  /** Why construction panics. */
  datatype Panic =
    | MisalignedX(numPointsX: Usize)  // first `assert_eq!`
    | MisalignedY(numPointsY: Usize)  // second `assert_eq!`
    | WidthUnderflow                  // `num_points_x - 1` with no points
    | HeightUnderflow                 // `num_points_y - 1` with no points
    | ShaderCompileFailed
    | SeedCountOverflow               // `num_points_x * num_points_y` overflows `usize`
    | BufferCreateFailed(buffer: Buffer)
    | ConstantBufferCreateFailed

  /** Which library constructors fail (each such failure is unwrapped into
      a panic). Texture creation is not unwrapped and cannot fail here. */
  datatype Backend = Backend(
    shaderCompiles: bool,
    failingBuffers: set<Buffer>,
    constantBufferCreates: bool)

  /** A library call issued during construction. */
  datatype Call =
    | CompileShader
    | CreateBuffer(buffer: Buffer, contents: seq<F32>, slot: nat)
    | CreateTexture(contents: seq<F32>, rowLength: Usize, slot: nat)
    | CreateConstantBuffer(payload: Payload, slot: nat)

  datatype Construction = Construction(log: seq<Call>, result: Result<Runner, Panic>)

  /** The lattice sizes the runner accepts: tile-aligned and non-empty in
      both directions, with a point total that fits a `usize`. */
  predicate Admissible(s: SimulationSettings)
  {
    s.numPointsX % TILE == 0 && s.numPointsY % TILE == 0
    && s.numPointsX > 0 && s.numPointsY > 0
    && s.numPointsX * s.numPointsY < USIZE_LIMIT
  }

  predicate BackendSucceeds(b: Backend)
  {
    && b.shaderCompiles
    && W1 !in b.failingBuffers && W2 !in b.failingBuffers && W3 !in b.failingBuffers
    && b.constantBufferCreates
  }

  /** The constant record built from the settings. */
  function PayloadOf(s: SimulationSettings): Payload
  {
    Payload(
      CSquaredDtSquared(s.c, s.dt),
      s.dx, s.dy, s.dt,
      F32_THREE,
      AsU32(s.numPointsX), AsU32(s.numPointsY),
      F32_ZERO)
  }

  /** The runner record `new` builds for settings it accepts. It starts in
      `Wave1`, gives back the settings' point counts and spacings, and has
      `n / 16` thread groups along each axis. */
  function Fresh(s: SimulationSettings): (r: Runner)
    requires s.numPointsX % TILE == 0 && s.numPointsY % TILE == 0
    requires s.numPointsX > 0 && s.numPointsY > 0
    ensures r.NumPointsX() == s.numPointsX && r.NumPointsY() == s.numPointsY
    ensures r.groupsX * TILE == s.numPointsX && r.groupsY * TILE == s.numPointsY
    ensures r.dx == s.dx && r.dy == s.dy && r.dt == s.dt
    ensures r.width == Extent(s.numPointsX - 1, s.dx)
    ensures r.height == Extent(s.numPointsY - 1, s.dy)
    ensures r.wave == Wave1
  {
    Runner(
      s.numPointsX / TILE, s.numPointsY / TILE,
      Extent(s.numPointsX - 1, s.dx), Extent(s.numPointsY - 1, s.dy),
      s.dx, s.dy, s.dt,
      Wave1)
  }

  /** The library calls of a construction that gets past the checks, in
      the order they are issued. */
  function CreationCalls(s: SimulationSettings, values: seq<F32>): seq<Call>
  {
    [
      CompileShader,
      CreateBuffer(W1, values, CURRENT_WAVE_SLOT),
      CreateBuffer(W2, values, NEXT_WAVE_SLOT),
      CreateBuffer(W3, values, PREVIOUS_WAVE_SLOT),
      CreateTexture(values, s.numPointsX, OUTPUT_SLOT),
      CreateConstantBuffer(PayloadOf(s), SETTINGS_SLOT)
    ]
  }

  /** `SimulationRunner::new`, with debug-build integer overflow checks.

      It succeeds exactly for admissible lattices on a backend whose
      constructors succeed. A lattice that is not tile-aligned is rejected
      before any library call is made. */
  function New(p: Provider, backend: Backend): (c: Construction)
    ensures c.result.Success? <==> Admissible(p.simulationSettings) && BackendSucceeds(backend)
    ensures p.simulationSettings.numPointsX % TILE != 0 || p.simulationSettings.numPointsY % TILE != 0
            ==> c.log == [] && c.result.Failure?
    ensures c.result.Success? ==> c.result.value == Fresh(p.simulationSettings)
  {
    var s := p.simulationSettings;
    var nx, ny := s.numPointsX, s.numPointsY;
    if nx % TILE != 0 then Construction([], Failure(MisalignedX(nx)))
    else if ny % TILE != 0 then Construction([], Failure(MisalignedY(ny)))
    else if nx == 0 then Construction([], Failure(WidthUnderflow))
    else if ny == 0 then Construction([], Failure(HeightUnderflow))
    else if !backend.shaderCompiles then Construction([CompileShader], Failure(ShaderCompileFailed))
    else if nx * ny >= USIZE_LIMIT then Construction([CompileShader], Failure(SeedCountOverflow))
    else
      var calls := CreationCalls(s, Seeds(nx, ny, p.psi0));
      if W1 in backend.failingBuffers then Construction(calls[..2], Failure(BufferCreateFailed(W1)))
      else if W2 in backend.failingBuffers then Construction(calls[..3], Failure(BufferCreateFailed(W2)))
      else if W3 in backend.failingBuffers then Construction(calls[..4], Failure(BufferCreateFailed(W3)))
      else if !backend.constantBufferCreates then Construction(calls, Failure(ConstantBufferCreateFailed))
      else
        Construction(calls, Success(Fresh(s)))
  }

  /** For an admissible lattice on a working backend, construction issues
      all six calls and yields the fresh runner. */
  lemma NewOnSuccess(p: Provider, backend: Backend)
    requires Admissible(p.simulationSettings) && BackendSucceeds(backend)
    ensures New(p, backend).result.Success?
    ensures New(p, backend).log == CreationCalls(p.simulationSettings,
              Seeds(p.simulationSettings.numPointsX, p.simulationSettings.numPointsY, p.psi0))
    ensures New(p, backend).result.value == Fresh(p.simulationSettings)
  {
  }

  /** A successful construction issues six library calls: the shader, one
      buffer per identity, the output texture, the constant record. All
      three buffers and the texture hold the same seed list, and each
      buffer is created at the slot of the role it plays in the start
      state `Wave1` (wave1 current, wave2 next, wave3 previous). */
  lemma NewSeedsAllBuffersAlike(p: Provider, backend: Backend)
    requires Admissible(p.simulationSettings) && BackendSucceeds(backend)
    ensures var c, s := New(p, backend), p.simulationSettings;
            var seeds := Seeds(s.numPointsX, s.numPointsY, p.psi0);
            && |c.log| == 6
            && CurrentBuffer(c.result.value.wave) == W1
            && NextBuffer(c.result.value.wave) == W2
            && PreviousBuffer(c.result.value.wave) == W3
            && (forall b: Buffer :: CreateBuffer(b, seeds, SlotFor(RoleOf(c.result.value.wave, b))) in c.log)
            && (forall i | 0 <= i < |c.log| && (c.log[i].CreateBuffer? || c.log[i].CreateTexture?) ::
                  c.log[i].contents == seeds)
            && CreateTexture(seeds, s.numPointsX, OUTPUT_SLOT) in c.log
  {
    var c := New(p, backend);
    NewOnSuccess(p, backend);
    forall b: Buffer
      ensures CreateBuffer(b, c.log[1].contents, SlotFor(RoleOf(Wave1, b))) in c.log
    {
      match b
      case W1 => assert c.log[1] == CreateBuffer(W1, c.log[1].contents, CURRENT_WAVE_SLOT);
      case W2 => assert c.log[2] == CreateBuffer(W2, c.log[1].contents, NEXT_WAVE_SLOT);
      case W3 => assert c.log[3] == CreateBuffer(W3, c.log[1].contents, PREVIOUS_WAVE_SLOT);
    }
  }

  /** Each buffer identity is created at most once, whatever the outcome. */
  lemma NewCreatesEachBufferOnce(p: Provider, backend: Backend)
    ensures var log := New(p, backend).log;
            forall i, j | 0 <= i < j < |log| && log[i].CreateBuffer? && log[j].CreateBuffer? ::
              log[i].buffer != log[j].buffer
  {
  }

  /** Settings the runner does not accept never get a field buffer: every
      check on the lattice dimensions happens before the first buffer is
      created. */
  lemma NoBufferForInadmissibleLattice(p: Provider, backend: Backend)
    requires !Admissible(p.simulationSettings)
    ensures New(p, backend).result.Failure?
    ensures forall call | call in New(p, backend).log :: !call.CreateBuffer? && !call.CreateTexture?
  {
  }

  /** The constant record is the last call of a successful construction.
      It carries the settings' spacings and time step unchanged, the
      display constant 3.0, a zero `reserved` field, a coefficient built
      from `c` and `dt` alone, and the point counts truncated to `u32`
      (so equal to them whenever they fit in 32 bits). */
  lemma PayloadMatchesSettings(p: Provider, backend: Backend)
    requires Admissible(p.simulationSettings) && BackendSucceeds(backend)
    ensures var c, s := New(p, backend), p.simulationSettings;
            && |c.log| > 0
            && c.log[|c.log| - 1].CreateConstantBuffer?
            && c.log[|c.log| - 1].slot == SETTINGS_SLOT
            && var pl := c.log[|c.log| - 1].payload;
            && pl.dx == s.dx && pl.dy == s.dy && pl.dt == s.dt
            && pl.r == CSquaredDtSquared(s.c, s.dt)
            && pl.colorMod == F32_THREE && pl.reserved == F32_ZERO
            && (s.numPointsX - pl.numPointsX) % U32_LIMIT == 0
            && (s.numPointsY - pl.numPointsY) % U32_LIMIT == 0
            && (s.numPointsX < U32_LIMIT ==> pl.numPointsX == s.numPointsX)
            && (s.numPointsY < U32_LIMIT ==> pl.numPointsY == s.numPointsY)
  {
    NewOnSuccess(p, backend);
  }

  /** Settings values are not validated when built; only the runner
      enforces tile alignment. Any point counts make a settings value; the
      runner then panics on the x check for every misaligned `nx`, and on
      the y check for every misaligned `ny` once `nx` is aligned, before
      any library call. */
  lemma AlignmentEnforcedOnlyByRunner(
    nx: Usize, ny: Usize, dx: F32, dy: F32, dt: F32, c: F32,
    render: RenderSettings, psi0: (nat, nat) -> F32, backend: Backend)
    ensures var s := NewSimulationSettings(nx, ny, dx, dy, dt, c);
            && s.numPointsX == nx && s.numPointsY == ny
            && (nx % TILE != 0 ==>
                  New(Provider(s, render, psi0), backend) == Construction([], Failure(MisalignedX(nx))))
            && (nx % TILE == 0 && ny % TILE != 0 ==>
                  New(Provider(s, render, psi0), backend) == Construction([], Failure(MisalignedY(ny))))
  {
  }

  /** A command `update` issues to the graphics library. */
  datatype Command =
    | SetSlot(buffer: Buffer, slot: nat)
    | ActivateShader
    | ActivateBuffer(buffer: Buffer)
    | ActivateOutput
    | ActivateSettings
    | Dispatch(x: Usize, y: Usize, z: Usize)

  datatype Step = Step(runner: Runner, commands: seq<Command>)

  /** `update`: binds previous/current/next to slots 0/1/2, activates the
      shader, the three buffers, the output and the constant record,
      dispatches one grid of `groupsX x groupsY x 1` tiles, which covers the
      lattice exactly, and rotates once. After the step the buffer that
      was at slot 2 is current, and the oldest one moves to slot 2.
      No other field of the runner changes. */
  function Update(r: Runner): (step: Step)
    ensures |step.commands| > 0
    ensures Dispatches(step.commands) == [(r.groupsX, r.groupsY, 1)]
    ensures step.commands[|step.commands| - 1].Dispatch?
    ensures step.commands[|step.commands| - 1].x * TILE == r.NumPointsX()
    ensures step.commands[|step.commands| - 1].y * TILE == r.NumPointsY()
    ensures CurrentBuffer(step.runner.wave) == NextBuffer(r.wave)
    ensures PreviousBuffer(step.runner.wave) == CurrentBuffer(r.wave)
    ensures NextBuffer(step.runner.wave) == PreviousBuffer(r.wave)
    ensures step.runner.(wave := r.wave) == r
  {
    var commands := [
      SetSlot(PreviousBuffer(r.wave), PREVIOUS_WAVE_SLOT),
      SetSlot(CurrentBuffer(r.wave), CURRENT_WAVE_SLOT),
      SetSlot(NextBuffer(r.wave), NEXT_WAVE_SLOT),
      ActivateShader,
      ActivateBuffer(PreviousBuffer(r.wave)),
      ActivateBuffer(CurrentBuffer(r.wave)),
      ActivateBuffer(NextBuffer(r.wave)),
      ActivateOutput,
      ActivateSettings,
      Dispatch(r.groupsX, r.groupsY, 1)
    ];
    assert Dispatches(commands) == [(r.groupsX, r.groupsY, 1)] by {
      DispatchesOfCommands(r, commands);
    }
    Step(r.(wave := Rotate(r.wave)), commands)
  }

  /** The dispatch shapes in a command list, in order. */
  function Dispatches(commands: seq<Command>): seq<(Usize, Usize, Usize)>
  {
    if commands == [] then []
    else
      var last := commands[|commands| - 1];
      Dispatches(commands[..|commands| - 1]) + (if last.Dispatch? then [(last.x, last.y, last.z)] else [])
  }

  lemma DispatchesOfCommands(r: Runner, commands: seq<Command>)
    requires |commands| == 10
    requires forall i | 0 <= i < 9 :: !commands[i].Dispatch?
    requires commands[9] == Dispatch(r.groupsX, r.groupsY, 1)
    ensures Dispatches(commands) == [(r.groupsX, r.groupsY, 1)]
  {
    NoDispatches(commands[..9]);
    assert commands[..|commands| - 1] == commands[..9];
  }

  lemma {:induction false} NoDispatches(commands: seq<Command>)
    requires forall i | 0 <= i < |commands| :: !commands[i].Dispatch?
    ensures Dispatches(commands) == []
  {
    if commands != [] {
      NoDispatches(commands[..|commands| - 1]);
    }
  }

  lemma {:induction false} DispatchesAppend(a: seq<Command>, b: seq<Command>)
    ensures Dispatches(a + b) == Dispatches(a) + Dispatches(b)
    decreases |b|
  {
    if b == [] {
      assert a + b == a;
    } else {
      DispatchesAppend(a, b[..|b| - 1]);
      assert (a + b)[..|a + b| - 1] == a + b[..|b| - 1];
    }
  }

  /** The library's binding state as far as the field buffers go: the slot
      each buffer was last told to use, and the buffer last activated at
      each slot. */
  datatype Binding = Binding(slotOf: map<Buffer, nat>, bound: map<nat, Buffer>)

  /** Effect of one command: `set_slot` records a buffer's slot, and
      `set_active_rw` binds the buffer at the slot it currently has. */
  function Apply(bd: Binding, command: Command): Binding
  {
    match command
    case SetSlot(b, slot) => bd.(slotOf := bd.slotOf[b := slot])
    case ActivateBuffer(b) =>
      if b in bd.slotOf then bd.(bound := bd.bound[bd.slotOf[b] := b]) else bd
    case _ => bd
  }

  /** Effect of a command list, first command first. */
  function Replay(bd: Binding, commands: seq<Command>): Binding
  {
    ReplayFrom(bd, commands, 0)
  }

  /** Effect of `commands[i..]`. */
  function ReplayFrom(bd: Binding, commands: seq<Command>, i: nat): Binding
    requires i <= |commands|
    decreases |commands| - i
  {
    if i == |commands| then bd else ReplayFrom(Apply(bd, commands[i]), commands, i + 1)
  }

  /** Whatever slots the buffers had before, when `update` dispatches, slot
      0, 1 and 2 hold the previous, current and next buffer, and each
      buffer's slot is the one of its role. Since the three slots differ and
      the roles name three distinct buffers, the kernel sees every buffer
      exactly once. */
  lemma UpdateBindsRoles(r: Runner, start: Binding)
    ensures var commands := Update(r).commands;
            var bd := Replay(start, commands[..|commands| - 1]);
            && (forall role: Role :: SlotFor(role) in bd.bound && bd.bound[SlotFor(role)] == BufferFor(r.wave, role))
            && (forall b: Buffer :: b in bd.slotOf && bd.slotOf[b] == SlotFor(RoleOf(r.wave, b)))
  {
    var commands := Update(r).commands;
    var prev, cur, next := PreviousBuffer(r.wave), CurrentBuffer(r.wave), NextBuffer(r.wave);
    RolesAreBijection(r.wave);
    assert commands[..|commands| - 1] == BindingCommands(prev, cur, next);
    ReplayBindingCommands(start, prev, cur, next);
    var bd := Replay(start, BindingCommands(prev, cur, next));
    forall b: Buffer
      ensures b in bd.slotOf && bd.slotOf[b] == SlotFor(RoleOf(r.wave, b))
    {
      match RoleOf(r.wave, b)
      case Previous => assert b == prev;
      case Current => assert b == cur;
      case Next => assert b == next;
    }
  }

  /** The commands `update` issues before its dispatch. */
  function BindingCommands(prev: Buffer, cur: Buffer, next: Buffer): seq<Command>
  {
    [
      SetSlot(prev, PREVIOUS_WAVE_SLOT),
      SetSlot(cur, CURRENT_WAVE_SLOT),
      SetSlot(next, NEXT_WAVE_SLOT),
      ActivateShader,
      ActivateBuffer(prev),
      ActivateBuffer(cur),
      ActivateBuffer(next),
      ActivateOutput,
      ActivateSettings
    ]
  }

  /** Replaying the binding commands of three distinct buffers sets their
      slots to 0, 1, 2 and binds each at its slot. */
  lemma ReplayBindingCommands(start: Binding, prev: Buffer, cur: Buffer, next: Buffer)
    requires prev != cur && cur != next && next != prev
    ensures var bd := Replay(start, BindingCommands(prev, cur, next));
            && prev in bd.slotOf && bd.slotOf[prev] == PREVIOUS_WAVE_SLOT
            && cur in bd.slotOf && bd.slotOf[cur] == CURRENT_WAVE_SLOT
            && next in bd.slotOf && bd.slotOf[next] == NEXT_WAVE_SLOT
            && PREVIOUS_WAVE_SLOT in bd.bound && bd.bound[PREVIOUS_WAVE_SLOT] == prev
            && CURRENT_WAVE_SLOT in bd.bound && bd.bound[CURRENT_WAVE_SLOT] == cur
            && NEXT_WAVE_SLOT in bd.bound && bd.bound[NEXT_WAVE_SLOT] == next
  {
    var cmds := BindingCommands(prev, cur, next);
    var b1 := Apply(start, cmds[0]);
    var b2 := Apply(b1, cmds[1]);
    var b3 := Apply(b2, cmds[2]);
    var b5 := Apply(b3, cmds[4]);
    var b6 := Apply(b5, cmds[5]);
    var b7 := Apply(b6, cmds[6]);
    assert ReplayFrom(start, cmds, 0) == ReplayFrom(b1, cmds, 1);
    assert ReplayFrom(b1, cmds, 1) == ReplayFrom(b2, cmds, 2);
    assert ReplayFrom(b2, cmds, 2) == ReplayFrom(b3, cmds, 3);
    assert ReplayFrom(b3, cmds, 3) == ReplayFrom(b3, cmds, 4);
    assert ReplayFrom(b3, cmds, 4) == ReplayFrom(b5, cmds, 5);
    assert ReplayFrom(b5, cmds, 5) == ReplayFrom(b6, cmds, 6);
    assert ReplayFrom(b6, cmds, 6) == ReplayFrom(b7, cmds, 7);
    assert ReplayFrom(b7, cmds, 7) == ReplayFrom(b7, cmds, 8);
    assert ReplayFrom(b7, cmds, 8) == ReplayFrom(b7, cmds, 9);
  }

  /** At the runner level rotation has period exactly 3: three updates
      give back the runner they started from, one or two do not. */
  lemma UpdatePeriod(r: Runner)
    ensures Update(Update(Update(r).runner).runner).runner == r
    ensures Update(r).runner != r
    ensures Update(Update(r).runner).runner != r
  {
  }

  /** The host calling `update` `n` times in a row: the state advances by
      `n` rotations, nothing else about the runner changes, and exactly `n`
      dispatches of the same shape are issued. */
  method Advance(r: Runner, n: nat) returns (after: Runner, commands: seq<Command>)
    ensures after.wave == Iterate(r.wave, n)
    ensures after.(wave := r.wave) == r
    ensures Dispatches(commands) == seq(n, _ => (r.groupsX, r.groupsY, 1))
  {
    after, commands := r, [];
    var i := 0;
    while i < n
      invariant i <= n
      invariant after.wave == Iterate(r.wave, i)
      invariant after.(wave := r.wave) == r
      invariant Dispatches(commands) == seq(i, _ => (r.groupsX, r.groupsY, 1))
    {
      var step := Update(after);
      DispatchesAppend(commands, step.commands);
      commands := commands + step.commands;
      after := step.runner;
      i := i + 1;
    }
  }
}
