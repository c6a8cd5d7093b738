/** The triple-buffer role rotation of the runner (`CurrentWave` and the
    `previous_wave` / `current_wave` / `next_wave` / `set_next_wave`
    helpers of `SimulationRunner`).

    The three field buffers are fixed identities `W1`, `W2`, `W3`; only the
    roles they play change.  In every state the buffer playing `Previous`
    is meant to hold time level t-1, `Current` t, and `Next` is bound at
    the write slot, where the stencil is meant to put t+1. What the
    stencil actually writes is not part of this model. */
module Rotation {

  /** The runner's three field buffers (`wave1`, `wave2`, `wave3`). */
  datatype Buffer = W1 | W2 | W3

  /** The rotation state: which buffer currently plays the `Current` role. */
  datatype CurrentWave = Wave1 | Wave2 | Wave3

  datatype Role = Previous | Current | Next

  const AllBuffers: set<Buffer> := {W1, W2, W3}

  function CurrentBuffer(s: CurrentWave): Buffer
  {
    match s
    case Wave1 => W1
    case Wave2 => W2
    case Wave3 => W3
  }

  function NextBuffer(s: CurrentWave): Buffer
  {
    match s
    case Wave1 => W2
    case Wave2 => W3
    case Wave3 => W1
  }

  function PreviousBuffer(s: CurrentWave): Buffer
  {
    match s
    case Wave1 => W3
    case Wave2 => W1
    case Wave3 => W2
  }

  /** The buffer bound to `role` in state `s`. */
  function BufferFor(s: CurrentWave, role: Role): Buffer
  {
    match role
    case Previous => PreviousBuffer(s)
    case Current => CurrentBuffer(s)
    case Next => NextBuffer(s)
  }

  /** The role buffer `b` plays in state `s`: the inverse of `BufferFor`. */
  function RoleOf(s: CurrentWave, b: Buffer): (role: Role)
    ensures BufferFor(s, role) == b
  {
    match (s, b)
    case (Wave1, W1) => Current
    case (Wave1, W2) => Next
    case (Wave1, W3) => Previous
    case (Wave2, W1) => Previous
    case (Wave2, W2) => Current
    case (Wave2, W3) => Next
    case (Wave3, W1) => Next
    case (Wave3, W2) => Previous
    case (Wave3, W3) => Current
  }

  /** The three role lookups name three distinct buffers that together are
      all of them, so roles and buffers are in one-to-one correspondence. */
  lemma RolesAreBijection(s: CurrentWave)
    ensures PreviousBuffer(s) != CurrentBuffer(s)
    ensures CurrentBuffer(s) != NextBuffer(s)
    ensures NextBuffer(s) != PreviousBuffer(s)
    ensures {PreviousBuffer(s), CurrentBuffer(s), NextBuffer(s)} == AllBuffers
    ensures forall b: Buffer :: BufferFor(s, RoleOf(s, b)) == b
    ensures forall role: Role :: RoleOf(s, BufferFor(s, role)) == role
  {
  }

  /** `set_next_wave`: one step of the cycle Wave1 -> Wave2 -> Wave3 -> Wave1.
      It performs the leapfrog shift: the old `Current` becomes `Previous`,
      the old `Next` becomes `Current`, and the oldest level (`Previous`)
      becomes the buffer bound at the write slot. */
  function Rotate(s: CurrentWave): (t: CurrentWave)
    ensures PreviousBuffer(t) == CurrentBuffer(s)
    ensures CurrentBuffer(t) == NextBuffer(s)
    ensures NextBuffer(t) == PreviousBuffer(s)
  {
    match s
    case Wave1 => Wave2
    case Wave2 => Wave3
    case Wave3 => Wave1
  }

  /** `n` successive rotations. */
  function Iterate(s: CurrentWave, n: nat): CurrentWave
  {
    if n == 0 then s else Rotate(Iterate(s, n - 1))
  }

  /** An independent reading of the state: an index modulo 3 into
      [W1, W2, W3]. */
  function Index(s: CurrentWave): (i: nat)
    ensures i < 3
  {
    match s
    case Wave1 => 0
    case Wave2 => 1
    case Wave3 => 2
  }

  function BufferAt(i: nat): Buffer
    requires i < 3
  {
    if i == 0 then W1 else if i == 1 then W2 else W3
  }

  /** The three role lookups agree with the modular-index reading:
      `Current` is buffer i, `Next` is buffer i+1 and `Previous` is
      buffer i+2 (= i-1), all modulo 3, and rotation adds one. */
  lemma LookupsAreModularIndex(s: CurrentWave)
    ensures CurrentBuffer(s) == BufferAt(Index(s))
    ensures NextBuffer(s) == BufferAt((Index(s) + 1) % 3)
    ensures PreviousBuffer(s) == BufferAt((Index(s) + 2) % 3)
    ensures Index(Rotate(s)) == (Index(s) + 1) % 3
  {
  }

  /** `n` rotations advance the index by `n` modulo 3. */
  lemma {:induction false} IterateIndex(s: CurrentWave, n: nat)
    ensures Index(Iterate(s, n)) == (Index(s) + n) % 3
  {
    if n > 0 {
      IterateIndex(s, n - 1);
      LookupsAreModularIndex(Iterate(s, n - 1));
    }
  }

  /** Rotation has period exactly 3: three steps return to the start and
      no shorter positive number of steps does. */
  lemma RotationPeriod(s: CurrentWave)
    ensures Rotate(Rotate(Rotate(s))) == s
    ensures Rotate(s) != s
    ensures Rotate(Rotate(s)) != s
  {
  }

  /** After `n` rotations the state is back where it started exactly when
      `n` is a multiple of 3. */
  lemma IterateReturnsIff(s: CurrentWave, n: nat)
    ensures Iterate(s, n) == s <==> n % 3 == 0
  {
    IterateIndex(s, n);
  }

  /** The buffer bound at the write slot (slot 2) in one step is bound
      there again `n` steps later exactly when `n` is a multiple of 3. */
  lemma {:induction false} WriteTargetPeriod(s: CurrentWave, n: nat)
    ensures NextBuffer(Iterate(s, n)) == NextBuffer(s) <==> n % 3 == 0
  {
    IterateIndex(s, n);
    LookupsAreModularIndex(s);
    LookupsAreModularIndex(Iterate(s, n));
  }
}
