/** Row-major enumeration of the lattice and the seed list built from it
    (the nested `for y` / `for x` loops of `SimulationRunner::new`). */
module Lattice {
  import opened Prims

  /** A lattice point: column `x`, row `y`. */
  datatype Point = Point(x: nat, y: nat)

  /** Position of point (x, y) in a row-major list with rows of `nx`. */
  function Offset(nx: nat, x: nat, y: nat): nat
  {
    y * nx + x
  }

  /** Row `y` of the lattice, left to right. */
  function Row(nx: nat, y: nat): seq<Point>
  {
    seq(nx, i requires 0 <= i => Point(i, y))
  }

  /** The first `ny` rows of the lattice in loop order: the outer loop over
      rows, the inner one over columns. */
  function Points(nx: nat, ny: nat): seq<Point>
  {
    if ny == 0 then [] else Points(nx, ny - 1) + Row(nx, ny - 1)
  }

  lemma MulMonotone(a: nat, b: nat, n: nat)
    requires a <= b
    ensures a * n <= b * n
  {
    assert b * n - a * n == (b - a) * n;
  }

  /** Euclidean division is determined by quotient and remainder. */
  lemma DivModUnique(k: int, n: int, q: int, r: int)
    requires n > 0 && 0 <= r < n && k == q * n + r
    ensures k / n == q && k % n == r
  {
    var q', r' := k / n, k % n;
    assert k == q' * n + r';
    if q > q' {
      MulMonotone(1, q - q', n);
      assert false;
    } else if q < q' {
      MulMonotone(1, q' - q, n);
      assert false;
    }
  }

  /** The enumeration has `nx * ny` entries and entry `k` is the point in
      column `k % nx`, row `k / nx`. */
  lemma {:induction false} PointsRowMajor(nx: nat, ny: nat)
    ensures |Points(nx, ny)| == nx * ny
    ensures nx > 0 ==> forall k | 0 <= k < |Points(nx, ny)| :: Points(nx, ny)[k] == Point(k % nx, k / nx)
  {
    if ny > 0 {
      PointsRowMajor(nx, ny - 1);
      var before := Points(nx, ny - 1);
      assert nx * (ny - 1) + nx == nx * ny;
      if nx > 0 {
        forall k | 0 <= k < |Points(nx, ny)|
          ensures Points(nx, ny)[k] == Point(k % nx, k / nx)
        {
          if k >= |before| {
            DivModUnique(k, nx, ny - 1, k - nx * (ny - 1));
          }
        }
      }
    }
  }

  lemma PointsLength(nx: nat, ny: nat)
    ensures |Points(nx, ny)| == nx * ny
  {
    PointsRowMajor(nx, ny);
  }

  lemma PointAt(nx: nat, ny: nat, k: nat)
    requires nx > 0 && k < |Points(nx, ny)|
    ensures Points(nx, ny)[k] == Point(k % nx, k / nx)
  {
    PointsRowMajor(nx, ny);
  }

  /** Conversely, point (x, y) sits at entry `y * nx + x`. */
  lemma PointAtOffset(nx: nat, ny: nat, x: nat, y: nat)
    requires x < nx && y < ny
    ensures Offset(nx, x, y) < |Points(nx, ny)|
    ensures Points(nx, ny)[Offset(nx, x, y)] == Point(x, y)
  {
    PointsRowMajor(nx, ny);
    MulMonotone(y + 1, ny, nx);
    DivModUnique(Offset(nx, x, y), nx, y, x);
  }

  /** Every entry of the enumeration is a point of the lattice. */
  lemma PointsInRange(nx: nat, ny: nat, k: nat)
    requires k < |Points(nx, ny)|
    ensures Points(nx, ny)[k].x < nx && Points(nx, ny)[k].y < ny
  {
    PointsRowMajor(nx, ny);
    assert nx > 0;
    if k / nx >= ny {
      MulMonotone(ny, k / nx, nx);
      assert false;
    }
  }

  /** Distinct entries of the enumeration are distinct points. */
  lemma PointsInjective(nx: nat, ny: nat, i: nat, j: nat)
    requires i < |Points(nx, ny)| && j < |Points(nx, ny)|
    requires Points(nx, ny)[i] == Points(nx, ny)[j]
    ensures i == j
  {
    PointsRowMajor(nx, ny);
    assert nx > 0;
    DivModUnique(j, nx, i / nx, i % nx);
  }

  /** Every lattice point appears in the enumeration, nothing else does,
      and no point appears twice: each is visited exactly once. */
  lemma EachPointOnce(nx: nat, ny: nat)
    ensures forall p: Point :: p in Points(nx, ny) <==> p.x < nx && p.y < ny
    ensures forall i, j | 0 <= i < j < |Points(nx, ny)| :: Points(nx, ny)[i] != Points(nx, ny)[j]
  {
    var pts := Points(nx, ny);
    forall p: Point | p.x < nx && p.y < ny
      ensures p in pts
    {
      PointAtOffset(nx, ny, p.x, p.y);
    }
    forall p | p in pts
      ensures p.x < nx && p.y < ny
    {
      var k :| 0 <= k < |pts| && pts[k] == p;
      PointsInRange(nx, ny, k);
    }
    forall i, j | 0 <= i < j < |pts|
      ensures pts[i] != pts[j]
    {
      if pts[i] == pts[j] {
        PointsInjective(nx, ny, i, j);
      }
    }
  }

  /** The seed list: `psi0` evaluated at every lattice point, in
      enumeration order. */
  function Seeds(nx: nat, ny: nat, psi0: (nat, nat) -> F32): (values: seq<F32>)
  {
    var pts := Points(nx, ny);
    seq(|pts|, k requires 0 <= k < |pts| => psi0(pts[k].x, pts[k].y))
  }

  /** The seed list has exactly `nx * ny` entries; entry `y * nx + x` is the
      value at column `x`, row `y`, and conversely entry `k` is the value at
      column `k % nx`, row `k / nx`. */
  lemma SeedsRowMajor(nx: nat, ny: nat, psi0: (nat, nat) -> F32)
    ensures |Seeds(nx, ny, psi0)| == nx * ny
    ensures forall x: nat, y: nat | x < nx && y < ny ::
              Offset(nx, x, y) < |Seeds(nx, ny, psi0)| && Seeds(nx, ny, psi0)[Offset(nx, x, y)] == psi0(x, y)
    ensures nx > 0 ==> forall k | 0 <= k < |Seeds(nx, ny, psi0)| :: Seeds(nx, ny, psi0)[k] == psi0(k % nx, k / nx)
  {
    var values := Seeds(nx, ny, psi0);
    PointsLength(nx, ny);
    forall x: nat, y: nat | x < nx && y < ny
      ensures Offset(nx, x, y) < |values| && values[Offset(nx, x, y)] == psi0(x, y)
    {
      PointAtOffset(nx, ny, x, y);
    }
    if nx > 0 {
      forall k | 0 <= k < |values|
        ensures values[k] == psi0(k % nx, k / nx)
      {
        PointAt(nx, ny, k);
      }
    }
  }

  /** The construction loop: evaluates `psi0` once per lattice point, row
      by row, appending each value. Returns the values and the points
      queried, in order. */
  method BuildSeeds(nx: nat, ny: nat, psi0: (nat, nat) -> F32)
    returns (values: seq<F32>, queried: seq<Point>)
    ensures queried == Points(nx, ny)
    ensures values == Seeds(nx, ny, psi0)
  {
    values, queried := [], [];
    var y := 0;
    while y < ny
      invariant y <= ny
      invariant queried == Points(nx, y)
      invariant |values| == |queried|
      invariant forall k | 0 <= k < |values| :: values[k] == psi0(queried[k].x, queried[k].y)
    {
      var x := 0;
      while x < nx
        invariant x <= nx
        invariant queried == Points(nx, y) + Row(nx, y)[..x]
        invariant |values| == |queried|
        invariant forall k | 0 <= k < |values| :: values[k] == psi0(queried[k].x, queried[k].y)
      {
        values := values + [psi0(x, y)];
        queried := queried + [Point(x, y)];
        x := x + 1;
      }
      assert Row(nx, y)[..x] == Row(nx, y);
      y := y + 1;
    }
  }
}
