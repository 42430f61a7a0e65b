/** Integer 3-vectors (the source's Vector3i) and the row-major voxel indexing
    shared by every per-voxel array of a block area. */
module Vectors {

  datatype Vec3 = Vec3(x: int, y: int, z: int) {

    function Add(o: Vec3): Vec3 {
      Vec3(x + o.x, y + o.y, z + o.z)
    }

    function Sub(o: Vec3): Vec3 {
      Vec3(x - o.x, y - o.y, z - o.z)
    }
  }

  const Zero: Vec3 := Vec3(0, 0, 0)

  /** A size is a non-negative extent on each axis. */
  predicate IsSize(s: Vec3) {
    s.x >= 0 && s.y >= 0 && s.z >= 0
  }

  /** `p` lies in the box [0, s.x) x [0, s.y) x [0, s.z). */
  predicate InBox(p: Vec3, s: Vec3) {
    0 <= p.x < s.x && 0 <= p.y < s.y && 0 <= p.z < s.z
  }

  /** Number of voxels of a box of size `s`. */
  function Volume(s: Vec3): int {
    s.x * s.y * s.z
  }

  /** The array offset of relative position `p` in a box of size `s`:
      X varies fastest, then Z, then Y. */
  function Index(p: Vec3, s: Vec3): int {
    (p.y * s.z + p.z) * s.x + p.x
  }

  /** The relative position stored at array offset `i` of a box of size `s`
      (the inverse of `Index`). */
  function PosOf(i: int, s: Vec3): Vec3
    requires s.x > 0 && s.z > 0
  {
    var t := i / s.x;
    Vec3(i % s.x, t / s.z, t % s.z)
  }

  // ---- arithmetic helpers ------------------------------------------------

  lemma MulMonotone(a: int, b: int, c: int)
    requires a <= b && c >= 0
    ensures a * c <= b * c
  {
  }

  lemma DivModUnique(n: int, c: int, q: int, r: int)
    requires c > 0 && 0 <= r < c && n == q * c + r
    ensures n / c == q && n % c == r
  {
    var q' := n / c;
    var r' := n % c;
    assert n == q' * c + r';
    assert (q - q') * c == r' - r;
    if q > q' {
      MulMonotone(1, q - q', c);
    } else if q < q' {
      MulMonotone(1, q' - q, c);
    }
  }

  lemma DivBound(n: int, c: int, m: int)
    requires c > 0 && 0 <= n < m * c
    ensures 0 <= n / c < m
  {
    var q := n / c;
    assert n == q * c + n % c;
    if q >= m {
      MulMonotone(m, q, c);
    }
    if q < 0 {
      MulMonotone(q, -1, c);
    }
  }

  /** Offsets of valid positions lie in [0, Volume(s)). */
  lemma IndexInRange(p: Vec3, s: Vec3)
    requires InBox(p, s)
    ensures 0 <= Index(p, s) < Volume(s)
  {
    var row := p.y * s.z + p.z;
    MulMonotone(0, p.y, s.z);
    MulMonotone(p.y + 1, s.y, s.z);
    assert 0 <= row < s.y * s.z;
    MulMonotone(0, row, s.x);
    MulMonotone(row + 1, s.y * s.z, s.x);
    assert (s.y * s.z) * s.x == s.x * s.y * s.z;
  }

  /** Decoding the offset of a valid position gives the position back. */
  lemma PosOfIndex(p: Vec3, s: Vec3)
    requires InBox(p, s)
    ensures PosOf(Index(p, s), s) == p
  {
    var row := p.y * s.z + p.z;
    DivModUnique(Index(p, s), s.x, row, p.x);
    DivModUnique(row, s.z, p.y, p.z);
  }

  /** A box of non-negative extents has a non-negative volume. */
  lemma VolumeNonNegative(s: Vec3)
    requires IsSize(s)
    ensures Volume(s) >= 0
  {
    MulMonotone(0, s.x, s.y);
    MulMonotone(0, s.x * s.y, s.z);
  }

  /** A box with at least one voxel has a positive extent on every axis. */
  lemma VolumePositive(s: Vec3)
    requires IsSize(s) && Volume(s) > 0
    ensures s.x > 0 && s.y > 0 && s.z > 0
  {
  }

  /** Every offset in [0, Volume(s)) decodes to a valid position whose offset it is. */
  lemma IndexOfPos(i: int, s: Vec3)
    requires IsSize(s) && 0 <= i < Volume(s)
    ensures s.x > 0 && s.z > 0
    ensures InBox(PosOf(i, s), s) && Index(PosOf(i, s), s) == i
  {
    VolumePositive(s);
    var t := i / s.x;
    assert i < (s.y * s.z) * s.x;
    DivBound(i, s.x, s.y * s.z);
    DivBound(t, s.z, s.y);
    assert i == t * s.x + i % s.x;
    assert t == (t / s.z) * s.z + t % s.z;
  }

  /** `Index` is a bijection from the valid positions of `s` onto [0, Volume(s)). */
  lemma IndexBijection(s: Vec3)
    requires IsSize(s)
    ensures forall p :: InBox(p, s) ==> 0 <= Index(p, s) < Volume(s)
    ensures forall p, q :: InBox(p, s) && InBox(q, s) && Index(p, s) == Index(q, s) ==> p == q
    ensures s.x > 0 && s.z > 0 ==>
      forall i :: 0 <= i < Volume(s) ==> InBox(PosOf(i, s), s) && Index(PosOf(i, s), s) == i
  {
    forall p | InBox(p, s)
      ensures 0 <= Index(p, s) < Volume(s)
    {
      IndexInRange(p, s);
    }
    forall p, q | InBox(p, s) && InBox(q, s) && Index(p, s) == Index(q, s)
      ensures p == q
    {
      PosOfIndex(p, s);
      PosOfIndex(q, s);
    }
    if s.x > 0 && s.z > 0 {
      forall i | 0 <= i < Volume(s)
        ensures InBox(PosOf(i, s), s) && Index(PosOf(i, s), s) == i
      {
        IndexOfPos(i, s);
      }
    }
  }
}
