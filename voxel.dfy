/**
 * Shared vocabulary of the voxel chunk engine: the chunk dimensions, the
 * block-type codes, the layout of a chunk's cells in memory and the six
 * sides of a block.
 *
 * The source keeps a chunk's blocks and light levels in C arrays
 * `T data_[SIZE_X][SIZE_Y][SIZE_Z]`, which are laid out contiguously in
 * row-major order; `Index` is that layout, and every grid in this model is a
 * flat sequence or array of `CELLS` entries addressed through it.
 */
module Voxel {

  // Chunk dimensions and partition count (declared in Chunk.h, which is not
  // part of this model; the proofs rely only on the relations stated in
  // `DimensionsAgree`).
  const SIZE_X: int := 16
  const SIZE_Y: int := 16
  const SIZE_Z: int := 16
  const CELLS: int := 4096
  const PART_COUNT: int := 4

  // Block-type codes. Air is code 0: HandleHit treats a non-zero type as
  // "there is a block here". BT_NONE is the sentinel after the last real
  // type; the texture atlas has BT_NONE - 1 rows.
  const BT_AIR: int := 0
  const BT_TORCH: int := 5
  const BT_NONE: int := 7

  /** The brightest light level a nibble holds; a torch cell is seeded with it. */
  const MAX_LIGHT: int := 15

  datatype Option<T> = None | Some(value: T)

  /** An integer triple: a local cell coordinate, a world position or an offset. */
  type Pos = (int, int, int)

  lemma DimensionsAgree()
    ensures CELLS == SIZE_X * SIZE_Y * SIZE_Z
    ensures 0 < PART_COUNT <= SIZE_X && SIZE_X % PART_COUNT == 0
    ensures BT_AIR != BT_TORCH && 1 <= BT_TORCH < BT_NONE
  {
  }

  /** The cell (x, y, z) lies inside the chunk's grid. */
  predicate InChunk(x: int, y: int, z: int) {
    0 <= x < SIZE_X && 0 <= y < SIZE_Y && 0 <= z < SIZE_Z
  }

  predicate InChunkAt(c: Pos) {
    InChunk(c.0, c.1, c.2)
  }

  function IndexAt(c: Pos): (i: int)
    requires InChunkAt(c)
    ensures 0 <= i < CELLS
  {
    Index(c.0, c.1, c.2)
  }

  /** Offset of cell (x, y, z) in the row-major layout of a chunk's arrays. */
  function Index(x: int, y: int, z: int): (i: int)
    requires InChunk(x, y, z)
    ensures 0 <= i < CELLS
  {
    x * (SIZE_Y * SIZE_Z) + y * SIZE_Z + z
  }

  /** The cell stored at offset i; the inverse of `Index`. */
  function CoordOf(i: int): (c: Pos)
    requires 0 <= i < CELLS
    ensures InChunk(c.0, c.1, c.2) && Index(c.0, c.1, c.2) == i
  {
    (i / (SIZE_Y * SIZE_Z), (i / SIZE_Z) % SIZE_Y, i % SIZE_Z)
  }

  lemma CoordOfIndex(x: int, y: int, z: int)
    requires InChunk(x, y, z)
    ensures CoordOf(Index(x, y, z)) == (x, y, z)
  {
    var i := Index(x, y, z);
    DivModUnique(i, SIZE_Y * SIZE_Z, x, y * SIZE_Z + z);
    DivModUnique(i, SIZE_Z, x * SIZE_Y + y, z);
    DivModUnique(x * SIZE_Y + y, SIZE_Y, x, y);
  }

  /** Quotient and remainder are the only pair that rebuilds n. */
  lemma DivModUnique(n: int, d: int, q: int, r: int)
    requires 0 < d && 0 <= r < d && n == q * d + r
    ensures n / d == q && n % d == r
  {
    var q', r' := n / d, n % d;
    MulSub(q', q, d);
    if q' > q {
      MulAtLeast(q' - q, d);
    } else if q' < q {
      MulAtLeast(q - q', d);
      MulSub(q, q', d);
    }
  }

  lemma MulSub(a: int, b: int, d: int)
    ensures a * d - b * d == (a - b) * d
  {
  }

  lemma MulAtLeast(k: int, d: int)
    requires k >= 1 && d > 0
    ensures k * d >= d
  {
    assert (k - 1) * d >= 0;
  }

  /** The six sides of a block, in the order the mesh builder visits them. */
  datatype Side = Top | Bottom | Left | Right | Front | Back

  const SIDES: seq<Side> := [Top, Bottom, Left, Right, Front, Back]

  /** Position of a side in `SIDES`, which is also its column in the texture atlas. */
  function Ordinal(s: Side): (k: int)
    ensures 0 <= k < 6 && SIDES[k] == s
  {
    match s
    case Top => 0
    case Bottom => 1
    case Left => 2
    case Right => 3
    case Front => 4
    case Back => 5
  }

  /** Unit step from a cell to its neighbour across side s. */
  function Direction(s: Side): Pos {
    match s
    case Top => (0, 1, 0)
    case Bottom => (0, -1, 0)
    case Left => (-1, 0, 0)
    case Right => (1, 0, 0)
    case Front => (0, 0, -1)
    case Back => (0, 0, 1)
  }

  function Opposite(s: Side): (o: Side)
    ensures Direction(o) == (-Direction(s).0, -Direction(s).1, -Direction(s).2)
  {
    match s
    case Top => Bottom
    case Bottom => Top
    case Left => Right
    case Right => Left
    case Front => Back
    case Back => Front
  }

  function Add(a: Pos, b: Pos): Pos {
    (a.0 + b.0, a.1 + b.1, a.2 + b.2)
  }
}
