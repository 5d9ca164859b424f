/**
 * The face-culling mesh builder (Chunk.cpp, CalculateGeometry, GetPartIndex,
 * GetTextureCoord).
 *
 * The source writes out one block of six vertex definitions per side; here
 * the six blocks are one table, `Corners`, plus a per-side tangent and
 * normal, and the mesh is a sequence of face records per partition.
 * `SourceFaceVertices` derives from a face record the six vertices the
 * source defines, with its normals; `FaceVertices` derives the same vertices
 * with the outward normal, which differs on FRONT and BACK (see
 * `DepthNormalsPointInward`). Light is kept as the torch and sun nibbles the
 * source divides by 15 to make the vertex colour.
 */
module Mesh {
  import opened Voxel
  import opened Light
  import opened Neighbors

  // ---------------------------------------------------------------------
  // The per-side table.

  /** One vertex of a face: a unit-cube corner offset and the 0/1 texture corner it carries. */
  datatype Corner = Corner(offset: Pos, u: int, v: int)

  /** The six vertices the source defines for side s, first triangle then second. */
  function Corners(s: Side): (cs: seq<Corner>)
    ensures |cs| == 6
  {
    match s
    case Top =>
      [Corner((0, 1, 0), 0, 0), Corner((0, 1, 1), 0, 1), Corner((1, 1, 0), 1, 0),
       Corner((0, 1, 1), 0, 1), Corner((1, 1, 1), 1, 1), Corner((1, 1, 0), 1, 0)]
    case Bottom =>
      [Corner((0, 0, 1), 0, 1), Corner((0, 0, 0), 0, 0), Corner((1, 0, 0), 1, 0),
       Corner((1, 0, 1), 1, 1), Corner((0, 0, 1), 0, 1), Corner((1, 0, 0), 1, 0)]
    case Left =>
      [Corner((0, 0, 1), 0, 1), Corner((0, 1, 1), 0, 0), Corner((0, 0, 0), 1, 1),
       Corner((0, 1, 1), 0, 0), Corner((0, 1, 0), 1, 0), Corner((0, 0, 0), 1, 1)]
    case Right =>
      [Corner((1, 0, 0), 0, 1), Corner((1, 1, 0), 0, 0), Corner((1, 0, 1), 1, 1),
       Corner((1, 1, 0), 0, 0), Corner((1, 1, 1), 1, 0), Corner((1, 0, 1), 1, 1)]
    case Front =>
      [Corner((0, 0, 0), 0, 1), Corner((0, 1, 0), 0, 0), Corner((1, 0, 0), 1, 1),
       Corner((0, 1, 0), 0, 0), Corner((1, 1, 0), 1, 0), Corner((1, 0, 0), 1, 1)]
    case Back =>
      [Corner((1, 0, 1), 0, 1), Corner((1, 1, 1), 0, 0), Corner((0, 0, 1), 1, 1),
       Corner((1, 1, 1), 0, 0), Corner((0, 1, 1), 1, 0), Corner((0, 0, 1), 1, 1)]
  }

  datatype Tangent = Tangent(x: int, y: int, z: int, w: int)

  /**
   * The tangent the source gives every vertex of side s. Its handedness is
   * +1 or -1, and its direction is a unit axis lying in the side's plane on
   * five sides; on LEFT it is (1, 0, 0), along the side's normal axis.
   */
  function FaceTangent(s: Side): (t: Tangent)
    ensures t.w == 1 || t.w == -1
    ensures Dot((t.x, t.y, t.z), (t.x, t.y, t.z)) == 1
    ensures s != Left ==> Dot((t.x, t.y, t.z), Direction(s)) == 0
    ensures s == Left ==> Dot((t.x, t.y, t.z), Direction(s)) == -1
  {
    match s
    case Top => Tangent(0, 0, -1, -1)
    case Bottom => Tangent(1, 0, 0, 1)
    case Left => Tangent(1, 0, 0, 1)
    case Right => Tangent(0, 0, -1, -1)
    case Front => Tangent(1, 0, 0, 1)
    case Back => Tangent(1, 0, 0, 1)
  }

  /**
   * The normal the source gives side s, as written: Vector3::UP, DOWN, LEFT,
   * RIGHT, FORWARD and BACK, with Urho3D's FORWARD = (0, 0, 1) and
   * BACK = (0, 0, -1). `SourceFaceVertices` carries these normals;
   * `FaceVertices` carries `Direction(s)` instead (see
   * `DepthNormalsPointInward`).
   */
  function SourceNormal(s: Side): (n: Pos)
    ensures Dot(n, n) == 1
    ensures Dot(n, Direction(s)) == 1 || Dot(n, Direction(s)) == -1
  {
    match s
    case Top => (0, 1, 0)
    case Bottom => (0, -1, 0)
    case Left => (-1, 0, 0)
    case Right => (1, 0, 0)
    case Front => (0, 0, 1)
    case Back => (0, 0, -1)
  }

  function Sub(a: Pos, b: Pos): Pos {
    var (ax, ay, az) := a;
    var (bx, bY, bz) := b;
    (ax - bx, ay - bY, az - bz)
  }

  function Dot(a: Pos, b: Pos): int {
    a.0 * b.0 + a.1 * b.1 + a.2 * b.2
  }

  function Cross(a: Pos, b: Pos): Pos {
    var (ax, ay, az) := a;
    var (bx, bY, bz) := b;
    (ay * bz - az * bY, az * bx - ax * bz, ax * bY - ay * bx)
  }

  /** The orientation of triangle t (0 or 1) of side s, from its winding. */
  function WindingNormal(s: Side, t: int): Pos
    requires 0 <= t < 2
  {
    var cs := Corners(s);
    var a, b, c := cs[3 * t].offset, cs[3 * t + 1].offset, cs[3 * t + 2].offset;
    Cross(Sub(b, a), Sub(c, a))
  }

  /**
   * Both triangles of every side are wound towards the side's outward
   * direction, the direction in which BlockHaveNeighbor looks for a cover.
   */
  lemma WindingFacesOutward(s: Side, t: int)
    requires 0 <= t < 2
    ensures WindingNormal(s, t) == Direction(s)
  {
    var cs := Corners(s);
    if t == 0 {
      EdgeCrossOutward(s, cs[0].offset, cs[1].offset, cs[2].offset);
    } else {
      EdgeCrossOutward(s, cs[3].offset, cs[4].offset, cs[5].offset);
    }
  }

  lemma EdgeCrossOutward(s: Side, a: Pos, b: Pos, c: Pos)
    requires (a, b, c) == (Corners(s)[0].offset, Corners(s)[1].offset, Corners(s)[2].offset) ||
             (a, b, c) == (Corners(s)[3].offset, Corners(s)[4].offset, Corners(s)[5].offset)
    ensures Cross(Sub(b, a), Sub(c, a)) == Direction(s)
  {
    match s
    case Top =>
    case Bottom =>
    case Left =>
    case Right =>
    case Front =>
    case Back =>
  }

  /**
   * The source's normals agree with the outward direction on four sides and
   * point into the block on the two depth sides, against the winding.
   */
  lemma DepthNormalsPointInward(s: Side)
    ensures s != Front && s != Back ==> SourceNormal(s) == Direction(s)
    ensures s == Front || s == Back ==>
      SourceNormal(s) == (-Direction(s).0, -Direction(s).1, -Direction(s).2) &&
      SourceNormal(s) != WindingNormal(s, 0) && SourceNormal(s) != WindingNormal(s, 1)
  {
    WindingFacesOutward(s, 0);
    WindingFacesOutward(s, 1);
  }

  // ---------------------------------------------------------------------
  // The face's square and its texture cell.

  predicate UnitCorner(o: Pos) {
    0 <= o.0 <= 1 && 0 <= o.1 <= 1 && 0 <= o.2 <= 1
  }

  /** Corner o of the unit cube lies on the plane of side s. */
  predicate OnSidePlane(s: Side, o: Pos) {
    UnitCorner(o) &&
    match s
    case Top => o.1 == 1
    case Bottom => o.1 == 0
    case Left => o.0 == 0
    case Right => o.0 == 1
    case Front => o.2 == 0
    case Back => o.2 == 1
  }

  /** The four corners of side s of the unit cube. */
  function SideSquare(s: Side): (sq: set<Pos>)
    ensures |sq| == 4
    ensures forall o :: o in sq <==> OnSidePlane(s, o)
  {
    match s
    case Top => {(0, 1, 0), (0, 1, 1), (1, 1, 0), (1, 1, 1)}
    case Bottom => {(0, 0, 0), (0, 0, 1), (1, 0, 0), (1, 0, 1)}
    case Left => {(0, 0, 0), (0, 0, 1), (0, 1, 0), (0, 1, 1)}
    case Right => {(1, 0, 0), (1, 0, 1), (1, 1, 0), (1, 1, 1)}
    case Front => {(0, 0, 0), (0, 1, 0), (1, 0, 0), (1, 1, 0)}
    case Back => {(0, 0, 1), (0, 1, 1), (1, 0, 1), (1, 1, 1)}
  }

  /** The corner offsets the six vertices of side s use. */
  function CornerOffsets(s: Side): set<Pos> {
    var cs := Corners(s);
    {cs[0].offset, cs[1].offset, cs[2].offset, cs[3].offset, cs[4].offset, cs[5].offset}
  }

  /**
   * The six vertices of a face cover exactly the four corners of that side of
   * the unit cube: each triangle has three distinct corners, and together
   * they use all four.
   */
  lemma FaceCoversSideSquare(s: Side)
    ensures CornerOffsets(s) == SideSquare(s)
  {
    match s
    case Top => assert CornerOffsets(Top) == SideSquare(Top);
    case Bottom => assert CornerOffsets(Bottom) == SideSquare(Bottom);
    case Left => assert CornerOffsets(Left) == SideSquare(Left);
    case Right => assert CornerOffsets(Right) == SideSquare(Right);
    case Front => assert CornerOffsets(Front) == SideSquare(Front);
    case Back => assert CornerOffsets(Back) == SideSquare(Back);
  }

  /** Triangle t of side s has three distinct corners. */
  lemma TriangleIsProper(s: Side, t: int)
    requires 0 <= t < 2
    ensures var cs := Corners(s);
      cs[3 * t].offset != cs[3 * t + 1].offset &&
      cs[3 * t].offset != cs[3 * t + 2].offset &&
      cs[3 * t + 1].offset != cs[3 * t + 2].offset
  {
  }

  /** Number of atlas rows: one per block type, air and the BT_NONE sentinel excluded. */
  const TEXTURE_COUNT: int := BT_NONE - 1

  /**
   * GetTextureCoord: the atlas has one column per side (in `SIDES` order) and
   * one row per block type after air; (pu, pv) in the unit square map into
   * the cell of column `Ordinal(s)` and row `blockType - 1`. The source
   * computes this in single-precision floats; the model uses exact reals.
   */
  function GetTextureCoord(s: Side, blockType: int, pu: real, pv: real): (uv: (real, real))
    ensures 0.0 <= pu <= 1.0 ==>
      Ordinal(s) as real / 6.0 <= uv.0 <= (Ordinal(s) + 1) as real / 6.0
    ensures 0.0 <= pv <= 1.0 ==>
      (blockType - 1) as real / TEXTURE_COUNT as real <= uv.1 <= blockType as real / TEXTURE_COUNT as real
  {
    var quadX := 1.0 / 6.0;
    var quadY := 1.0 / TEXTURE_COUNT as real;
    var typeOffset := (blockType - 1) as real * quadY;
    (quadX * Ordinal(s) as real + quadX * pu, quadY * pv + typeOffset)
  }

  // ---------------------------------------------------------------------
  // Faces and vertices.

  /** One emitted quad: the voxel, its side, its block type and the light of the cell it faces. */
  datatype Face = Face(cell: Pos, side: Side, blockType: int, torch: int, sun: int)

  datatype Vertex = Vertex(position: Pos, normal: Pos, tangent: Tangent, uv: (real, real), torch: int, sun: int)

  /** Every vertex of side s sits on that side's plane and carries a texture corner in the unit square. */
  lemma CornerOnSidePlane(s: Side, k: int)
    requires 0 <= k < 6
    ensures OnSidePlane(s, Corners(s)[k].offset)
    ensures 0 <= Corners(s)[k].u <= 1 && 0 <= Corners(s)[k].v <= 1
  {
  }

  /** Vertex k of face f. */
  function VertexAt(f: Face, k: int): (v: Vertex)
    requires 0 <= k < 6
    ensures Sub(v.position, f.cell) == Corners(f.side)[k].offset
    ensures OnSidePlane(f.side, Sub(v.position, f.cell))
    ensures v.normal == Direction(f.side) && v.tangent == FaceTangent(f.side)
    ensures v.torch == f.torch && v.sun == f.sun
    ensures Ordinal(f.side) as real / 6.0 <= v.uv.0 <= (Ordinal(f.side) + 1) as real / 6.0
    ensures (f.blockType - 1) as real / TEXTURE_COUNT as real <= v.uv.1 <= f.blockType as real / TEXTURE_COUNT as real
  {
    var c := Corners(f.side)[k];
    CornerOnSidePlane(f.side, k);
    Vertex(Add(f.cell, c.offset), Direction(f.side), FaceTangent(f.side),
           GetTextureCoord(f.side, f.blockType, c.u as real, c.v as real), f.torch, f.sun)
  }

  /** The unit-cube corners six vertices of the voxel at `cell` use. */
  function CornersUsed(vs: seq<Vertex>, cell: Pos): set<Pos>
    requires |vs| == 6
  {
    {Sub(vs[0].position, cell), Sub(vs[1].position, cell), Sub(vs[2].position, cell),
     Sub(vs[3].position, cell), Sub(vs[4].position, cell), Sub(vs[5].position, cell)}
  }

  /**
   * The six vertices of face f with the corrected normal: the source's corner
   * positions on the side's plane of the voxel's unit cube, its tangent,
   * texture coordinates in the atlas cell of the side and block type, and the
   * face's light on every vertex, but the side's outward normal
   * `Direction(s)` where the source has `SourceNormal(s)`.
   */
  function FaceVertices(f: Face): (vs: seq<Vertex>)
    ensures |vs| == 6
    ensures forall k :: 0 <= k < 6 ==>
      OnSidePlane(f.side, Sub(vs[k].position, f.cell)) &&
      vs[k].normal == Direction(f.side) &&
      vs[k].tangent == FaceTangent(f.side) &&
      vs[k].torch == f.torch && vs[k].sun == f.sun &&
      Ordinal(f.side) as real / 6.0 <= vs[k].uv.0 <= (Ordinal(f.side) + 1) as real / 6.0 &&
      (f.blockType - 1) as real / TEXTURE_COUNT as real <= vs[k].uv.1 <= f.blockType as real / TEXTURE_COUNT as real
  {
    seq(6, k requires 0 <= k < 6 => VertexAt(f, k))
  }

  /** The six vertices of face f as the source defines them, with the source's normal. */
  function SourceFaceVertices(f: Face): (vs: seq<Vertex>)
    ensures |vs| == 6
    ensures forall k :: 0 <= k < 6 ==> vs[k].normal == SourceNormal(f.side)
  {
    seq(6, k requires 0 <= k < 6 => VertexAt(f, k).(normal := SourceNormal(f.side)))
  }

  /**
   * The corrected vertices differ from the source's only in the normal, and
   * only on the two depth sides: they are the same sequence exactly when the
   * side is neither FRONT nor BACK.
   */
  lemma SourceFaceVerticesDiffer(f: Face)
    ensures forall k :: 0 <= k < 6 ==>
      SourceFaceVertices(f)[k] == FaceVertices(f)[k].(normal := SourceNormal(f.side))
    ensures SourceFaceVertices(f) == FaceVertices(f) <==> f.side != Front && f.side != Back
  {
    DepthNormalsPointInward(f.side);
    if f.side == Front || f.side == Back {
      assert SourceFaceVertices(f)[0].normal != FaceVertices(f)[0].normal;
    } else {
      assert forall k :: 0 <= k < 6 ==> SourceFaceVertices(f)[k] == FaceVertices(f)[k];
    }
  }

  /** The two triangles of a face together cover the whole side of the voxel's unit cube. */
  lemma FaceCoversSide(f: Face)
    ensures CornersUsed(FaceVertices(f), f.cell) == SideSquare(f.side)
  {
    var vs := FaceVertices(f);
    assert CornersUsed(vs, f.cell) == CornerOffsets(f.side) by {
      assert forall k :: 0 <= k < 6 ==> Sub(vs[k].position, f.cell) == Corners(f.side)[k].offset;
    }
    FaceCoversSideSquare(f.side);
  }

  /** The vertices of a partition, face after face. */
  function PartVertices(faces: seq<Face>): (vs: seq<Vertex>)
    ensures |vs| == 6 * |faces|
  {
    if faces == [] then [] else FaceVertices(faces[0]) + PartVertices(faces[1..])
  }

  function TotalFaces(parts: seq<seq<Face>>): nat {
    if parts == [] then 0 else |parts[0]| + TotalFaces(parts[1..])
  }

  /** The vertices of every partition, partition after partition. */
  function MeshVertices(parts: seq<seq<Face>>): (vs: seq<Vertex>)
    ensures |vs| == 6 * TotalFaces(parts)
  {
    if parts == [] then [] else PartVertices(parts[0]) + MeshVertices(parts[1..])
  }

  // ---------------------------------------------------------------------
  // Partitions.

  /** C++ integer division, which truncates towards zero. */
  function TruncDiv(a: int, b: int): int
    requires b > 0
  {
    if a >= 0 then a / b else -((-a) / b)
  }

  /** GetPartIndex for a chunk `sizeX` wide split into `partCount` parts. */
  function PartIndexFor(x: int, sizeX: int, partCount: int): int
    requires 0 < partCount <= sizeX
  {
    TruncDiv(x, sizeX / partCount)
  }

  /** When the parts divide the width evenly, every column falls into a part. */
  lemma PartIndexInRange(x: int, sizeX: int, partCount: int)
    requires 0 < partCount <= sizeX && sizeX % partCount == 0
    requires 0 <= x < sizeX
    ensures 0 <= PartIndexFor(x, sizeX, partCount) < partCount
  {
    var w := sizeX / partCount;
    assert sizeX == w * partCount;
    var q := x / w;
    assert q * w <= x;
    ProductOrder(q, partCount, w);
  }

  lemma ProductOrder(a: int, b: int, w: int)
    requires w > 0 && a * w < b * w
    ensures a < b
  {
    assert (b - a) * w > 0;
  }

  /** Without even division the last columns fall past the last part. */
  lemma PartIndexNeedsEvenSplit()
    ensures PartIndexFor(9, 10, 4) == 4
  {
  }

  /** GetPartIndex: the X bucket of a column, one of the PART_COUNT parts. */
  function GetPartIndex(x: int, y: int, z: int): (p: int)
    ensures 0 <= x < SIZE_X ==> 0 <= p < PART_COUNT
  {
    if 0 <= x < SIZE_X then PartIndexInRange(x, SIZE_X, PART_COUNT); PartIndexFor(x, SIZE_X, PART_COUNT)
    else PartIndexFor(x, SIZE_X, PART_COUNT)
  }

  // ---------------------------------------------------------------------
  // The mesh as a function of the chunk's state.

  /** What CalculateGeometry reads: this chunk's grids and position, the registry, and `shouldDelete_`. */
  datatype Input = Input(blocks: seq<int>, light: seq<bv8>, position: Pos, world: World, shouldDelete: bool)

  predicate Ready(m: Input) {
    |m.blocks| == CELLS && |m.light| == CELLS && WellFormedWorld(m.world)
  }

  /** Whether side s of voxel (x, y, z) gets a quad. */
  predicate Emits(m: Input, x: int, y: int, z: int, s: Side)
    requires Ready(m) && InChunk(x, y, z)
  {
    m.blocks[Index(x, y, z)] != BT_AIR && !m.shouldDelete &&
    !BlockHaveNeighbor(m.blocks, m.position, m.world, s, x, y, z)
  }

  /** The face record for side s of voxel (x, y, z), lit by the cell it faces. */
  function FaceAt(m: Input, x: int, y: int, z: int, s: Side): Face
    requires Ready(m) && InChunk(x, y, z)
  {
    var l := NeighborLightValue(m.light, m.position, m.world, s, x, y, z);
    Face((x, y, z), s, m.blocks[Index(x, y, z)], TorchOf(l), SunOf(l))
  }

  function FacesFor(m: Input, x: int, y: int, z: int, sides: seq<Side>): seq<Face>
    requires Ready(m) && InChunk(x, y, z)
  {
    if sides == [] then []
    else
      (if BlockHaveNeighbor(m.blocks, m.position, m.world, sides[0], x, y, z) then []
       else [FaceAt(m, x, y, z, sides[0])])
      + FacesFor(m, x, y, z, sides[1..])
  }

  /** The quads one voxel contributes, sides in the source's order. */
  function CellFaces(m: Input, x: int, y: int, z: int): seq<Face>
    requires Ready(m) && InChunk(x, y, z)
  {
    if m.blocks[Index(x, y, z)] != BT_AIR && !m.shouldDelete then FacesFor(m, x, y, z, SIDES) else []
  }

  function EmptyParts(): (parts: seq<seq<Face>>)
    ensures |parts| == PART_COUNT
    ensures forall p :: 0 <= p < PART_COUNT ==> parts[p] == []
  {
    seq(PART_COUNT, _ => [])
  }

  /** The quads of every voxel, by offset in the chunk's layout. */
  function CellTable(m: Input): (table: seq<seq<Face>>)
    requires Ready(m)
    ensures |table| == CELLS
  {
    seq(CELLS, i requires 0 <= i < CELLS => var c := CoordOf(i); CellFaces(m, c.0, c.1, c.2))
  }

  /** The partition of the voxel at each offset. */
  function PartTable(): (owner: seq<int>)
    ensures Owners(owner)
  {
    seq(CELLS, i requires 0 <= i < CELLS => var c := CoordOf(i); GetPartIndex(c.0, c.1, c.2))
  }

  /** `owner` gives every offset of the chunk a partition. */
  predicate Owners(owner: seq<int>) {
    |owner| == CELLS && forall i :: 0 <= i < CELLS ==> 0 <= owner[i] < PART_COUNT
  }

  /**
   * The partitions after the voxels at offsets below n have been visited,
   * the quads of each voxel appended to the partition `owner` gives it.
   */
  function MeshUpTo(table: seq<seq<Face>>, owner: seq<int>, n: int): (parts: seq<seq<Face>>)
    requires |table| == CELLS && Owners(owner) && 0 <= n <= CELLS
    ensures |parts| == PART_COUNT
  {
    if n == 0 then EmptyParts()
    else
      var prev := MeshUpTo(table, owner, n - 1);
      var p := owner[n - 1];
      prev[p := prev[p] + table[n - 1]]
  }

  /** The partitions CalculateGeometry builds. */
  function BuildMesh(m: Input): (parts: seq<seq<Face>>)
    requires Ready(m)
    ensures |parts| == PART_COUNT
  {
    MeshUpTo(CellTable(m), PartTable(), CELLS)
  }

  /**
   * Visiting voxel (x, y, z) appends its quads to its partition; an air or
   * deleted voxel leaves the partitions as they were.
   */
  lemma MeshStep(m: Input, x: int, y: int, z: int)
    requires Ready(m) && InChunk(x, y, z)
    ensures var prev := MeshUpTo(CellTable(m), PartTable(), Index(x, y, z));
      var p := GetPartIndex(x, y, z);
      MeshUpTo(CellTable(m), PartTable(), Index(x, y, z) + 1) ==
        if m.blocks[Index(x, y, z)] != BT_AIR && !m.shouldDelete then prev[p := prev[p] + FacesFor(m, x, y, z, SIDES)] else prev
  {
    CoordOfIndex(x, y, z);
    var prev := MeshUpTo(CellTable(m), PartTable(), Index(x, y, z));
    var p := GetPartIndex(x, y, z);
    if CellFaces(m, x, y, z) == [] {
      assert prev[p] + [] == prev[p];
    }
  }

  // ---------------------------------------------------------------------
  // What the mesh contains.

  lemma {:induction false} FacesForContents(m: Input, x: int, y: int, z: int, sides: seq<Side>, f: Face)
    requires Ready(m) && InChunk(x, y, z)
    ensures f in FacesFor(m, x, y, z, sides) <==>
      f.side in sides && f == FaceAt(m, x, y, z, f.side) &&
      !BlockHaveNeighbor(m.blocks, m.position, m.world, f.side, x, y, z)
  {
    if sides != [] {
      FacesForContents(m, x, y, z, sides[1..], f);
      assert sides == [sides[0]] + sides[1..];
    }
  }

  /** Face f is the face of an emitting side of a voxel of the chunk. */
  predicate Drawn(m: Input, f: Face)
    requires Ready(m)
  {
    InChunkAt(f.cell) && f == FaceAt(m, f.cell.0, f.cell.1, f.cell.2, f.side) &&
    Emits(m, f.cell.0, f.cell.1, f.cell.2, f.side)
  }

  /** A voxel's quads are exactly the faces of its emitting sides. */
  lemma CellFacesContents(m: Input, x: int, y: int, z: int, f: Face)
    requires Ready(m) && InChunk(x, y, z)
    ensures f in CellFaces(m, x, y, z) <==> f.cell == (x, y, z) && Drawn(m, f)
  {
    FacesForContents(m, x, y, z, SIDES, f);
    assert f.side in SIDES by {
      assert SIDES[Ordinal(f.side)] == f.side;
    }
  }

  /** Partition p after n voxels holds exactly the quads of the voxels below n that fall into p. */
  lemma {:induction false} MeshUpToContents(table: seq<seq<Face>>, owner: seq<int>, n: int, p: int, f: Face)
    requires |table| == CELLS && Owners(owner) && 0 <= n <= CELLS && 0 <= p < PART_COUNT
    ensures f in MeshUpTo(table, owner, n)[p] <==> exists i :: 0 <= i < n && owner[i] == p && f in table[i]
  {
    if n > 0 {
      MeshUpToContents(table, owner, n - 1, p, f);
    }
  }

  /** Face f belongs in partition p: a side of a voxel of the chunk that emits, in its voxel's partition. */
  predicate Emitted(m: Input, p: int, f: Face)
    requires Ready(m)
  {
    Drawn(m, f) && p == GetPartIndex(f.cell.0, f.cell.1, f.cell.2)
  }

  /**
   * What CalculateGeometry emits: partition p holds side s of voxel (x, y, z)
   * exactly when p is the voxel's partition, the voxel is not air, the chunk
   * is not marked for deletion and BlockHaveNeighbor is false for that side;
   * and it holds nothing else.
   */
  lemma MeshContents(m: Input, p: int, f: Face)
    requires Ready(m) && 0 <= p < PART_COUNT
    ensures f in BuildMesh(m)[p] <==> Emitted(m, p, f)
  {
    var table, owner := CellTable(m), PartTable();
    MeshUpToContents(table, owner, CELLS, p, f);
    if f in BuildMesh(m)[p] {
      var i :| 0 <= i < CELLS && owner[i] == p && f in table[i];
      var c := CoordOf(i);
      CellFacesContents(m, c.0, c.1, c.2, f);
    }
    if Emitted(m, p, f) {
      var i := IndexAt(f.cell);
      CoordOfIndex(f.cell.0, f.cell.1, f.cell.2);
      CellFacesContents(m, f.cell.0, f.cell.1, f.cell.2, f);
      assert owner[i] == p && f in table[i];
    }
  }

  /** The face of two adjacent blocks of the chunk is drawn by neither. */
  lemma SharedFaceNotEmitted(m: Input, x: int, y: int, z: int, s: Side, p: int, f: Face)
    requires Ready(m) && 0 <= p < PART_COUNT && InChunk(x, y, z)
    requires InChunkAt(Add((x, y, z), Direction(s)))
    requires m.blocks[Index(x, y, z)] != BT_AIR && m.blocks[IndexAt(Add((x, y, z), Direction(s)))] != BT_AIR
    requires f in BuildMesh(m)[p]
    ensures !(f.cell == (x, y, z) && f.side == s)
    ensures !(f.cell == Add((x, y, z), Direction(s)) && f.side == Opposite(s))
  {
    MeshContents(m, p, f);
  }

  /**
   * With this chunk registered in the world, side s of voxel (x, y, z) is
   * drawn exactly when the voxel is solid, the chunk is not being deleted and
   * the world cell it faces is air or belongs to a chunk not yet registered.
   */
  lemma FaceDrawnWhereWorldIsOpen(m: Input, x: int, y: int, z: int, s: Side)
    requires Ready(m) && Aligned(m.position) && InChunk(x, y, z)
    ensures var self := m.world[m.position := ChunkView(m.blocks, m.light)];
      FaceAt(m, x, y, z, s) in BuildMesh(m)[GetPartIndex(x, y, z)] <==>
      m.blocks[Index(x, y, z)] != BT_AIR && !m.shouldDelete &&
      match WorldBlock(self, Add(Add(m.position, (x, y, z)), Direction(s)))
      case Some(b) => b == BT_AIR
      case None => true
  {
    MeshContents(m, GetPartIndex(x, y, z), FaceAt(m, x, y, z, s));
    BlockHaveNeighborIsWorldOcclusion(m.blocks, m.light, m.position, m.world, s, x, y, z);
  }

  // ---------------------------------------------------------------------
  // Counting.

  lemma {:induction false} TotalFacesAppend(parts: seq<seq<Face>>, p: int, extra: seq<Face>)
    requires 0 <= p < |parts|
    ensures TotalFaces(parts[p := parts[p] + extra]) == TotalFaces(parts) + |extra|
  {
    if p > 0 {
      TotalFacesAppend(parts[1..], p - 1, extra);
      assert parts[p := parts[p] + extra][1..] == parts[1..][p - 1 := parts[1..][p - 1] + extra];
    }
  }

  lemma {:induction false} TotalFacesOfEmpty(parts: seq<seq<Face>>)
    requires forall p :: 0 <= p < |parts| ==> parts[p] == []
    ensures TotalFaces(parts) == 0
  {
    if parts != [] {
      TotalFacesOfEmpty(parts[1..]);
    }
  }

  /** Every quad is kept: the partitions after n voxels hold as many quads as those voxels produced. */
  lemma {:induction false} MeshUpToCount(table: seq<seq<Face>>, owner: seq<int>, n: int)
    requires |table| == CELLS && Owners(owner) && 0 <= n <= CELLS
    ensures TotalFaces(MeshUpTo(table, owner, n)) == TotalFaces(table[..n])
  {
    if n == 0 {
      TotalFacesOfEmpty(EmptyParts());
    } else {
      MeshUpToCount(table, owner, n - 1);
      TotalFacesAppend(MeshUpTo(table, owner, n - 1), owner[n - 1], table[n - 1]);
      TotalFacesSnoc(table[..n - 1], table[n - 1]);
      assert table[..n] == table[..n - 1] + [table[n - 1]];
    }
  }

  lemma {:induction false} TotalFacesSnoc(parts: seq<seq<Face>>, extra: seq<Face>)
    ensures TotalFaces(parts + [extra]) == TotalFaces(parts) + |extra|
  {
    if parts != [] {
      TotalFacesSnoc(parts[1..], extra);
      assert (parts + [extra])[1..] == parts[1..] + [extra];
    }
  }

  /** A table with one non-empty entry holds that entry's faces. */
  lemma {:induction false} TotalFacesSingle(parts: seq<seq<Face>>, c: int)
    requires 0 <= c < |parts|
    requires forall i :: 0 <= i < |parts| && i != c ==> parts[i] == []
    ensures TotalFaces(parts) == |parts[c]|
  {
    if c == 0 {
      TotalFacesOfEmpty(parts[1..]);
    } else {
      TotalFacesSingle(parts[1..], c - 1);
    }
  }

  lemma {:induction false} FacesForAllOpen(m: Input, x: int, y: int, z: int, sides: seq<Side>)
    requires Ready(m) && InChunk(x, y, z)
    requires forall s :: s in sides ==> !BlockHaveNeighbor(m.blocks, m.position, m.world, s, x, y, z)
    ensures |FacesFor(m, x, y, z, sides)| == |sides|
  {
    if sides != [] {
      FacesForAllOpen(m, x, y, z, sides[1..]);
    }
  }

  /**
   * A solid voxel of a live, aligned chunk whose six neighbouring world cells
   * are each air or not loaded gets six quads.
   */
  lemma OpenVoxelHasSixFaces(m: Input, x: int, y: int, z: int)
    requires Ready(m) && Aligned(m.position) && InChunk(x, y, z) && !m.shouldDelete
    requires m.blocks[Index(x, y, z)] != BT_AIR
    requires forall s :: s in SIDES ==>
      var b := WorldBlock(m.world[m.position := ChunkView(m.blocks, m.light)], Add(Add(m.position, (x, y, z)), Direction(s)));
      b == None || b == Some(BT_AIR)
    ensures |CellFaces(m, x, y, z)| == 6
  {
    forall s | s in SIDES ensures !BlockHaveNeighbor(m.blocks, m.position, m.world, s, x, y, z) {
      BlockHaveNeighborIsWorldOcclusion(m.blocks, m.light, m.position, m.world, s, x, y, z);
    }
    FacesForAllOpen(m, x, y, z, SIDES);
  }

  /** Air voxels contribute no quads. */
  lemma AirCellsAreEmpty(m: Input, c: int)
    requires Ready(m) && 0 <= c < CELLS
    requires forall i :: 0 <= i < CELLS && i != c ==> m.blocks[i] == BT_AIR
    ensures forall i :: 0 <= i < CELLS && i != c ==> CellTable(m)[i] == []
  {
    forall i | 0 <= i < CELLS && i != c ensures CellTable(m)[i] == [] {
      var cc := CoordOf(i);
      assert m.blocks[Index(cc.0, cc.1, cc.2)] == BT_AIR;
    }
  }

  /**
   * A single solid voxel in a chunk whose other cells are air, with every
   * registered neighbour chunk all air, gets all six quads.
   */
  lemma IsolatedVoxelHasSixFaces(m: Input, x: int, y: int, z: int)
    requires Ready(m) && InChunk(x, y, z) && !m.shouldDelete
    requires m.blocks[Index(x, y, z)] != BT_AIR
    requires forall i :: 0 <= i < CELLS && i != Index(x, y, z) ==> m.blocks[i] == BT_AIR
    requires forall p, i :: p in m.world && 0 <= i < CELLS ==> m.world[p].blocks[i] == BT_AIR
    ensures TotalFaces(BuildMesh(m)) == 6
  {
    var c := Index(x, y, z);
    forall s | s in SIDES ensures !BlockHaveNeighbor(m.blocks, m.position, m.world, s, x, y, z) {
      var st := StepAcross(s, x, y, z);
      if st.inside {
        assert IndexAt(st.cell) != Index(x, y, z);
      }
    }
    FacesForAllOpen(m, x, y, z, SIDES);
    CoordOfIndex(x, y, z);
    AirCellsAreEmpty(m, c);
    SingleCellMeshCount(CellTable(m), PartTable(), c);
  }

  /** When only the voxel at offset c has quads, the mesh holds exactly those. */
  lemma SingleCellMeshCount(table: seq<seq<Face>>, owner: seq<int>, c: int)
    requires |table| == CELLS && Owners(owner) && 0 <= c < CELLS
    requires forall i :: 0 <= i < CELLS && i != c ==> table[i] == []
    ensures TotalFaces(MeshUpTo(table, owner, CELLS)) == |table[c]|
  {
    TotalFacesSingle(table, c);
    MeshUpToCount(table, owner, CELLS);
    assert table[..CELLS] == table;
  }

  /** ... and so the mesh of such a chunk has 36 vertices, two triangles per side. */
  lemma IsolatedVoxelHasThirtySixVertices(m: Input, x: int, y: int, z: int)
    requires Ready(m) && InChunk(x, y, z) && !m.shouldDelete
    requires m.blocks[Index(x, y, z)] != BT_AIR
    requires forall i :: 0 <= i < CELLS && i != Index(x, y, z) ==> m.blocks[i] == BT_AIR
    requires forall p, i :: p in m.world && 0 <= i < CELLS ==> m.world[p].blocks[i] == BT_AIR
    ensures |MeshVertices(BuildMesh(m))| == 36
  {
    IsolatedVoxelHasSixFaces(m, x, y, z);
  }
}
