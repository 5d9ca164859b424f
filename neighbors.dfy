/**
 * Neighbour resolution across chunk edges (Chunk.cpp, NeighborLightValue,
 * BlockHaveNeighbor and GetNeighbor).
 *
 * A chunk never holds a reference to another chunk: the world's registry is
 * passed in as a map from chunk world position to a view of that chunk's
 * blocks and light bytes.
 */
module Neighbors {
  import opened Voxel
  import opened Light

  /** What a registered chunk exposes to its neighbours: its grids in `Index` layout. */
  datatype ChunkView = ChunkView(blocks: seq<int>, light: seq<bv8>)

  predicate WellFormed(v: ChunkView) {
    |v.blocks| == CELLS && |v.light| == CELLS
  }

  /** The registry of loaded chunks, keyed by each chunk's world position. */
  type World = map<Pos, ChunkView>

  predicate WellFormedWorld(world: World) {
    forall p :: p in world ==> WellFormed(world[p])
  }

  /** The source's `insideChunk` flag and `(dX, dY, dZ)` after one step. */
  datatype Step = Step(inside: bool, cell: Pos)

  /**
   * What GetNeighbor adds to `position_` to find the chunk across side s:
   * one chunk size along that side's axis.
   */
  function NeighborOffset(s: Side): Pos {
    match s
    case Top => (0, SIZE_Y, 0)
    case Bottom => (0, -SIZE_Y, 0)
    case Left => (-SIZE_X, 0, 0)
    case Right => (SIZE_X, 0, 0)
    case Front => (0, 0, -SIZE_Z)
    case Back => (0, 0, SIZE_Z)
  }

  /**
   * One step from cell (x, y, z) across side s. In range, the step is local;
   * past an edge it wraps to the opposite edge and is flagged external. Either
   * way the resulting cell, taken in this chunk or in the chunk at
   * `NeighborOffset(s)`, is the world cell next to (x, y, z).
   */
  function StepAcross(s: Side, x: int, y: int, z: int): (st: Step)
    requires InChunk(x, y, z)
    ensures InChunkAt(st.cell)
    ensures st.inside <==> InChunkAt(Add((x, y, z), Direction(s)))
    ensures st.inside ==> st.cell == Add((x, y, z), Direction(s))
    ensures !st.inside ==> Add(NeighborOffset(s), st.cell) == Add((x, y, z), Direction(s))
  {
    match s
    case Left => if x - 1 < 0 then Step(false, (SIZE_X - 1, y, z)) else Step(true, (x - 1, y, z))
    case Right => if x + 1 >= SIZE_X then Step(false, (0, y, z)) else Step(true, (x + 1, y, z))
    case Bottom => if y - 1 < 0 then Step(false, (x, SIZE_Y - 1, z)) else Step(true, (x, y - 1, z))
    case Top => if y + 1 >= SIZE_Y then Step(false, (x, 0, z)) else Step(true, (x, y + 1, z))
    case Front => if z - 1 < 0 then Step(false, (x, y, SIZE_Z - 1)) else Step(true, (x, y, z - 1))
    case Back => if z + 1 >= SIZE_Z then Step(false, (x, y, 0)) else Step(true, (x, y, z + 1))
  }

  /**
   * The world's chunk lookup by position, `VoxelWorld::GetChunkByPosition`,
   * which is not part of this model. HandleHit and HandleAdd pass it any
   * world point, so it is read as the registered chunk whose cuboid contains
   * p: the registry entry at `ChunkOrigin(p)`.
   */
  function ChunkByPosition(world: World, p: Pos): (n: Option<ChunkView>)
    ensures n.Some? <==> ChunkOrigin(p) in world
    ensures n.Some? ==> n.value == world[ChunkOrigin(p)]
  {
    var o := ChunkOrigin(p);
    if o in world then Some(world[o]) else None
  }

  /**
   * GetNeighbor: the chunk containing the point one chunk size away across
   * side s. For an aligned chunk that is the chunk registered at exactly
   * that point.
   */
  function GetNeighbor(world: World, position: Pos, s: Side): (n: Option<ChunkView>)
    ensures n.Some? <==> ChunkOrigin(Add(position, NeighborOffset(s))) in world
    ensures Aligned(position) ==> (n.Some? <==> Add(position, NeighborOffset(s)) in world)
    ensures Aligned(position) && n.Some? ==> n.value == world[Add(position, NeighborOffset(s))]
  {
    NeighborOrigin(position, s);
    ChunkByPosition(world, Add(position, NeighborOffset(s)))
  }

  /** The point one chunk size away from an aligned chunk is the origin of its own chunk. */
  lemma NeighborOrigin(position: Pos, s: Side)
    ensures Aligned(position) ==> ChunkOrigin(Add(position, NeighborOffset(s))) == Add(position, NeighborOffset(s))
  {
    if Aligned(position) {
      var o := Add(position, NeighborOffset(s));
      assert Aligned(o) by {
        assert position.0 == SIZE_X * (position.0 / SIZE_X);
        assert position.1 == SIZE_Y * (position.1 / SIZE_Y);
        assert position.2 == SIZE_Z * (position.2 / SIZE_Z);
      }
      OriginOfChunkCell(o, (0, 0, 0));
      assert Add(o, (0, 0, 0)) == o;
    }
  }

  /**
   * Whether the cell across side s of (x, y, z) holds a block. A missing
   * neighbour chunk counts as "no block", so that the face is drawn.
   */
  function BlockHaveNeighbor(blocks: seq<int>, position: Pos, world: World, s: Side, x: int, y: int, z: int): (covered: bool)
    requires |blocks| == CELLS && WellFormedWorld(world) && InChunk(x, y, z)
    ensures InChunkAt(Add((x, y, z), Direction(s))) ==>
      (covered <==> blocks[IndexAt(Add((x, y, z), Direction(s)))] != BT_AIR)
    ensures covered ==> InChunkAt(Add((x, y, z), Direction(s))) || GetNeighbor(world, position, s).Some?
  {
    var st := StepAcross(s, x, y, z);
    if st.inside then
      blocks[IndexAt(st.cell)] != BT_AIR
    else
      match GetNeighbor(world, position, s)
      case Some(n) => n.blocks[IndexAt(st.cell)] != BT_AIR
      case None => false
  }

  /**
   * The light byte of the cell across side s of (x, y, z); when the neighbour
   * chunk is not registered, the cell's own light byte.
   */
  function NeighborLightValue(light: seq<bv8>, position: Pos, world: World, s: Side, x: int, y: int, z: int): (l: bv8)
    requires |light| == CELLS && WellFormedWorld(world) && InChunk(x, y, z)
    ensures InChunkAt(Add((x, y, z), Direction(s))) ==> l == light[IndexAt(Add((x, y, z), Direction(s)))]
    ensures !InChunkAt(Add((x, y, z), Direction(s))) && GetNeighbor(world, position, s).None? ==> l == light[Index(x, y, z)]
  {
    var st := StepAcross(s, x, y, z);
    if st.inside then
      light[IndexAt(st.cell)]
    else
      match GetNeighbor(world, position, s)
      case Some(n) => n.light[IndexAt(st.cell)]
      case None => light[Index(x, y, z)]
  }

  // ---------------------------------------------------------------------
  // An independent reference: the world as one grid of cells.

  /** Chunks sit on the grid of chunk-sized cuboids. */
  predicate Aligned(p: Pos) {
    p.0 % SIZE_X == 0 && p.1 % SIZE_Y == 0 && p.2 % SIZE_Z == 0
  }

  /** Position of the chunk that contains world cell w. */
  function ChunkOrigin(w: Pos): (o: Pos)
    ensures Aligned(o)
  {
    (w.0 - w.0 % SIZE_X, w.1 - w.1 % SIZE_Y, w.2 - w.2 % SIZE_Z)
  }

  /** Local coordinate of world cell w inside the chunk that contains it. */
  function LocalCell(w: Pos): (c: Pos)
    ensures InChunkAt(c) && Add(ChunkOrigin(w), c) == w
  {
    (w.0 % SIZE_X, w.1 % SIZE_Y, w.2 % SIZE_Z)
  }

  /** The block at world cell w, when the chunk containing it is registered. */
  function WorldBlock(world: World, w: Pos): Option<int>
    requires WellFormedWorld(world)
  {
    var o := ChunkOrigin(w);
    if o in world then Some(world[o].blocks[IndexAt(LocalCell(w))]) else None
  }

  /** The light byte at world cell w, when the chunk containing it is registered. */
  function WorldLight(world: World, w: Pos): Option<bv8>
    requires WellFormedWorld(world)
  {
    var o := ChunkOrigin(w);
    if o in world then Some(world[o].light[IndexAt(LocalCell(w))]) else None
  }

  /** A cell of an aligned chunk belongs to that chunk and no other. */
  lemma OriginOfChunkCell(o: Pos, c: Pos)
    requires Aligned(o) && InChunkAt(c)
    ensures ChunkOrigin(Add(o, c)) == o && LocalCell(Add(o, c)) == c
  {
    assert o.0 == SIZE_X * (o.0 / SIZE_X);
    assert o.1 == SIZE_Y * (o.1 / SIZE_Y);
    assert o.2 == SIZE_Z * (o.2 / SIZE_Z);
  }

  /**
   * Where the step across side s from (x, y, z) lands, in the world with this
   * chunk registered at `position`: the chunk and local cell it names.
   */
  lemma StepLandsInWorld(blocks: seq<int>, light: seq<bv8>, position: Pos, world: World, s: Side, x: int, y: int, z: int)
    requires |blocks| == CELLS && |light| == CELLS && WellFormedWorld(world)
    requires Aligned(position) && InChunk(x, y, z)
    ensures var st := StepAcross(s, x, y, z);
            var w := Add(Add(position, (x, y, z)), Direction(s));
            var o := if st.inside then position else Add(position, NeighborOffset(s));
            ChunkOrigin(w) == o && LocalCell(w) == st.cell &&
            (!st.inside ==> o != position)
  {
    var st := StepAcross(s, x, y, z);
    var w := Add(Add(position, (x, y, z)), Direction(s));
    if st.inside {
      assert w == Add(position, st.cell);
      OriginOfChunkCell(position, st.cell);
    } else {
      var o := Add(position, NeighborOffset(s));
      assert w == Add(o, st.cell);
      assert Aligned(o) by {
        assert position.0 == SIZE_X * (position.0 / SIZE_X);
        assert position.1 == SIZE_Y * (position.1 / SIZE_Y);
        assert position.2 == SIZE_Z * (position.2 / SIZE_Z);
      }
      OriginOfChunkCell(o, st.cell);
    }
  }

  /**
   * BlockHaveNeighbor agrees with the world-grid reading: the face side s of
   * (x, y, z) is covered exactly when the world cell next to it is known and
   * holds a block.
   */
  lemma BlockHaveNeighborIsWorldOcclusion(blocks: seq<int>, light: seq<bv8>, position: Pos, world: World, s: Side, x: int, y: int, z: int)
    requires |blocks| == CELLS && |light| == CELLS && WellFormedWorld(world)
    requires Aligned(position) && InChunk(x, y, z)
    ensures var self := world[position := ChunkView(blocks, light)];
            BlockHaveNeighbor(blocks, position, world, s, x, y, z) <==>
            match WorldBlock(self, Add(Add(position, (x, y, z)), Direction(s)))
            case Some(b) => b != BT_AIR
            case None => false
  {
    StepLandsInWorld(blocks, light, position, world, s, x, y, z);
  }

  /**
   * NeighborLightValue agrees with the world-grid reading: the light of the
   * world cell next to (x, y, z), or the cell's own light when that is unknown.
   */
  lemma NeighborLightIsWorldLight(blocks: seq<int>, light: seq<bv8>, position: Pos, world: World, s: Side, x: int, y: int, z: int)
    requires |blocks| == CELLS && |light| == CELLS && WellFormedWorld(world)
    requires Aligned(position) && InChunk(x, y, z)
    ensures var self := world[position := ChunkView(blocks, light)];
            NeighborLightValue(light, position, world, s, x, y, z) ==
            match WorldLight(self, Add(Add(position, (x, y, z)), Direction(s)))
            case Some(l) => l
            case None => light[Index(x, y, z)]
  {
    StepLandsInWorld(blocks, light, position, world, s, x, y, z);
  }
}
