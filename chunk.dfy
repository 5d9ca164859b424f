/**
 * The chunk object (Chunk.cpp): a 16 x 16 x 16 grid of block types and of
 * packed light bytes, the four mesh partitions built from them, the render
 * cursor, and the bookkeeping that keeps at most one save task queued.
 *
 * The grids are arrays laid out by `Index`. What the chunk asks of other
 * subsystems is recorded, not performed: light-manager calls in `lightLog`,
 * work-queue submissions and removals in `submitted` and `removed`, events
 * sent in `events`. The world registry, the saved document, the generator,
 * the save timer's reading and the event payloads are parameters.
 */
module Chunks {
  import opened Voxel
  import opened Light
  import opened Neighbors
  import opened Mesh
  import opened Persistence

  /** The largest C `int`, the priority of a save task. */
  const M_MAX_INT: int := 0x7fff_ffff

  /** The work function a queued task runs. */
  datatype WorkFunction = SaveToFileWork | OtherWork

  /** The fields of a work-queue item the chunk sets or inspects. */
  datatype WorkItem = WorkItem(work: WorkFunction, aux: object?, priority: int, sendEvent: bool)

  /** Events the chunk sends. */
  datatype Event = ChunkGenerated(at: Pos) | ChunkEntered(at: Pos) | ChunkExited(at: Pos)

  /** What a hit or add request at a world cell came to. */
  datatype Outcome =
    | Forwarded(to: Pos)   // outside this chunk; passed on to the registered chunk at `to`
    | NoNeighbor           // outside this chunk and no chunk is registered there
    | Inspected            // the add request was a detect action; nothing changes
    | Changed              // the cell was edited
    | Unchanged            // inside the chunk but the edit does not apply

  /** Every field of a chunk but its grids and `geometryCalculated`. */
  datatype Status = Status(
    geometry: seq<seq<Face>>,
    shouldRender: bool,
    renderIndex: int,
    shouldDelete: bool,
    loaded: bool,
    notified: bool,
    visitors: int,
    saveWorkItem: Option<WorkItem>)

  /** Everything the chunk has asked of other subsystems so far. */
  datatype History = History(
    lightLog: seq<LightRequest>,
    submitted: seq<WorkItem>,
    removed: seq<WorkItem>,
    events: seq<Event>)

  class Chunk {
    const position: Pos
    const data: array<int>
    const lightMap: array<bv8>

    /** The four partitions' faces, as the last CalculateGeometry left them. */
    var geometry: seq<seq<Face>>
    var geometryCalculated: bool
    var shouldRender: bool
    var renderIndex: int
    var shouldDelete: bool
    var loaded: bool
    var notified: bool
    var visitors: int
    var saveWorkItem: Option<WorkItem>

    ghost var lightLog: seq<LightRequest>
    ghost var submitted: seq<WorkItem>
    ghost var removed: seq<WorkItem>
    ghost var events: seq<Event>

    predicate Valid()
      reads this
    {
      data.Length == CELLS && lightMap.Length == CELLS && data as object != lightMap as object &&
      |geometry| == PART_COUNT &&
      0 <= renderIndex <= PART_COUNT &&
      (shouldRender ==> renderIndex < PART_COUNT) &&
      (saveWorkItem.Some? ==> saveWorkItem.value == SaveItem())
    }

    function Others(): Status
      reads this
    {
      Status(geometry, shouldRender, renderIndex, shouldDelete, loaded, notified, visitors, saveWorkItem)
    }

    ghost function Log(): History
      reads this
    {
      History(lightLog, submitted, removed, events)
    }

    /** The task Save queues: SaveToFile on this chunk, top priority, completion reported. */
    function SaveItem(): WorkItem {
      WorkItem(SaveToFileWork, this, M_MAX_INT, true)
    }

    /** What CalculateGeometry reads. */
    function MeshInput(world: World): (m: Input)
      requires Valid() && WellFormedWorld(world)
      reads this, data, lightMap
      ensures Ready(m)
    {
      Input(data[..], lightMap[..], position, world, shouldDelete)
    }

    /**
     * A chunk at `position`, all air and dark (the constructor and the
     * position assignment of Init). The initial flags are declared in
     * Chunk.h, which is not part of this model: none is set, the cursor is at 0.
     */
    constructor(position: Pos)
      ensures Valid() && this.position == position && fresh(data) && fresh(lightMap)
      ensures forall i :: 0 <= i < CELLS ==> data[i] == BT_AIR && lightMap[i] == 0
      ensures Others() == Status(EmptyParts(), false, 0, false, false, false, 0, None)
      ensures !geometryCalculated
      ensures Log() == History([], [], [], [])
    {
      this.position := position;
      data := new int[CELLS];
      lightMap := new bv8[CELLS](_ => 0);
      geometry, geometryCalculated := EmptyParts(), false;
      shouldRender, renderIndex, shouldDelete := false, 0, false;
      loaded, notified, visitors, saveWorkItem := false, false, 0, None;
      lightLog, submitted, removed, events := [], [], [], [];
      new;
      for x := 0 to SIZE_X
        invariant Valid()
        invariant forall i :: 0 <= i < x * (SIZE_Y * SIZE_Z) ==> data[i] == BT_AIR
        invariant forall i :: 0 <= i < CELLS ==> lightMap[i] == 0
        invariant Others() == Status(EmptyParts(), false, 0, false, false, false, 0, None)
        invariant !geometryCalculated && Log() == History([], [], [], [])
      {
        for y := 0 to SIZE_Y
          invariant Valid()
          invariant forall i :: 0 <= i < x * (SIZE_Y * SIZE_Z) + y * SIZE_Z ==> data[i] == BT_AIR
          invariant forall i :: 0 <= i < CELLS ==> lightMap[i] == 0
          invariant Others() == Status(EmptyParts(), false, 0, false, false, false, 0, None)
          invariant !geometryCalculated && Log() == History([], [], [], [])
        {
          for z := 0 to SIZE_Z
            invariant Valid()
            invariant forall i :: 0 <= i < x * (SIZE_Y * SIZE_Z) + y * SIZE_Z + z ==> data[i] == BT_AIR
            invariant forall i :: 0 <= i < CELLS ==> lightMap[i] == 0
            invariant Others() == Status(EmptyParts(), false, 0, false, false, false, 0, None)
            invariant !geometryCalculated && Log() == History([], [], [], [])
          {
            SetVoxel(x, y, z, BT_AIR);
          }
        }
      }
    }

    // -------------------------------------------------------------------
    // Grid access.

    /** Stores a block type in one cell and marks the geometry stale. */
    method SetVoxel(x: int, y: int, z: int, block: int)
      requires Valid() && InChunk(x, y, z)
      modifies this, data
      ensures Valid()
      ensures data[Index(x, y, z)] == block
      ensures forall i :: 0 <= i < CELLS && i != Index(x, y, z) ==> data[i] == old(data[i])
      ensures !geometryCalculated
      ensures Others() == old(Others()) && Log() == old(Log())
    {
      data[Index(x, y, z)] := block;
      geometryCalculated := false;
    }

    function GetBlockValue(x: int, y: int, z: int): (b: int)
      requires Valid() && InChunk(x, y, z)
      reads this, data
      ensures b == data[..][Index(x, y, z)]
    {
      data[Index(x, y, z)]
    }

    /** Whether a local coordinate names a cell of this chunk. */
    function IsBlockInsideChunk(c: Pos): (inside: bool)
      ensures inside <==> 0 <= c.0 < SIZE_X && 0 <= c.1 < SIZE_Y && 0 <= c.2 < SIZE_Z
    {
      if c.0 < 0 || c.0 >= SIZE_X then false
      else if c.1 < 0 || c.1 >= SIZE_Y then false
      else if c.2 < 0 || c.2 >= SIZE_Z then false
      else true
    }

    /**
     * The cell a local coordinate names, or None (the null pointer) outside
     * the chunk; a cell is identified by its offset in `data`.
     */
    function GetBlockAt(c: Pos): (r: Option<int>)
      ensures r.Some? <==> InChunkAt(c)
      ensures r.Some? ==> 0 <= r.value < CELLS && CoordOf(r.value) == c
    {
      if IsBlockInsideChunk(c) then CoordOfIndex(c.0, c.1, c.2); Some(Index(c.0, c.1, c.2)) else None
    }

    // -------------------------------------------------------------------
    // The light map.

    function GetSunlight(x: int, y: int, z: int): (v: int)
      requires Valid() && InChunk(x, y, z)
      reads this, lightMap
      ensures 0 <= v <= 15
      ensures v == SunOf(lightMap[..][Index(x, y, z)])
    {
      SunOf(lightMap[Index(x, y, z)])
    }

    function GetTorchlight(x: int, y: int, z: int): (v: int)
      requires Valid() && InChunk(x, y, z)
      reads this, lightMap
      ensures 0 <= v <= 15
      ensures v == TorchOf(lightMap[..][Index(x, y, z)])
    {
      TorchOf(lightMap[Index(x, y, z)])
    }

    /** The whole packed byte; its nibbles are the two levels. */
    function GetLightValue(x: int, y: int, z: int): (b: bv8)
      requires Valid() && InChunk(x, y, z)
      reads this, lightMap
      ensures SunOf(b) == GetSunlight(x, y, z) && TorchOf(b) == GetTorchlight(x, y, z)
    {
      lightMap[Index(x, y, z)]
    }

    /**
     * Writes the sun level of one cell. Only the low four bits of `value`
     * reach the byte; the torch level is kept.
     */
    method SetSunlight(x: int, y: int, z: int, value: int)
      requires Valid() && InChunk(x, y, z)
      modifies this, lightMap
      ensures Valid()
      ensures lightMap[Index(x, y, z)] == WithSun(old(lightMap[Index(x, y, z)]), value)
      ensures forall i :: 0 <= i < CELLS && i != Index(x, y, z) ==> lightMap[i] == old(lightMap[i])
      ensures 0 <= value <= 15 ==> GetSunlight(x, y, z) == value
      ensures GetTorchlight(x, y, z) == old(GetTorchlight(x, y, z))
      ensures !geometryCalculated
      ensures Others() == old(Others()) && Log() == old(Log())
    {
      lightMap[Index(x, y, z)] := WithSun(lightMap[Index(x, y, z)], value);
      MarkForGeometryCalculation();
    }

    /**
     * Writes the torch level of one cell. A value in [0, 15] keeps the sun
     * level; a larger one spills into it (`TorchAboveFifteenCorruptsSun`).
     */
    method SetTorchlight(x: int, y: int, z: int, value: int)
      requires Valid() && InChunk(x, y, z)
      modifies this, lightMap
      ensures Valid()
      ensures lightMap[Index(x, y, z)] == WithTorch(old(lightMap[Index(x, y, z)]), value)
      ensures forall i :: 0 <= i < CELLS && i != Index(x, y, z) ==> lightMap[i] == old(lightMap[i])
      ensures 0 <= value <= 15 ==> GetTorchlight(x, y, z) == value && GetSunlight(x, y, z) == old(GetSunlight(x, y, z))
      ensures !geometryCalculated
      ensures Others() == old(Others()) && Log() == old(Log())
    {
      lightMap[Index(x, y, z)] := WithTorch(lightMap[Index(x, y, z)], value);
      MarkForGeometryCalculation();
    }

    method MarkForGeometryCalculation()
      modifies this
      ensures !geometryCalculated
      ensures Others() == old(Others()) && Log() == old(Log())
    {
      geometryCalculated := false;
    }

    method MarkForDeletion(value: bool)
      modifies this
      ensures Others() == old(Others()).(shouldDelete := value)
      ensures geometryCalculated == old(geometryCalculated) && Log() == old(Log())
    {
      shouldDelete := value;
    }
  
    // -------------------------------------------------------------------
    // Whole-chunk light passes. Each visits every cell in storage order and
    // writes it as the per-cell setter above does; the setters' marking of
    // the geometry as stale is done once, after the loop.

    /** SetSunlight(value): the sun level of every cell becomes `value`'s low four bits. */
    method SetAllSunlight(value: int)
      requires Valid()
      modifies this, lightMap
      ensures Valid()
      ensures lightMap[..] == UniformSun(old(lightMap[..]), value)
      ensures !geometryCalculated
      ensures Others() == old(Others()) && Log() == old(Log())
    {
      ghost var start := lightMap[..];
      ghost var target := UniformSun(start, value);
      ghost var n := 0;
      for x := 0 to SIZE_X
        modifies lightMap
        invariant n == x * (SIZE_Y * SIZE_Z)
        invariant forall i :: 0 <= i < n ==> lightMap[i] == target[i]
        invariant forall i :: n <= i < CELLS ==> lightMap[i] == start[i]
      {
        for y := 0 to SIZE_Y
          modifies lightMap
          invariant n == x * (SIZE_Y * SIZE_Z) + y * SIZE_Z
          invariant forall i :: 0 <= i < n ==> lightMap[i] == target[i]
          invariant forall i :: n <= i < CELLS ==> lightMap[i] == start[i]
        {
          for z := 0 to SIZE_Z
            modifies lightMap
            invariant n == x * (SIZE_Y * SIZE_Z) + y * SIZE_Z + z
            invariant forall i :: 0 <= i < n ==> lightMap[i] == target[i]
            invariant forall i :: n <= i < CELLS ==> lightMap[i] == start[i]
          {
            lightMap[Index(x, y, z)] := WithSun(lightMap[Index(x, y, z)], value);
            n := n + 1;
          }
        }
      }
      assert lightMap[..] == target;
      MarkForGeometryCalculation();
    }

    /**
     * Gives every torch block the default torch level and reports it to the
     * light manager as a light source, in storage order.
     */
    method CalculateLight()
      requires Valid()
      modifies this, lightMap
      ensures Valid()
      ensures lightMap[..] == SeedTorches(data[..], old(lightMap[..]))
      ensures Log() == old(Log()).(lightLog := old(lightLog) + TorchRequests(data[..], CELLS))
      ensures !geometryCalculated
      ensures Others() == old(Others())
    {
      ghost var start := lightMap[..];
      ghost var blocks := data[..];
      ghost var target := SeedTorches(blocks, start);
      ghost var requests: seq<LightRequest> := [];
      for x := 0 to SIZE_X
        modifies lightMap
        invariant requests == TorchRequests(blocks, x * (SIZE_Y * SIZE_Z))
        invariant forall i :: 0 <= i < x * (SIZE_Y * SIZE_Z) ==> lightMap[i] == target[i]
        invariant forall i :: x * (SIZE_Y * SIZE_Z) <= i < CELLS ==> lightMap[i] == start[i]
      {
        for y := 0 to SIZE_Y
          modifies lightMap
          invariant requests == TorchRequests(blocks, x * (SIZE_Y * SIZE_Z) + y * SIZE_Z)
          invariant forall i :: 0 <= i < x * (SIZE_Y * SIZE_Z) + y * SIZE_Z ==> lightMap[i] == target[i]
          invariant forall i :: x * (SIZE_Y * SIZE_Z) + y * SIZE_Z <= i < CELLS ==> lightMap[i] == start[i]
        {
          requests := CalculateLightRow(x, y, blocks, start, requests);
        }
      }
      assert lightMap[..] == target;
      assert data[..] == blocks;
      lightLog := lightLog + requests;
      geometryCalculated := false;
    }

    /**
     * The innermost loop of CalculateLight: the row of cells (x, y, 0) to
     * (x, y, SIZE_Z - 1). `before` holds the reports of the cells stored
     * ahead of the row; the result adds the row's own.
     */
    method CalculateLightRow(x: int, y: int, ghost blocks: seq<int>, ghost start: seq<bv8>, ghost before: seq<LightRequest>)
      returns (ghost requests: seq<LightRequest>)
      requires Valid() && 0 <= x < SIZE_X && 0 <= y < SIZE_Y
      requires blocks == data[..] && |start| == CELLS
      requires before == TorchRequests(blocks, x * (SIZE_Y * SIZE_Z) + y * SIZE_Z)
      requires forall i :: x * (SIZE_Y * SIZE_Z) + y * SIZE_Z <= i < CELLS ==> lightMap[i] == start[i]
      modifies lightMap
      ensures requests == TorchRequests(blocks, x * (SIZE_Y * SIZE_Z) + y * SIZE_Z + SIZE_Z)
      ensures forall i :: 0 <= i < CELLS ==> lightMap[i] == if x * (SIZE_Y * SIZE_Z) + y * SIZE_Z <= i < x * (SIZE_Y * SIZE_Z) + y * SIZE_Z + SIZE_Z then SeedTorches(blocks, start)[i] else old(lightMap[i])
    {
      requests := before;
      for z := 0 to SIZE_Z
        modifies lightMap
        invariant requests == TorchRequests(blocks, x * (SIZE_Y * SIZE_Z) + y * SIZE_Z + z)
        invariant forall i :: 0 <= i < CELLS ==> lightMap[i] == if x * (SIZE_Y * SIZE_Z) + y * SIZE_Z <= i < x * (SIZE_Y * SIZE_Z) + y * SIZE_Z + z then SeedTorches(blocks, start)[i] else old(lightMap[i])
      {
        TorchRequestsNext(blocks, x, y, z);
        if data[Index(x, y, z)] == BT_TORCH {
          lightMap[Index(x, y, z)] := WithTorch(lightMap[Index(x, y, z)], DEFAULT_TORCH);
          requests := requests + [AddLight((x, y, z))];
        }
      }
    }

    // -------------------------------------------------------------------
    // Loading.

    /**
     * Fills the grid from the saved document, if there is one, and otherwise
     * from the generator; then sets every cell's sun level to 2 and seeds the
     * torches. Finding and parsing the file are not modelled: `saved` is the
     * parsed document, or None when no file exists.
     */
    method Load(saved: Option<Document>, gen: Generator)
      requires Valid()
      modifies this, data, lightMap
      ensures Valid()
      ensures data[..] == LoadGrid(old(data[..]), saved, gen, position)
      ensures lightMap[..] == SeedTorches(data[..], UniformSun(old(lightMap[..]), 2))
      ensures Log() == old(Log()).(lightLog := old(lightLog) + TorchRequests(data[..], CELLS))
      ensures !geometryCalculated
      ensures Others() == old(Others()).(loaded := true)
    {
      if saved.Some? {
        LoadFromDocument(saved.value);
      } else {
        GenerateTerrain(gen);
        GenerateCaves(gen);
      }
      SetAllSunlight(2);
      CalculateLight();
      loaded := true;
    }

    /**
     * The file branch of Load: every cell whose key the document holds takes
     * the stored type; the geometry is then marked stale.
     */
    method LoadFromDocument(doc: Document)
      requires Valid()
      modifies this, data
      ensures Valid()
      ensures data[..] == Loaded(old(data[..]), doc)
      ensures !geometryCalculated
      ensures Others() == old(Others()) && Log() == old(Log())
    {
      ghost var start := data[..];
      ghost var target := Loaded(start, doc);
      ghost var n := 0;
      for x := 0 to SIZE_X
        modifies data
        invariant n == x * (SIZE_Y * SIZE_Z)
        invariant forall i :: 0 <= i < n ==> data[i] == target[i]
        invariant forall i :: n <= i < CELLS ==> data[i] == start[i]
      {
        for y := 0 to SIZE_Y
          modifies data
          invariant n == x * (SIZE_Y * SIZE_Z) + y * SIZE_Z
          invariant forall i :: 0 <= i < n ==> data[i] == target[i]
          invariant forall i :: n <= i < CELLS ==> data[i] == start[i]
        {
          for z := 0 to SIZE_Z
            modifies data
            invariant n == x * (SIZE_Y * SIZE_Z) + y * SIZE_Z + z
            invariant forall i :: 0 <= i < n ==> data[i] == target[i]
            invariant forall i :: n <= i < CELLS ==> data[i] == start[i]
          {
            LoadedAt(start, doc, x, y, z);
            var key := Key(x, y, z);
            if key in doc {
              data[Index(x, y, z)] := doc[key];
            }
            n := n + 1;
          }
        }
      }
      assert data[..] == target;
      geometryCalculated := false;
    }

    /**
     * The terrain pass of Load, column by column (x, then z, then y up the
     * column): each cell takes the generator's type for its world position
     * and its column's surface height, which is asked once per column.
     */
    method GenerateTerrain(gen: Generator)
      requires Valid()
      modifies this, data
      ensures Valid()
      ensures data[..] == Terrain(gen, position)
      ensures !geometryCalculated
      ensures Others() == old(Others()) && Log() == old(Log())
    {
      ghost var start := data[..];
      ghost var target := Terrain(gen, position);
      for x := 0 to SIZE_X
        modifies data
        invariant forall i :: 0 <= i < CELLS ==> data[i] == if TerrainBefore(CoordOf(i), x, 0, 0) then target[i] else start[i]
      {
        for z := 0 to SIZE_Z
          modifies data
          invariant forall i :: 0 <= i < CELLS ==> data[i] == if TerrainBefore(CoordOf(i), x, z, 0) then target[i] else start[i]
        {
          var blockPosition := Add(position, (x, 0, z));
          var surfaceHeight := gen.terrainHeight(blockPosition);
          for y := 0 to SIZE_Y
            modifies data
            invariant blockPosition.0 == position.0 + x && blockPosition.2 == position.2 + z
            invariant forall i :: 0 <= i < CELLS ==> data[i] == if TerrainBefore(CoordOf(i), x, z, y) then target[i] else start[i]
          {
            blockPosition := (blockPosition.0, position.1 + y, blockPosition.2);
            assert blockPosition == Add(position, (x, y, z));
            TerrainAt(gen, position, x, y, z);
            CoordOfIndex(x, y, z);
            data[Index(x, y, z)] := gen.blockType(blockPosition, surfaceHeight);
          }
        }
      }
      assert data[..] == target;
      geometryCalculated := false;
    }

    /** The cave pass of Load: each cell takes the generator's cave type for its position and current type. */
    method GenerateCaves(gen: Generator)
      requires Valid()
      modifies this, data
      ensures Valid()
      ensures data[..] == Caves(gen, position, old(data[..]))
      ensures !geometryCalculated
      ensures Others() == old(Others()) && Log() == old(Log())
    {
      ghost var start := data[..];
      ghost var target := Caves(gen, position, start);
      ghost var n := 0;
      for x := 0 to SIZE_X
        modifies data
        invariant n == x * (SIZE_Y * SIZE_Z)
        invariant forall i :: 0 <= i < n ==> data[i] == target[i]
        invariant forall i :: n <= i < CELLS ==> data[i] == start[i]
      {
        for y := 0 to SIZE_Y
          modifies data
          invariant n == x * (SIZE_Y * SIZE_Z) + y * SIZE_Z
          invariant forall i :: 0 <= i < n ==> data[i] == target[i]
          invariant forall i :: n <= i < CELLS ==> data[i] == start[i]
        {
          for z := 0 to SIZE_Z
            modifies data
            invariant n == x * (SIZE_Y * SIZE_Z) + y * SIZE_Z + z
            invariant forall i :: 0 <= i < n ==> data[i] == target[i]
            invariant forall i :: n <= i < CELLS ==> data[i] == start[i]
          {
            CavesAt(gen, position, start, x, y, z);
            var blockPosition := Add(position, (x, y, z));
            data[Index(x, y, z)] := gen.caveBlockType(blockPosition, data[Index(x, y, z)]);
            n := n + 1;
          }
        }
      }
      assert data[..] == target;
      geometryCalculated := false;
    }

    // -------------------------------------------------------------------
    // Geometry and rendering.

    /**
     * Rebuilds the four partitions: every solid voxel, unless the chunk is
     * marked for deletion, adds the quads of its open sides to its
     * partition, in storage order. Afterwards the geometry is current and
     * rendering restarts at partition 0.
     */
    method CalculateGeometry(world: World)
      requires Valid() && WellFormedWorld(world)
      modifies this
      ensures Valid()
      ensures geometry == BuildMesh(MeshInput(world))
      ensures geometryCalculated
      ensures Others() == old(Others()).(geometry := geometry, shouldRender := true, renderIndex := 0)
      ensures Log() == old(Log())
    {
      var parts := MeshParts(world);
      geometry := parts;
      geometryCalculated := true;
      shouldRender := true;
      renderIndex := 0;
    }

    /** The loops of CalculateGeometry: the quads of every voxel, gathered into its partition. */
    method MeshParts(world: World) returns (parts: seq<seq<Face>>)
      requires Valid() && WellFormedWorld(world)
      ensures parts == BuildMesh(MeshInput(world))
    {
      var m := Input(data[..], lightMap[..], position, world, shouldDelete);
      parts := EmptyParts();
      ghost var n := 0;
      for x := 0 to SIZE_X
        invariant n == x * (SIZE_Y * SIZE_Z)
        invariant parts == MeshUpTo(CellTable(m), PartTable(), n)
      {
        for y := 0 to SIZE_Y
          invariant n == x * (SIZE_Y * SIZE_Z) + y * SIZE_Z
          invariant parts == MeshUpTo(CellTable(m), PartTable(), n)
        {
          for z := 0 to SIZE_Z
            invariant n == x * (SIZE_Y * SIZE_Z) + y * SIZE_Z + z
            invariant parts == MeshUpTo(CellTable(m), PartTable(), n)
          {
            MeshStep(m, x, y, z);
            if m.blocks[Index(x, y, z)] != BT_AIR && !m.shouldDelete {
              var index := GetPartIndex(x, y, z);
              parts := parts[index := parts[index] + FacesFor(m, x, y, z, SIDES)];
            }
            n := n + 1;
          }
        }
      }
    }

    /**
     * Commits the partition under the render cursor and advances the cursor;
     * after the last partition the chunk stops asking to be rendered. The
     * collision shape gets the partition's triangles when it has any and is
     * disabled otherwise.
     */
    method Render() returns (committed: seq<Face>, collides: bool)
      requires Valid() && renderIndex < PART_COUNT
      modifies this
      ensures Valid()
      ensures committed == old(geometry[renderIndex])
      ensures collides <==> committed != []
      ensures Others() == old(Others()).(renderIndex := old(renderIndex) + 1,
        shouldRender := old(shouldRender) && old(renderIndex) + 1 < PART_COUNT)
      ensures geometryCalculated == old(geometryCalculated) && Log() == old(Log())
    {
      committed := geometry[renderIndex];
      collides := |PartVertices(committed)| > 0;
      renderIndex := renderIndex + 1;
      if renderIndex >= PART_COUNT {
        shouldRender := false;
      }
    }

    // -------------------------------------------------------------------
    // Saving.

    /** Queues the save task unless one is already pending. */
    method Save()
      requires Valid()
      modifies this
      ensures Valid()
      ensures saveWorkItem == Some(SaveItem())
      ensures Others() == old(Others()).(saveWorkItem := Some(SaveItem()))
      ensures Log() == old(Log()).(submitted := old(submitted) + if old(saveWorkItem).None? then [SaveItem()] else [])
      ensures geometryCalculated == old(geometryCalculated)
    {
      if saveWorkItem.Some? {
        return;
      }
      saveWorkItem := Some(SaveItem());
      submitted := submitted + [saveWorkItem.value];
    }

    /** A completed task is forgotten when it is this chunk's save task; any other item is ignored. */
    method HandleWorkItemFinished(item: WorkItem)
      requires Valid()
      modifies this
      ensures Valid()
      ensures Others() == if item.aux == this && item.work == SaveToFileWork
        then old(Others()).(saveWorkItem := None) else old(Others())
      ensures geometryCalculated == old(geometryCalculated) && Log() == old(Log())
    {
      if item.aux != this {
        return;
      }
      if item.work == SaveToFileWork {
        saveWorkItem := None;
      }
    }

    /**
     * The destructor's queue bookkeeping: a pending save task is withdrawn
     * from the work queue, when the queue still exists.
     */
    method Destroy(queueExists: bool)
      requires Valid()
      modifies this
      ensures Log() == old(Log()).(removed := old(removed) +
        if old(saveWorkItem).Some? && queueExists then [old(saveWorkItem).value] else [])
      ensures Others() == old(Others()) && geometryCalculated == old(geometryCalculated)
    {
      if saveWorkItem.Some? {
        if queueExists {
          removed := removed + [saveWorkItem.value];
        }
      }
    }

    // -------------------------------------------------------------------
    // Events.

    /** The generated notification has been sent once if the chunk is marked notified, and never otherwise. */
    ghost predicate NotifiedOnce()
      reads this
    {
      multiset(events)[ChunkGenerated(position)] == if notified then 1 else 0
    }

    /**
     * The per-frame update: the first update after loading sends the
     * generated notification, and a save timer past 30 seconds is reset
     * (`resetTimer`) and a save requested. The timer's reading is a parameter.
     */
    method HandleUpdate(saveTimerMs: int) returns (resetTimer: bool)
      requires Valid()
      modifies this
      ensures Valid()
      ensures resetTimer <==> saveTimerMs > 30000
      ensures var notify := old(loaded) && !old(notified);
        Others() == old(Others()).(notified := old(notified) || notify,
          saveWorkItem := if resetTimer then Some(SaveItem()) else old(saveWorkItem)) &&
        Log() == old(Log()).(
          events := old(events) + (if notify then [ChunkGenerated(position)] else []),
          submitted := old(submitted) + (if resetTimer && old(saveWorkItem).None? then [SaveItem()] else []))
      ensures old(NotifiedOnce()) ==> NotifiedOnce()
      ensures geometryCalculated == old(geometryCalculated)
    {
      if loaded && !notified {
        events := events + [ChunkGenerated(position)];
        notified := true;
      }
      resetTimer := saveTimerMs > 30000;
      if resetTimer {
        Save();
      }
    }

    /** A player's body entered the chunk's trigger volume. */
    method HandlePlayerEntered()
      modifies this
      ensures Others() == old(Others()).(visitors := old(visitors) + 1)
      ensures Log() == old(Log()).(events := old(events) + [ChunkEntered(position)])
      ensures old(NotifiedOnce()) ==> NotifiedOnce()
      ensures geometryCalculated == old(geometryCalculated)
    {
      events := events + [ChunkEntered(position)];
      visitors := visitors + 1;
    }

    /** A player's body left the chunk's trigger volume. */
    method HandlePlayerExited()
      modifies this
      ensures Others() == old(Others()).(visitors := old(visitors) - 1)
      ensures Log() == old(Log()).(events := old(events) + [ChunkExited(position)])
      ensures old(NotifiedOnce()) ==> NotifiedOnce()
      ensures geometryCalculated == old(geometryCalculated)
    {
      events := events + [ChunkExited(position)];
      visitors := visitors - 1;
    }

    /** The local cell of world cell w: w relative to the chunk's position. */
    function LocalOf(w: Pos): Pos {
      (w.0 - position.0, w.1 - position.1, w.2 - position.2)
    }

    /** Where a request for world cell w goes when w is outside this chunk. */
    function Elsewhere(w: Pos, world: World): Outcome {
      if ChunkByPosition(world, w).Some? then Forwarded(ChunkOrigin(w)) else NoNeighbor
    }

    /**
     * A hit at world cell w. Outside the chunk the hit is passed to the
     * chunk registered there. On a solid cell the torch level is cleared and
     * reported for removal, the cell becomes air and is reported as a new
     * light source (so that light can flow in), and the geometry goes stale.
     * On air nothing happens.
     */
    method HandleHit(w: Pos, world: World) returns (outcome: Outcome)
      requires Valid()
      modifies this, data, lightMap
      ensures Valid()
      ensures Others() == old(Others())
      ensures var c := LocalOf(w);
        if !InChunkAt(c) || old(data[IndexAt(c)]) == BT_AIR then
          outcome == (if InChunkAt(c) then Unchanged else Elsewhere(w, world)) &&
          data[..] == old(data[..]) && lightMap[..] == old(lightMap[..]) &&
          geometryCalculated == old(geometryCalculated) && Log() == old(Log())
        else
          var i := IndexAt(c);
          outcome == Changed &&
          data[..] == old(data[..])[i := BT_AIR] &&
          lightMap[..] == old(lightMap[..])[i := WithTorch(old(lightMap[i]), 0)] &&
          !geometryCalculated &&
          Log() == old(Log()).(lightLog := old(lightLog) + [RemoveLight(c, TorchOf(old(lightMap[i]))), AddLight(c)])
    {
      var c := LocalOf(w);
      if !IsBlockInsideChunk(c) {
        outcome := Elsewhere(w, world);
        return;
      }
      if data[Index(c.0, c.1, c.2)] != BT_AIR {
        var lightValue := GetTorchlight(c.0, c.1, c.2);
        SetTorchlight(c.0, c.1, c.2, 0);
        lightLog := lightLog + [RemoveLight(c, lightValue)];
        SetVoxel(c.0, c.1, c.2, BT_AIR);
        lightLog := lightLog + [AddLight(c)];
        MarkForGeometryCalculation();
        outcome := Changed;
      } else {
        outcome := Unchanged;
      }
    }

    /**
     * An add request at world cell w. Outside the chunk it is passed to the
     * chunk registered there (with an error logged when there is none). On
     * air, a detect action only inspects the cell; any other action places a
     * torch with the default torch level, reports it as a light source and
     * marks the geometry stale. On a solid cell nothing happens.
     */
    method HandleAdd(w: Pos, detect: bool, world: World) returns (outcome: Outcome)
      requires Valid()
      modifies this, data, lightMap
      ensures Valid()
      ensures Others() == old(Others())
      ensures var c := LocalOf(w);
        if !InChunkAt(c) || old(data[IndexAt(c)]) != BT_AIR || detect then
          outcome == (if !InChunkAt(c) then Elsewhere(w, world) else if old(data[IndexAt(c)]) != BT_AIR then Unchanged else Inspected) &&
          data[..] == old(data[..]) && lightMap[..] == old(lightMap[..]) &&
          geometryCalculated == old(geometryCalculated) && Log() == old(Log())
        else
          var i := IndexAt(c);
          outcome == Changed &&
          data[..] == old(data[..])[i := BT_TORCH] &&
          lightMap[..] == old(lightMap[..])[i := WithTorch(old(lightMap[i]), DEFAULT_TORCH)] &&
          !geometryCalculated &&
          Log() == old(Log()).(lightLog := old(lightLog) + [AddLight(c)])
    {
      var c := LocalOf(w);
      if !IsBlockInsideChunk(c) {
        outcome := Elsewhere(w, world);
        return;
      }
      if data[Index(c.0, c.1, c.2)] == BT_AIR {
        if detect {
          outcome := Inspected;
          return;
        }
        SetVoxel(c.0, c.1, c.2, BT_TORCH);
        SetTorchlight(c.0, c.1, c.2, DEFAULT_TORCH);
        lightLog := lightLog + [AddLight(c)];
        MarkForGeometryCalculation();
        outcome := Changed;
      } else {
        outcome := Unchanged;
      }
    }
  }

  /** Whether local cell c comes before cell (x, y, z) in the terrain pass's column order. */
  predicate TerrainBefore(c: Pos, x: int, z: int, y: int) {
    c.0 < x || (c.0 == x && (c.2 < z || (c.2 == z && c.1 < y)))
  }

  /**
   * The save task (SaveToFile): every cell's type under its key, visiting the
   * cells in storage order. Writing the file is not modelled.
   */
  method SaveToFile(chunk: Chunk) returns (doc: Document)
    requires chunk.Valid()
    ensures doc == SavedDocument(chunk.data[..])
  {
    ghost var blocks := chunk.data[..];
    ghost var n := 0;
    doc := map[];
    for x := 0 to SIZE_X
      invariant n == x * (SIZE_Y * SIZE_Z)
      invariant doc == DocUpTo(KeyTable(), blocks, n)
    {
      for y := 0 to SIZE_Y
        invariant n == x * (SIZE_Y * SIZE_Z) + y * SIZE_Z
        invariant doc == DocUpTo(KeyTable(), blocks, n)
      {
        for z := 0 to SIZE_Z
          invariant n == x * (SIZE_Y * SIZE_Z) + y * SIZE_Z + z
          invariant doc == DocUpTo(KeyTable(), blocks, n)
        {
          SaveStep(blocks, x, y, z);
          doc := doc[Key(x, y, z) := chunk.data[Index(x, y, z)]];
          n := n + 1;
        }
      }
    }
  }
}
