# Voxel chunk model

A Dafny model of the voxel chunk of a block-building game
(`Source/Levels/Voxel/Chunk.cpp`). A chunk is a 16 x 16 x 16 grid of block
types. Beside it is a grid of light bytes: the high nibble of each byte is the
sun level and the low nibble the torch level. The chunk has:

- accessors and setters for single cells and for both light channels;
- two whole-chunk light passes: uniform sun, and torch seeding;
- neighbour resolution across the chunk's edges;
- a face-culling mesh builder that gathers quads into four partitions;
- a render cursor that commits one partition per call;
- a save/load mapping between the grid and a document keyed `"x_y_z"`, with a
  generator fallback (a terrain pass, then a cave pass);
- save scheduling that keeps at most one save task pending;
- the hit and add handlers that edit single cells.

Files:

- `voxel.dfy` (module `Voxel`): the dimensions, block codes, the row-major
  layout `Index` with its inverse `CoordOf`, and the six sides.
- `light.dfy` (`Light`):
  - the packed light byte;
  - the whole-chunk light passes as functions on sequences;
  - the log of light-manager requests.
- `neighbors.dfy` (`Neighbors`):
  - the one-cell step across a side, with wrap-around into the neighbour chunk;
  - the registry of loaded chunks, passed in as a map;
  - an independent reference reading of the world as one grid of cells.
- `mesh.dfy` (`Mesh`):
  - the per-side corner table;
  - face records and their vertices, texture coordinates and partitions;
  - the mesh as a function of the chunk's state, with its contents and counts.
- `persistence.dfy` (`Persistence`):
  - decimal keys and their parser;
  - the saved document and the load function;
  - the generator passes.
- `chunk.dfy` (`Chunks`):
  - the `Chunk` class, whose `data` and `lightMap` arrays and flag fields are
    updated in place;
  - the `SaveToFile` task.
- `scenarios.dfy` (`Scenarios`): call sequences — save twice, save then load
  into a fresh chunk, place then remove a torch, build the mesh and render it.

The constants live in Chunk.h, which is not part of this model. The values
used are:

- sizes 16 and `PART_COUNT` 4;
- `BT_AIR` 0 (`HandleHit` tests the type for non-zero), `BT_TORCH` 5, `BT_NONE` 7;
- the default argument of `SetTorchlight` is 15, the brightest level.

The proofs rely only on the relations stated in `Voxel.DimensionsAgree`.
Calls the chunk makes to other subsystems are recorded in ghost fields:

- `lightLog`: light-manager calls;
- `submitted` and `removed`: work-queue calls;
- `events`: events sent.

The registry, the saved document, the generator and the save timer's reading
are parameters.

## Model

| member | source | states |
|---|---|---|
| Light.SunOf | Source/Levels/Voxel/Chunk.cpp:1196-1199 | the sun level read from a byte is in [0, 15] |
| Light.TorchOf | Source/Levels/Voxel/Chunk.cpp:1207-1210 | the torch level read from a byte is in [0, 15] |
| Light.WithSun | Source/Levels/Voxel/Chunk.cpp:1201-1205 | the torch level is kept; the new sun level is the value's low four bits, which is the value itself in [0, 15] |
| Light.WithTorch | Source/Levels/Voxel/Chunk.cpp:1212-1216 | the new torch level is the value mod 16; a value in [0, 15] becomes the torch level and keeps the sun level |
| Light.SetOrderIrrelevant | Source/Levels/Voxel/Chunk.cpp:1201-1216 | setting both channels in either order gives the same byte, which holds exactly the two levels |
| Light.RewriteIsIdentity | Source/Levels/Voxel/Chunk.cpp:1201-1216 | writing a channel's current level back leaves the byte unchanged |
| Light.TorchOverwrite | Source/Levels/Voxel/Chunk.cpp:1212-1216 | a second in-range torch write replaces the first entirely |
| Light.TorchAboveFifteenCorruptsSun | Source/Levels/Voxel/Chunk.cpp:1212-1216 | the unmasked torch write of 16 raises the sun level from 2 to 3 |
| Light.UniformSun | Source/Levels/Voxel/Chunk.cpp:1223-1232 | the light map after the sun pass, one byte per cell; its levels are stated by UniformSunLevels |
| Light.UniformSunLevels | Source/Levels/Voxel/Chunk.cpp:1223-1232 | after the uniform sun pass every cell has the value's low four bits as sun level and its old torch level |
| Light.SeedTorches | Source/Levels/Voxel/Chunk.cpp:1234-1247 | the light map after the torch pass, one byte per cell; its levels are stated by SeedTorchesLevels |
| Light.SeedTorchesLevels | Source/Levels/Voxel/Chunk.cpp:1234-1247 | torch blocks get the default torch level; every other level of every cell is kept |
| Light.TorchRequestsAreSources | Source/Levels/Voxel/Chunk.cpp:1234-1247 | the first n cells give at most n reports, each a new light source; which cells is stated by TorchRequestsOnce |
| Light.TorchRequestsOnce | Source/Levels/Voxel/Chunk.cpp:1234-1247 | the light-source reports name every torch cell exactly once and no other cell |
| Light.LoadLighting | Source/Levels/Voxel/Chunk.cpp:156-157 | after a load's two light passes every cell has sun level 2, torch cells have the default torch level and other cells keep theirs |
| Neighbors.StepAcross | Source/Levels/Voxel/Chunk.cpp:1045-1101 | the step stays local exactly when the next cell is in range; otherwise it wraps to the opposite edge, and in the neighbour chunk it names the same world cell |
| Neighbors.ChunkByPosition | Source/Levels/Voxel/Chunk.cpp:745 | a lookup of a world point finds a chunk exactly when the chunk-aligned cuboid containing the point is registered, and it is that chunk |
| Neighbors.GetNeighbor | Source/Levels/Voxel/Chunk.cpp:1153-1181 | the lookup of the point one chunk size away along the side's axis; for an aligned chunk a neighbour is found exactly when a chunk is registered at that point, and it is that chunk |
| Neighbors.BlockHaveNeighbor | Source/Levels/Voxel/Chunk.cpp:1045-1117 | inside the chunk a side is covered exactly when the next cell is solid, and a covered side outside needs a registered neighbour; the full world reading is BlockHaveNeighborIsWorldOcclusion |
| Neighbors.NeighborLightValue | Source/Levels/Voxel/Chunk.cpp:976-1043 | inside the chunk the next cell's light byte, and the cell's own byte when the neighbour across the edge is missing; the full world reading is NeighborLightIsWorldLight |
| Neighbors.StepLandsInWorld | Source/Levels/Voxel/Chunk.cpp:976-1043 | for an aligned chunk the stepped cell is the world cell next to the voxel, in this chunk when local and in a different chunk when wrapped |
| Neighbors.BlockHaveNeighborIsWorldOcclusion | Source/Levels/Voxel/Chunk.cpp:1045-1117 | a side is covered exactly when the world cell next to it is known and not air; an unregistered neighbour counts as open |
| Neighbors.NeighborLightIsWorldLight | Source/Levels/Voxel/Chunk.cpp:976-1043 | the light is that of the world cell next to the voxel, or the voxel's own when that cell is unknown |
| Mesh.Corners | Source/Levels/Voxel/Chunk.cpp:203-688 | each side defines six vertices, two triangles of three; their corners are placed by FaceCoversSideSquare, TriangleIsProper and WindingFacesOutward |
| Mesh.FaceTangent | Source/Levels/Voxel/Chunk.cpp:203-688 | each side's tangent is a unit axis with handedness +1 or -1, lying in the side's plane on five sides; the LEFT tangent (1, 0, 0) lies along the side's normal axis |
| Mesh.SourceNormal | Source/Levels/Voxel/Chunk.cpp:203-688 | each side's normal as written is a unit vector along the side's own axis, pointing out or in |
| Mesh.WindingFacesOutward | Source/Levels/Voxel/Chunk.cpp:203-688 | both triangles of every side are wound towards the side's outward direction |
| Mesh.DepthNormalsPointInward | Source/Levels/Voxel/Chunk.cpp:537-617 | the source's normals agree with the outward direction on four sides and point inward, against the winding, on FRONT and BACK |
| Mesh.FaceCoversSideSquare | Source/Levels/Voxel/Chunk.cpp:203-688 | the six vertices of a side use exactly the four corners of that side of the unit cube |
| Mesh.TriangleIsProper | Source/Levels/Voxel/Chunk.cpp:203-688 | each triangle has three distinct corners |
| Mesh.CornerOnSidePlane | Source/Levels/Voxel/Chunk.cpp:203-688 | every vertex lies on its side's plane and carries a texture corner in the unit square |
| Mesh.GetTextureCoord | Source/Levels/Voxel/Chunk.cpp:851-877 | a point of the unit square maps into column Ordinal(side) and row blockType - 1 of the six-column atlas |
| Mesh.FaceVertices | Source/Levels/Voxel/Chunk.cpp:203-688 | the corrected vertices of a face: six on its side's plane, with the outward normal (where the source's FRONT and BACK normals differ), the side's tangent, texture coordinates in its atlas cell and the face's light |
| Mesh.SourceFaceVertices | Source/Levels/Voxel/Chunk.cpp:203-688 | the six vertices of a face as the source defines them, every one carrying the source's normal for the side |
| Mesh.SourceFaceVerticesDiffer | Source/Levels/Voxel/Chunk.cpp:537-617 | the source's vertices differ from the corrected ones only in the normal, and are equal to them exactly when the side is neither FRONT nor BACK |
| Mesh.FaceCoversSide | Source/Levels/Voxel/Chunk.cpp:203-688 | the two triangles of a face together cover the whole side of the voxel |
| Mesh.PartVertices | Source/Levels/Voxel/Chunk.cpp:203-688 | a partition has six vertices per face |
| Mesh.PartIndexInRange | Source/Levels/Voxel/Chunk.cpp:1260-1262 | with an even split every column 0 <= x < width falls into a partition in [0, partCount) |
| Mesh.PartIndexNeedsEvenSplit | Source/Levels/Voxel/Chunk.cpp:1260-1262 | without an even split (width 10, 4 parts) column 9 falls past the last partition |
| Mesh.GetPartIndex | Source/Levels/Voxel/Chunk.cpp:1260-1262 | every column of the chunk falls into one of the PART_COUNT partitions |
| Mesh.MeshUpTo | Source/Levels/Voxel/Chunk.cpp:194-691 | the PART_COUNT partitions after the first n voxels in storage order; what they hold is stated by MeshUpToContents and MeshUpToCount |
| Mesh.BuildMesh | Source/Levels/Voxel/Chunk.cpp:194-691 | the PART_COUNT partitions after every voxel; what they hold is stated by MeshContents and FaceDrawnWhereWorldIsOpen |
| Mesh.MeshStep | Source/Levels/Voxel/Chunk.cpp:194-202 | visiting a solid voxel of a live chunk appends its quads to its partition; any other voxel leaves the partitions as they were |
| Mesh.FacesForContents | Source/Levels/Voxel/Chunk.cpp:203-688 | the quads of a list of sides are exactly the faces of those sides that BlockHaveNeighbor reports open |
| Mesh.CellFacesContents | Source/Levels/Voxel/Chunk.cpp:197-688 | a voxel's quads are exactly the faces of its emitting sides |
| Mesh.MeshUpToContents | Source/Levels/Voxel/Chunk.cpp:194-691 | a partition holds exactly the quads of the visited voxels that fall into it |
| Mesh.MeshContents | Source/Levels/Voxel/Chunk.cpp:194-691 | partition p holds a face exactly when its voxel is in p, is not air, the chunk is not being deleted and the side is open |
| Mesh.SharedFaceNotEmitted | Source/Levels/Voxel/Chunk.cpp:194-691 | the face between two adjacent solid voxels of the chunk is drawn by neither |
| Mesh.FaceDrawnWhereWorldIsOpen | Source/Levels/Voxel/Chunk.cpp:194-691 | a side is drawn exactly when the voxel is solid, the chunk is live and the world cell it faces is air or not loaded |
| Mesh.MeshUpToCount | Source/Levels/Voxel/Chunk.cpp:194-691 | no quad is lost: the partitions hold as many quads as the visited voxels produced |
| Mesh.OpenVoxelHasSixFaces | Source/Levels/Voxel/Chunk.cpp:197-688 | a solid voxel of a live aligned chunk whose six neighbouring world cells are each air or not loaded gets six quads |
| Mesh.IsolatedVoxelHasSixFaces | Source/Levels/Voxel/Chunk.cpp:194-691 | a chunk with one solid voxel and only air around it meshes to six quads |
| Mesh.IsolatedVoxelHasThirtySixVertices | Source/Levels/Voxel/Chunk.cpp:194-691 | such a chunk's mesh has 36 vertices |
| Persistence.NatToString | Source/Levels/Voxel/Chunk.cpp:43 | the decimal text of a number is non-empty and all digits |
| Persistence.DigitsValueOfNatToString | Source/Levels/Voxel/Chunk.cpp:43 | reading the decimal text back gives the number |
| Persistence.Key | Source/Levels/Voxel/Chunk.cpp:43 | a cell key is at least five characters long |
| Persistence.KeyRoundTrip | Source/Levels/Voxel/Chunk.cpp:121 | parsing a key gives back its three coordinates |
| Persistence.KeyInjective | Source/Levels/Voxel/Chunk.cpp:43 | two keys are equal exactly when their coordinates are |
| Persistence.KeyAtInjective | Source/Levels/Voxel/Chunk.cpp:40-46 | two cells of the chunk have the same key exactly when they are the same cell |
| Persistence.DocUpToValue | Source/Levels/Voxel/Chunk.cpp:40-46 | every visited cell's type is stored under its key |
| Persistence.DocUpToSize | Source/Levels/Voxel/Chunk.cpp:40-46 | the document holds one entry per visited cell |
| Persistence.SavedDocument | Source/Levels/Voxel/Chunk.cpp:35-53 | the saved document has one entry per cell; its keys and values are stated by SavedDocumentDense |
| Persistence.SavedDocumentDense | Source/Levels/Voxel/Chunk.cpp:40-46 | the saved document holds one entry per cell, each cell's type under its key, and no other key |
| Persistence.SaveLoadRoundTrip | Source/Levels/Voxel/Chunk.cpp:118-127 | loading a saved document reproduces the saved grid, whatever the grid held before |
| Persistence.Loaded | Source/Levels/Voxel/Chunk.cpp:118-127 | the grid after a document is applied, one type per cell; which cells change is stated by LoadSaveAgrees |
| Persistence.LoadSaveAgrees | Source/Levels/Voxel/Chunk.cpp:118-127 | loading sets exactly the cells whose key is present and keeps the prior value of the rest |
| Persistence.Terrain | Source/Levels/Voxel/Chunk.cpp:130-142 | the grid of the terrain pass, one type per cell; each cell's type is stated by TerrainAt and GeneratedCell |
| Persistence.Caves | Source/Levels/Voxel/Chunk.cpp:144-153 | the grid of the cave pass, one type per cell; each cell's type is stated by CavesAt and GeneratedCell |
| Persistence.TerrainAt | Source/Levels/Voxel/Chunk.cpp:130-142 | a terrain cell's type is the generator's type for its world position and the surface height of its column |
| Persistence.CavesAt | Source/Levels/Voxel/Chunk.cpp:144-153 | a cave-pass cell's type is the generator's cave type for its world position and previous type |
| Persistence.LoadGrid | Source/Levels/Voxel/Chunk.cpp:108-153 | the grid Load leaves before lighting: the document applied to the old grid when a file exists, else the generated chunk |
| Persistence.GeneratedCell | Source/Levels/Voxel/Chunk.cpp:130-153 | a generated cell is the cave type of the terrain type its world position and column height give |
| Persistence.SolidBelowSurface | Source/Levels/Voxel/Chunk.cpp:132-142 | the surface height is asked once per column, so with a generator that makes one non-air type at or below the height and digs no caves, a solid cell has only solid cells beneath it |
| Chunks.Chunk.constructor | Source/Levels/Voxel/Chunk.cpp:55-66 | a new chunk is all air and dark, with no flag set, an empty mesh and nothing requested |
| Chunks.Chunk.SetVoxel | Source/Levels/Voxel/Chunk.cpp:1249-1253 | one cell takes the new type, no other cell changes, and the geometry goes stale |
| Chunks.Chunk.GetBlockValue | Source/Levels/Voxel/Chunk.cpp:1183-1186 | the type stored at the cell's offset |
| Chunks.Chunk.IsBlockInsideChunk | Source/Levels/Voxel/Chunk.cpp:725-738 | true exactly when each coordinate is within the chunk's size |
| Chunks.Chunk.GetBlockAt | Source/Levels/Voxel/Chunk.cpp:1188-1194 | a cell exactly for in-range coordinates, and it is the cell they name; none outside |
| Chunks.Chunk.GetSunlight | Source/Levels/Voxel/Chunk.cpp:1196-1199 | the cell's sun nibble, in [0, 15] |
| Chunks.Chunk.GetTorchlight | Source/Levels/Voxel/Chunk.cpp:1207-1210 | the cell's torch nibble, in [0, 15] |
| Chunks.Chunk.GetLightValue | Source/Levels/Voxel/Chunk.cpp:1218-1221 | the byte whose nibbles are the cell's two levels |
| Chunks.Chunk.SetSunlight | Source/Levels/Voxel/Chunk.cpp:1201-1205 | for a value in [0, 15] the sun level becomes the value; the torch level and other cells are kept; the geometry goes stale |
| Chunks.Chunk.SetTorchlight | Source/Levels/Voxel/Chunk.cpp:1212-1216 | for a value in [0, 15] the torch level becomes the value and the sun level is kept; other cells are kept; the geometry goes stale |
| Chunks.Chunk.MarkForGeometryCalculation | Source/Levels/Voxel/Chunk.cpp:1255-1258 | the geometry goes stale and nothing else changes |
| Chunks.Chunk.MarkForDeletion | Source/Levels/Voxel/Chunk.cpp:1119-1122 | only the deletion flag changes |
| Chunks.Chunk.SetAllSunlight | Source/Levels/Voxel/Chunk.cpp:1223-1232 | the light map becomes the uniform-sun map of the old one and the geometry goes stale |
| Chunks.Chunk.CalculateLight | Source/Levels/Voxel/Chunk.cpp:1234-1247 | torch cells are seeded, the light manager is sent one report per torch cell in storage order, and the geometry goes stale |
| Chunks.Chunk.CalculateLightRow | Source/Levels/Voxel/Chunk.cpp:1237-1244 | one row of CalculateLight: the row's cells are seeded, the rest kept, and the row's reports appended in order |
| Chunks.Chunk.Load | Source/Levels/Voxel/Chunk.cpp:108-159 | the grid becomes the document applied to the old grid, or else the generated chunk; then sun 2 everywhere and the torches seeded and reported; the chunk is loaded |
| Chunks.Chunk.LoadFromDocument | Source/Levels/Voxel/Chunk.cpp:116-127 | every cell whose key is present takes the stored type; the rest are kept |
| Chunks.Chunk.GenerateTerrain | Source/Levels/Voxel/Chunk.cpp:130-142 | every cell takes the generator's type for its world position and its column's surface height |
| Chunks.Chunk.GenerateCaves | Source/Levels/Voxel/Chunk.cpp:144-153 | every cell takes the generator's cave type for its world position and previous type |
| Chunks.Chunk.MeshParts | Source/Levels/Voxel/Chunk.cpp:194-691 | the partitions built by visiting every voxel in storage order are the mesh of the chunk's state |
| Chunks.Chunk.CalculateGeometry | Source/Levels/Voxel/Chunk.cpp:183-696 | the geometry becomes the mesh of the chunk's state and is current; rendering restarts at partition 0 |
| Chunks.Chunk.Render | Source/Levels/Voxel/Chunk.cpp:161-181 | commits the partition under the cursor, collides exactly when it is non-empty, advances the cursor, and stops rendering exactly when the cursor reaches PART_COUNT |
| Chunks.Chunk.Save | Source/Levels/Voxel/Chunk.cpp:879-895 | a save task is pending afterwards; a new one is submitted only when none was |
| Chunks.Chunk.HandleWorkItemFinished | Source/Levels/Voxel/Chunk.cpp:804-824 | the pending save is cleared exactly when the finished item is this chunk's save task |
| Chunks.Chunk.Destroy | Source/Levels/Voxel/Chunk.cpp:68-77 | a pending save task is withdrawn from the queue when the queue exists |
| Chunks.Chunk.HandleUpdate | Source/Levels/Voxel/Chunk.cpp:698-714 | the generated notification is sent on the first update after loading and never twice; past 30000 ms the timer is reset and a save requested |
| Chunks.Chunk.HandlePlayerEntered | Source/Levels/Voxel/Chunk.cpp:826-840 | the entered event is sent and the visitor count goes up by one |
| Chunks.Chunk.HandlePlayerExited | Source/Levels/Voxel/Chunk.cpp:842-849 | the exited event is sent and the visitor count goes down by one |
| Chunks.Chunk.HandleHit | Source/Levels/Voxel/Chunk.cpp:740-760 | outside the chunk the hit goes to the registered chunk there; a solid cell becomes air with torch level 0, and the removal (with the old torch level) then a new light source are reported; air is left alone |
| Chunks.Chunk.HandleAdd | Source/Levels/Voxel/Chunk.cpp:762-797 | outside the chunk the request goes to the registered chunk there; on air a detect action changes nothing, any other places a torch at the default level and reports it; a solid cell is left alone |
| Chunks.SaveToFile | Source/Levels/Voxel/Chunk.cpp:35-53 | the document written is the saved document of the chunk's grid |
| Scenarios.SaveTwice | Source/Levels/Voxel/Chunk.cpp:879-895 | two save requests before completion submit at most one task |
| Scenarios.SaveThenLoad | Source/Levels/Voxel/Chunk.cpp:108-159 | saving a chunk and loading the document into a fresh chunk reproduces the grid, with sun 2 everywhere and the default torch level exactly on torch cells |
| Scenarios.PlaceThenRemove | Source/Levels/Voxel/Chunk.cpp:740-797 | placing a torch on air and hitting it restores the grid, clears the cell's torch level and reports the source, its removal at the default level, and the cell again |
| Scenarios.BuildAndRender | Source/Levels/Voxel/Chunk.cpp:161-181 | building the mesh and rendering until the chunk stops asking commits every partition once, in order |

## Left out

- Chunk.h is not part of this model. Its sizes, enum values and the default torch argument are the stand-ins listed above. For the initial members the model chooses:
  - every flag false: geometry calculated, should render, should delete, loaded, notified;
  - the render cursor and the visitor count 0;
  - PART_COUNT empty partitions and no pending save task;
  - every cell air with light byte 0.
- Urho3D scene work is not modelled, being engine plumbing:
  - `CreateNode`, `RemoveNode`, `SetActive`, `MarkActive`/`IsActive` and `RegisterObject`;
  - the node creation and console command of `Init` (only its position assignment is modelled, in the constructor);
  - the `CustomGeometry` calls and the material.
- The collision shape in `Render` is reduced to whether the partition has triangles (`collides`).
- Mesh geometry is kept as face records. `Mesh.SourceFaceVertices` derives the vertices the source defines from them, with its normals. `Mesh.FaceVertices` derives the corrected vertices of the Findings row, which `Mesh.PartVertices`, `Mesh.MeshVertices` and so the partitions `Render` commits use. Float colours are kept as the torch and sun nibbles they are computed from.
- `GetChunkBlock`'s float flooring is not modelled. `HandleHit` and `HandleAdd` take the integer world cell that was hit.
- `VoxelWorld::GetChunkByPosition` is not part of this model. `Neighbors.ChunkByPosition` reads it as the registry entry of the chunk-aligned cuboid containing the point (`Neighbors.ChunkOrigin`). Every lookup goes through it: `GetNeighbor` with `position + offset`, and the forwarding of `HandleHit` and `HandleAdd` with the hit cell. For a chunk at an aligned position, `GetNeighbor` therefore finds the chunk registered at exactly `position + offset`. A world with no registry is an empty map.
- The JSON file is not modelled: file names built from float positions, `FileSystem` directory checks, loading and saving.
  - `Load` receives the parsed document, or None when no file exists.
  - `SaveToFile` returns the document.
  - Stored values are copied back as they are.
- The mutex, the work queue's worker thread and the unsynchronised read of the grid in `SaveToFile` are not modelled, being concurrency. Saving is one atomic step on the chunk's current grid.
- `WorkQueue::GetFreeItem` is not modelled. The pending item is the value `SaveItem()`, and its `start_`/`end_` pointers are not modelled.
- The light manager's propagation is not part of this model. Its calls are recorded in `lightLog`.
- Event payloads and subscription are not modelled. Sent events are recorded in `events`. The colliding node in `HandlePlayerEntered` is unused.
- `CTRL_DETECT` is a boolean `detect`. The detect branch's log message and colour are not modelled.
- The save timer's reading is a parameter to `HandleUpdate`. Resetting the timer is the returned flag.
- Chunks.Chunk.Destroy: Dafny has no destructors, so the destructor's queue bookkeeping is a method. Whether the queue still exists is a parameter.
- Chunks.Chunk.LoadFromDocument marks the geometry stale even when the document holds no cell key. The source marks it only through the `SetVoxel` calls for present keys. `Load` marks it stale either way through `SetSunlight(2)`, so `Load`'s contract is unaffected.
- Chunks.Chunk.SetAllSunlight, CalculateLight, LoadFromDocument, GenerateTerrain and GenerateCaves write each cell directly and mark the geometry stale once after their loops. The source calls the per-cell setter, which marks it at every cell. The final state is the same.
- Chunks.Chunk.CalculateLightRow is the innermost loop of `CalculateLight`, and Chunks.Chunk.MeshParts is the loop nest of `CalculateGeometry`, each written as a method of its own.
- Chunks.Chunk.Render requires the cursor to be below PART_COUNT, the bound of the `parts_.At(renderIndex_)` lookup.
- `Source/Generator/Generator.cpp` (noise images, PNG output) and `Source/BaseApplication.h` are not part of this model. Noise generation is numerics and I/O; the header holds declarations only.

## Findings

| source | as written | input that shows it | evidently intended | confidence | as-written member | corrected member |
|---|---|---|---|---|---|---|
| Source/Levels/Voxel/Chunk.cpp:537-617 | The FRONT quads (plane z = 0, occluded by the cell at z - 1) get normal `Vector3::FORWARD` = (0, 0, 1). The BACK quads (plane z = 1, occluded by the cell at z + 1) get `Vector3::BACK` = (0, 0, -1). | A solid voxel with an open FRONT side: its quad's winding and its neighbour test face -z, its normal +z. | The outward normals (0, 0, -1) for FRONT and (0, 0, 1) for BACK, as on the other four sides. | not executed | Mesh.DepthNormalsPointInward | Mesh.FaceVertices |
