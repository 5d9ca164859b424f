/**
 * Sequences of calls on a chunk, as the rest of the game makes them, and
 * what they add up to.
 */
module Scenarios {
  import opened Voxel
  import opened Light
  import opened Neighbors
  import opened Mesh
  import opened Persistence
  import opened Chunks

  /** Two save requests before the first task completes queue one task. */
  method SaveTwice(chunk: Chunk)
    requires chunk.Valid()
    modifies chunk
    ensures chunk.saveWorkItem == Some(chunk.SaveItem())
    ensures chunk.submitted == old(chunk.submitted) + if old(chunk.saveWorkItem).None? then [chunk.SaveItem()] else []
  {
    chunk.Save();
    chunk.Save();
  }

  /**
   * Saving a chunk and loading the document into a fresh chunk at the same
   * position reproduces the grid, whatever the generator; the copy is lit
   * with sun level 2 everywhere and the default torch level on its torches.
   */
  method SaveThenLoad(chunk: Chunk, gen: Generator) returns (copy: Chunk)
    requires chunk.Valid()
    ensures fresh(copy) && copy.Valid() && copy.position == chunk.position
    ensures copy.data[..] == chunk.data[..]
    ensures forall i :: 0 <= i < CELLS ==>
      SunOf(copy.lightMap[i]) == 2 &&
      TorchOf(copy.lightMap[i]) == if copy.data[i] == BT_TORCH then DEFAULT_TORCH else 0
  {
    var doc := SaveToFile(chunk);
    copy := new Chunk(chunk.position);
    ghost var air, dark := copy.data[..], copy.lightMap[..];
    copy.Load(Some(doc), gen);
    SaveLoadRoundTrip(air, chunk.data[..]);
    LoadLighting(copy.data[..], dark);
  }

  /**
   * Placing a torch on an air cell and then hitting it leaves the grid as it
   * was and the cell without torch light; the light manager hears of the
   * new source, of its removal at the default level, and of the cell again.
   */
  method PlaceThenRemove(chunk: Chunk, w: Pos, world: World)
    requires chunk.Valid() && InChunkAt(chunk.LocalOf(w)) && chunk.data[IndexAt(chunk.LocalOf(w))] == BT_AIR
    modifies chunk, chunk.data, chunk.lightMap
    ensures var c := chunk.LocalOf(w); var i := IndexAt(c);
      chunk.data[..] == old(chunk.data[..]) &&
      chunk.lightMap[..] == old(chunk.lightMap[..])[i := WithTorch(old(chunk.lightMap[i]), 0)] &&
      chunk.lightLog == old(chunk.lightLog) + [AddLight(c), RemoveLight(c, DEFAULT_TORCH), AddLight(c)]
  {
    var c := chunk.LocalOf(w);
    ghost var i := IndexAt(c);
    ghost var before := chunk.lightMap[i];
    var placed := chunk.HandleAdd(w, false, world);
    var removed := chunk.HandleHit(w, world);
    TorchOverwrite(before, DEFAULT_TORCH, 0);
    assert chunk.data[..] == old(chunk.data[..]);
  }

  /**
   * Rebuilding the geometry and rendering until the chunk stops asking
   * commits each of the partitions once, in order.
   */
  method BuildAndRender(chunk: Chunk, world: World) returns (committed: seq<seq<Face>>)
    requires chunk.Valid() && WellFormedWorld(world)
    modifies chunk
    ensures chunk.Valid() && chunk.geometryCalculated && !chunk.shouldRender
    ensures committed == BuildMesh(chunk.MeshInput(world)) && chunk.renderIndex == PART_COUNT
  {
    chunk.CalculateGeometry(world);
    committed := [];
    while chunk.shouldRender
      invariant chunk.Valid() && chunk.geometryCalculated
      invariant chunk.geometry == BuildMesh(chunk.MeshInput(world))
      invariant committed == chunk.geometry[..chunk.renderIndex]
      invariant !chunk.shouldRender ==> chunk.renderIndex == PART_COUNT
      decreases PART_COUNT - chunk.renderIndex
    {
      var part, _ := chunk.Render();
      committed := committed + [part];
    }
  }
}
