/**
 * The saved form of a chunk and the two ways Load fills its grid.
 *
 * SaveToFile (Chunk.cpp) stores each cell's block type in a JSON object under
 * the key `String(x) + "_" + String(y) + "_" + String(z)`; Load reads a key
 * back only when it is present. The JSON object is modelled as a map from key
 * to integer, and `String(int)` of a coordinate (always in [0, 16)) as its
 * decimal digits.
 *
 * When no saved file exists Load asks the chunk generator instead: first the
 * terrain type of every cell (one surface height per column), then the cave
 * type of every cell given its terrain type. The generator is not part of
 * this model; its three queries are the functions of a `Generator` value.
 */
module Persistence {
  import opened Voxel

  // ---------------------------------------------------------------------
  // Decimal text of a non-negative integer.

  predicate AllDigits(s: string) {
    forall k :: 0 <= k < |s| ==> '0' <= s[k] <= '9'
  }

  function DigitChar(d: int): (c: char)
    requires 0 <= d < 10
    ensures '0' <= c <= '9' && c as int - '0' as int == d
  {
    (d + '0' as int) as char
  }

  /** `String(n)` for n >= 0: its decimal digits, most significant first. */
  function NatToString(n: nat): (s: string)
    ensures |s| > 0 && AllDigits(s)
    decreases n
  {
    if n < 10 then [DigitChar(n)] else NatToString(n / 10) + [DigitChar(n % 10)]
  }

  /** The number a string of decimal digits denotes. */
  function DigitsValue(s: string): (n: nat)
    requires AllDigits(s)
  {
    if |s| == 0 then 0 else 10 * DigitsValue(s[..|s| - 1]) + (s[|s| - 1] as int - '0' as int)
  }

  lemma {:induction false} DigitsValueOfNatToString(n: nat)
    ensures DigitsValue(NatToString(n)) == n
    decreases n
  {
    if n >= 10 {
      var s := NatToString(n);
      DigitsValueOfNatToString(n / 10);
      assert s[..|s| - 1] == NatToString(n / 10);
    }
  }

  // ---------------------------------------------------------------------
  // Cell keys.

  /** The key SaveToFile and Load use for cell (x, y, z). */
  function Key(x: nat, y: nat, z: nat): (k: string)
    ensures |k| >= 5
  {
    NatToString(x) + "_" + NatToString(y) + "_" + NatToString(z)
  }

  /** Offset of the first '_' in s, or |s| when there is none. */
  function FirstSeparator(s: string): (i: int)
    ensures 0 <= i <= |s|
    ensures i < |s| ==> s[i] == '_'
    ensures forall k :: 0 <= k < i ==> s[k] != '_'
  {
    if |s| == 0 || s[0] == '_' then 0 else 1 + FirstSeparator(s[1..])
  }

  /** A run of digits reaches up to the separator that follows it. */
  lemma {:induction false} SeparatorAfterDigits(a: string, rest: string)
    requires AllDigits(a) && |rest| > 0 && rest[0] == '_'
    ensures FirstSeparator(a + rest) == |a|
  {
    if |a| > 0 {
      assert (a + rest)[1..] == a[1..] + rest;
      SeparatorAfterDigits(a[1..], rest);
    } else {
      assert a + rest == rest;
    }
  }

  /** Reads a key back into its cell; the inverse of `Key`. */
  function ParseKey(s: string): (c: Option<Pos>)
    ensures c.Some? ==> c.value.0 >= 0 && c.value.1 >= 0 && c.value.2 >= 0
  {
    var i := FirstSeparator(s);
    if i == |s| then None
    else
      var rest := s[i + 1..];
      var j := FirstSeparator(rest);
      if j == |rest| then None
      else if AllDigits(s[..i]) && AllDigits(rest[..j]) && AllDigits(rest[j + 1..]) then
        Some((DigitsValue(s[..i]), DigitsValue(rest[..j]), DigitsValue(rest[j + 1..])))
      else None
  }

  /** Splitting `a + "_" + b` at its first separator gives back a and b. */
  lemma SplitAfterDigits(a: string, b: string)
    requires AllDigits(a)
    ensures var s := a + "_" + b;
      FirstSeparator(s) == |a| && s[..|a|] == a && s[|a| + 1..] == b
  {
    var s := a + "_" + b;
    assert s == a + ("_" + b);
    SeparatorAfterDigits(a, "_" + b);
    assert s[..|a|] == a;
    assert s[|a| + 1..] == b;
  }

  lemma KeyRoundTrip(x: nat, y: nat, z: nat)
    ensures ParseKey(Key(x, y, z)) == Some((x, y, z))
  {
    var xs, ys, zs := NatToString(x), NatToString(y), NatToString(z);
    var rest := ys + "_" + zs;
    assert Key(x, y, z) == xs + "_" + rest;
    SplitAfterDigits(xs, rest);
    SplitAfterDigits(ys, zs);
    DigitsValueOfNatToString(x);
    DigitsValueOfNatToString(y);
    DigitsValueOfNatToString(z);
  }

  /** Distinct cells never share a key. */
  lemma KeyInjective(x: nat, y: nat, z: nat, x': nat, y': nat, z': nat)
    ensures Key(x, y, z) == Key(x', y', z') <==> (x, y, z) == (x', y', z')
  {
    KeyRoundTrip(x, y, z);
    KeyRoundTrip(x', y', z');
  }

  /** The key of the cell stored at offset i. */
  function KeyAt(i: int): string
    requires 0 <= i < CELLS
  {
    var c := CoordOf(i);
    Key(c.0, c.1, c.2)
  }

  lemma KeyAtInjective(i: int, j: int)
    requires 0 <= i < CELLS && 0 <= j < CELLS
    ensures KeyAt(i) == KeyAt(j) <==> i == j
  {
    var c, d := CoordOf(i), CoordOf(j);
    KeyInjective(c.0, c.1, c.2, d.0, d.1, d.2);
  }

  /** The key of the cell stored at Index(x, y, z) is that cell's key. */
  lemma KeyAtIndex(x: int, y: int, z: int)
    requires InChunk(x, y, z)
    ensures KeyAt(Index(x, y, z)) == Key(x, y, z)
  {
    CoordOfIndex(x, y, z);
  }

  // ---------------------------------------------------------------------
  // The saved document.

  type Document = map<string, int>

  /** The keys of all cells, by offset. */
  function KeyTable(): (keys: seq<string>)
    ensures |keys| == CELLS
  {
    seq(CELLS, i requires 0 <= i < CELLS => KeyAt(i))
  }

  /** No key appears twice. */
  predicate Distinct(keys: seq<string>) {
    forall i, j :: 0 <= i < |keys| && 0 <= j < |keys| && keys[i] == keys[j] ==> i == j
  }

  lemma KeyTableDistinct()
    ensures Distinct(KeyTable())
  {
    forall i, j | 0 <= i < CELLS && 0 <= j < CELLS && KeyTable()[i] == KeyTable()[j]
      ensures i == j
    {
      KeyAtInjective(i, j);
    }
  }

  /**
   * The document after the first n cells, in storage order, have been
   * written under their keys. SaveToFile's loop order is storage order.
   */
  function DocUpTo(keys: seq<string>, blocks: seq<int>, n: int): (doc: Document)
    requires |keys| == |blocks| && 0 <= n <= |blocks|
  {
    if n == 0 then map[] else DocUpTo(keys, blocks, n - 1)[keys[n - 1] := blocks[n - 1]]
  }

  /** Only keys of cells already visited are written. */
  lemma {:induction false} DocUpToKeys(keys: seq<string>, blocks: seq<int>, n: int, k: string)
    requires |keys| == |blocks| && 0 <= n <= |blocks|
    requires k in DocUpTo(keys, blocks, n)
    ensures exists i :: 0 <= i < n && keys[i] == k
  {
    if k != keys[n - 1] {
      DocUpToKeys(keys, blocks, n - 1, k);
    }
  }

  /** Every visited cell's key holds that cell's block type. */
  lemma {:induction false} DocUpToValue(keys: seq<string>, blocks: seq<int>, n: int, i: int)
    requires |keys| == |blocks| && 0 <= i < n <= |blocks| && Distinct(keys)
    ensures keys[i] in DocUpTo(keys, blocks, n) && DocUpTo(keys, blocks, n)[keys[i]] == blocks[i]
  {
    if i < n - 1 {
      DocUpToValue(keys, blocks, n - 1, i);
    }
  }

  /** Each visited cell adds a key of its own. */
  lemma {:induction false} DocUpToSize(keys: seq<string>, blocks: seq<int>, n: int)
    requires |keys| == |blocks| && 0 <= n <= |blocks| && Distinct(keys)
    ensures |DocUpTo(keys, blocks, n)| == n
  {
    if n > 0 {
      DocUpToSize(keys, blocks, n - 1);
      if keys[n - 1] in DocUpTo(keys, blocks, n - 1) {
        DocUpToKeys(keys, blocks, n - 1, keys[n - 1]);
      }
    }
  }

  /** The document SaveToFile writes for a grid. */
  function SavedDocument(blocks: seq<int>): (doc: Document)
    requires |blocks| == CELLS
    ensures |doc| == CELLS
  {
    KeyTableDistinct();
    DocUpToSize(KeyTable(), blocks, CELLS);
    DocUpTo(KeyTable(), blocks, CELLS)
  }

  /**
   * The saved document is dense: it has one key per cell, that cell's key,
   * holding that cell's block type, and nothing else.
   */
  lemma SavedDocumentDense(blocks: seq<int>)
    requires |blocks| == CELLS
    ensures |SavedDocument(blocks)| == CELLS
    ensures forall i :: 0 <= i < CELLS ==> KeyAt(i) in SavedDocument(blocks) && SavedDocument(blocks)[KeyAt(i)] == blocks[i]
    ensures forall k :: k in SavedDocument(blocks) ==> exists i :: 0 <= i < CELLS && KeyAt(i) == k
  {
    KeyTableDistinct();
    DocUpToSize(KeyTable(), blocks, CELLS);
    forall i | 0 <= i < CELLS
      ensures KeyAt(i) in SavedDocument(blocks) && SavedDocument(blocks)[KeyAt(i)] == blocks[i]
    {
      DocUpToValue(KeyTable(), blocks, CELLS, i);
    }
    forall k | k in SavedDocument(blocks)
      ensures exists i :: 0 <= i < CELLS && KeyAt(i) == k
    {
      DocUpToKeys(KeyTable(), blocks, CELLS, k);
      var i :| 0 <= i < CELLS && KeyTable()[i] == k;
      assert KeyAt(i) == k;
    }
  }

  // ---------------------------------------------------------------------
  // Loading.

  /** The grid after Load has applied a saved document to the grid `prior`. */
  function Loaded(prior: seq<int>, doc: Document): (r: seq<int>)
    requires |prior| == CELLS
    ensures |r| == CELLS
  {
    seq(CELLS, i requires 0 <= i < CELLS => if KeyAt(i) in doc then doc[KeyAt(i)] else prior[i])
  }

  /** Cell (x, y, z) of a loaded grid: the document's value under its key, or the prior value. */
  lemma LoadedAt(prior: seq<int>, doc: Document, x: int, y: int, z: int)
    requires |prior| == CELLS && InChunk(x, y, z)
    ensures Loaded(prior, doc)[Index(x, y, z)] ==
      if Key(x, y, z) in doc then doc[Key(x, y, z)] else prior[Index(x, y, z)]
  {
    KeyAtIndex(x, y, z);
  }

  /** Visiting cell (x, y, z) adds its key to the document written so far. */
  lemma SaveStep(blocks: seq<int>, x: int, y: int, z: int)
    requires |blocks| == CELLS && InChunk(x, y, z)
    ensures DocUpTo(KeyTable(), blocks, Index(x, y, z) + 1) ==
      DocUpTo(KeyTable(), blocks, Index(x, y, z))[Key(x, y, z) := blocks[Index(x, y, z)]]
  {
    KeyAtIndex(x, y, z);
  }

  /** Loading a saved grid reproduces it, whatever the grid held before. */
  lemma SaveLoadRoundTrip(prior: seq<int>, blocks: seq<int>)
    requires |prior| == CELLS && |blocks| == CELLS
    ensures Loaded(prior, SavedDocument(blocks)) == blocks
  {
    SavedDocumentDense(blocks);
  }

  /**
   * Load changes exactly the cells whose key is present: saving the loaded
   * grid gives back the document's value under each key it has, and the
   * prior grid's value under every other cell key.
   */
  lemma LoadSaveAgrees(prior: seq<int>, doc: Document, i: int)
    requires |prior| == CELLS && 0 <= i < CELLS
    ensures var saved := SavedDocument(Loaded(prior, doc));
      KeyAt(i) in saved &&
      saved[KeyAt(i)] == if KeyAt(i) in doc then doc[KeyAt(i)] else prior[i]
  {
    SavedDocumentDense(Loaded(prior, doc));
  }

  // ---------------------------------------------------------------------
  // Generation.

  /** The generator's three queries (ChunkGenerator is not part of this model). */
  datatype Generator = Generator(
    terrainHeight: Pos -> int,
    blockType: (Pos, int) -> int,
    caveBlockType: (Pos, int) -> int)

  /**
   * The terrain pass: the block type of each cell, given the surface height
   * the generator reports for the cell's column (its y = 0 cell).
   */
  function Terrain(gen: Generator, position: Pos): (r: seq<int>)
    ensures |r| == CELLS
  {
    seq(CELLS, i requires 0 <= i < CELLS =>
      var c := CoordOf(i);
      gen.blockType(Add(position, c), gen.terrainHeight(Add(position, (c.0, 0, c.2)))))
  }

  /** The cave pass: each cell's new type, given its world position and current type. */
  function Caves(gen: Generator, position: Pos, blocks: seq<int>): (r: seq<int>)
    requires |blocks| == CELLS
    ensures |r| == CELLS
  {
    seq(CELLS, i requires 0 <= i < CELLS => gen.caveBlockType(Add(position, CoordOf(i)), blocks[i]))
  }

  /**
   * A generated chunk: each cell is the cave type of its terrain type, and
   * depends only on the cell's world position and its column's surface height.
   */
  lemma GeneratedCell(gen: Generator, position: Pos, x: int, y: int, z: int)
    requires InChunk(x, y, z)
    ensures var w := Add(position, (x, y, z));
      Caves(gen, position, Terrain(gen, position))[Index(x, y, z)] ==
      gen.caveBlockType(w, gen.blockType(w, gen.terrainHeight(Add(position, (x, 0, z)))))
  {
    CoordOfIndex(x, y, z);
  }

  /**
   * Each column is cut at one surface height: with a generator that makes
   * exactly the cells at or below the height it is given of some non-air type
   * `solid`, and digs no
   * caves, a solid cell has only solid cells beneath it in its column.
   */
  lemma SolidBelowSurface(gen: Generator, position: Pos, solid: int, x: int, y: int, y': int, z: int)
    requires InChunk(x, y, z) && InChunk(x, y', z) && y <= y' && solid != BT_AIR
    requires forall p: Pos, b: int :: gen.caveBlockType(p, b) == b
    requires forall p: Pos, h: int :: gen.blockType(p, h) == (if p.1 <= h then solid else BT_AIR)
    ensures var g := Caves(gen, position, Terrain(gen, position));
      g[Index(x, y', z)] != BT_AIR ==> g[Index(x, y, z)] != BT_AIR
  {
    GeneratedCell(gen, position, x, y, z);
    GeneratedCell(gen, position, x, y', z);
    var h := gen.terrainHeight(Add(position, (x, 0, z)));
    var w, w' := Add(position, (x, y, z)), Add(position, (x, y', z));
    assert gen.caveBlockType(w, gen.blockType(w, h)) == gen.blockType(w, h);
    assert gen.caveBlockType(w', gen.blockType(w', h)) == gen.blockType(w', h);
    if w'.1 <= h {
      assert gen.blockType(w, h) == solid;
    }
  }

  /** The terrain type of cell (x, y, z). */
  lemma TerrainAt(gen: Generator, position: Pos, x: int, y: int, z: int)
    requires InChunk(x, y, z)
    ensures Terrain(gen, position)[Index(x, y, z)] ==
      gen.blockType(Add(position, (x, y, z)), gen.terrainHeight(Add(position, (x, 0, z))))
  {
    CoordOfIndex(x, y, z);
  }

  /** The cave type of cell (x, y, z). */
  lemma CavesAt(gen: Generator, position: Pos, blocks: seq<int>, x: int, y: int, z: int)
    requires |blocks| == CELLS && InChunk(x, y, z)
    ensures Caves(gen, position, blocks)[Index(x, y, z)] ==
      gen.caveBlockType(Add(position, (x, y, z)), blocks[Index(x, y, z)])
  {
    CoordOfIndex(x, y, z);
  }

  /** The grid Load leaves: the saved document applied to `prior`, or else a generated chunk. */
  function LoadGrid(prior: seq<int>, saved: Option<Document>, gen: Generator, position: Pos): (r: seq<int>)
    requires |prior| == CELLS
    ensures |r| == CELLS
  {
    match saved
    case Some(doc) => Loaded(prior, doc)
    case None => Caves(gen, position, Terrain(gen, position))
  }
}
