/**
 * The packed light byte of one cell: the high nibble is the sun level, the
 * low nibble the torch level (Chunk.cpp, GetSunlight / SetSunlight /
 * GetTorchlight / SetTorchlight).
 *
 * The setters take a C `int` and store the result of an `int` expression into
 * an `unsigned char`, which keeps its low eight bits; `% 256` and `% 16` below
 * are that truncation, written out.
 */
module Light {
  import opened Voxel

  /** The sun nibble: `(b >> 4) & 0xF`. */
  function SunOf(b: bv8): (r: int)
    ensures 0 <= r <= 15
  {
    ((b >> 4) & 0xF) as int
  }

  /** The torch nibble: `b & 0xF`. */
  function TorchOf(b: bv8): (r: int)
    ensures 0 <= r <= 15
  {
    (b & 0xF) as int
  }

  /**
   * `(b & 0xF) | (value << 4)` stored into a byte. Only the low four bits of
   * `value` survive the shift and the truncation, so the torch nibble is kept
   * whatever `value` is.
   */
  function WithSun(b: bv8, value: int): (r: bv8)
    ensures TorchOf(r) == TorchOf(b)
    ensures SunOf(r) == value % 16
    ensures 0 <= value <= 15 ==> SunOf(r) == value
  {
    (b & 0x0F) | (((value % 16) as bv8) << 4)
  }

  /**
   * `(b & 0xF0) | value` stored into a byte. A value above 15 reaches into
   * the sun nibble (see `TorchAboveFifteenCorruptsSun`); callers keep it in
   * [0, 15].
   */
  function WithTorch(b: bv8, value: int): (r: bv8)
    ensures TorchOf(r) == value % 16
    ensures 0 <= value <= 15 ==> TorchOf(r) == value && SunOf(r) == SunOf(b)
  {
    var low: bv8 := (value % 256) as bv8;
    ByteRoundTrip(value % 256);
    LowNibble(low);
    KeepHighNibble(b, low);
    NibbleOfRemainder(value);
    (b & 0xF0) | low
  }

  lemma NibbleOfRemainder(value: int)
    ensures (value % 256) % 16 == value % 16
  {
    assert value == 16 * (16 * (value / 256)) + value % 256;
  }

  lemma ByteRoundTrip(n: int)
    requires 0 <= n < 256
    ensures (n as bv8) as int == n
    ensures n < 16 ==> (n as bv8) >> 4 == 0
  {
  }

  lemma KeepHighNibble(b: bv8, low: bv8)
    ensures ((b & 0xF0) | low) & 0xF == low & 0xF
    ensures low >> 4 == 0 ==> (((b & 0xF0) | low) >> 4) & 0xF == (b >> 4) & 0xF
  {
  }

  /** On a byte, masking with 0xF is taking the remainder by 16. */
  lemma LowNibble(w: bv8)
    ensures (w & 0xF) as int == (w as int) % 16
  {
  }

  /** The byte holding sun level `sun` and torch level `torch`. */
  function Pack(sun: int, torch: int): (b: bv8)
    requires 0 <= sun <= 15 && 0 <= torch <= 15
    ensures SunOf(b) == sun && TorchOf(b) == torch
  {
    WithTorch(WithSun(0, sun), torch)
  }

  /** A byte is determined by its two nibbles. */
  lemma NibblesDetermineByte(a: bv8, b: bv8)
    requires SunOf(a) == SunOf(b) && TorchOf(a) == TorchOf(b)
    ensures a == b
  {
    assert a == ((a >> 4) << 4) | (a & 0xF);
    assert b == ((b >> 4) << 4) | (b & 0xF);
  }

  /**
   * Setting both channels in either order leaves the same byte, holding
   * exactly the two levels written.
   */
  lemma SetOrderIrrelevant(b: bv8, sun: int, torch: int)
    requires 0 <= sun <= 15 && 0 <= torch <= 15
    ensures WithTorch(WithSun(b, sun), torch) == WithSun(WithTorch(b, torch), sun)
    ensures WithTorch(WithSun(b, sun), torch) == Pack(sun, torch)
  {
    NibblesDetermineByte(WithTorch(WithSun(b, sun), torch), WithSun(WithTorch(b, torch), sun));
    NibblesDetermineByte(WithTorch(WithSun(b, sun), torch), Pack(sun, torch));
  }

  /** Writing the level a channel already holds leaves the byte as it was. */
  lemma RewriteIsIdentity(b: bv8)
    ensures WithSun(b, SunOf(b)) == b && WithTorch(b, TorchOf(b)) == b
  {
    NibblesDetermineByte(WithSun(b, SunOf(b)), b);
    NibblesDetermineByte(WithTorch(b, TorchOf(b)), b);
  }

  /** A second torch write in range replaces the first entirely. */
  lemma TorchOverwrite(b: bv8, first: int, second: int)
    requires 0 <= first <= 15 && 0 <= second <= 15
    ensures WithTorch(WithTorch(b, first), second) == WithTorch(b, second)
  {
    NibblesDetermineByte(WithTorch(WithTorch(b, first), second), WithTorch(b, second));
  }

  /** The torch setter, unlike the sun setter, does not mask its argument. */
  lemma TorchAboveFifteenCorruptsSun()
    ensures SunOf(WithTorch(Pack(2, 0), 16)) == 3
  {
  }

  // ---------------------------------------------------------------------
  // Whole-chunk light passes (SetSunlight(value), CalculateLight).

  /**
   * The torch level SetTorchlight writes when called without a level. The
   * default argument is declared in Chunk.h, which is not part of this model;
   * the brightest level is used.
   */
  const DEFAULT_TORCH: int := MAX_LIGHT

  /** A call into the light manager. */
  datatype LightRequest =
    | AddLight(cell: Pos)
    | RemoveLight(cell: Pos, level: int)

  /** The light map after every cell's sun nibble has been set to `value`. */
  function UniformSun(light: seq<bv8>, value: int): (r: seq<bv8>)
    requires |light| == CELLS
    ensures |r| == CELLS
  {
    seq(CELLS, i requires 0 <= i < CELLS => WithSun(light[i], value))
  }

  /** Every cell's sun level is the value's low four bits; no torch level changes. */
  lemma UniformSunLevels(light: seq<bv8>, value: int)
    requires |light| == CELLS
    ensures forall i :: 0 <= i < CELLS ==>
      TorchOf(UniformSun(light, value)[i]) == TorchOf(light[i]) && SunOf(UniformSun(light, value)[i]) == value % 16
  {
  }

  /** The light map after every torch block's torch nibble has been set to the default level. */
  function SeedTorches(blocks: seq<int>, light: seq<bv8>): (r: seq<bv8>)
    requires |blocks| == CELLS && |light| == CELLS
    ensures |r| == CELLS
  {
    seq(CELLS, i requires 0 <= i < CELLS =>
      if blocks[i] == BT_TORCH then WithTorch(light[i], DEFAULT_TORCH) else light[i])
  }

  /** Torch blocks get the default torch level; every other level is kept. */
  lemma SeedTorchesLevels(blocks: seq<int>, light: seq<bv8>)
    requires |blocks| == CELLS && |light| == CELLS
    ensures forall i :: 0 <= i < CELLS ==>
      SunOf(SeedTorches(blocks, light)[i]) == SunOf(light[i]) &&
      TorchOf(SeedTorches(blocks, light)[i]) == (if blocks[i] == BT_TORCH then DEFAULT_TORCH else TorchOf(light[i]))
  {
  }

  /** The light sources CalculateLight reports for the cells at offsets below n, in visiting order. */
  function TorchRequests(blocks: seq<int>, n: int): (r: seq<LightRequest>)
    requires |blocks| == CELLS && 0 <= n <= CELLS
  {
    if n == 0 then []
    else TorchRequests(blocks, n - 1) + (if blocks[n - 1] == BT_TORCH then [AddLight(CoordOf(n - 1))] else [])
  }

  /** The first n cells give at most n reports, and each is a new light source. */
  lemma {:induction false} TorchRequestsAreSources(blocks: seq<int>, n: int)
    requires |blocks| == CELLS && 0 <= n <= CELLS
    ensures |TorchRequests(blocks, n)| <= n
    ensures forall k :: 0 <= k < |TorchRequests(blocks, n)| ==> TorchRequests(blocks, n)[k].AddLight?
  {
    if n > 0 {
      TorchRequestsAreSources(blocks, n - 1);
    }
  }

  /** Every torch cell below n is reported exactly once, and nothing else is. */
  lemma {:induction false} TorchRequestsOnce(blocks: seq<int>, n: int, c: Pos)
    requires |blocks| == CELLS && 0 <= n <= CELLS
    ensures multiset(TorchRequests(blocks, n))[AddLight(c)] ==
      if InChunkAt(c) && IndexAt(c) < n && blocks[IndexAt(c)] == BT_TORCH then 1 else 0
  {
    if n > 0 {
      TorchRequestsOnce(blocks, n - 1, c);
      TorchRequestsStep(blocks, n, c);
    }
  }

  /** The cell at offset n - 1 adds one report of c exactly when it is a torch stored at c. */
  lemma TorchRequestsStep(blocks: seq<int>, n: int, c: Pos)
    requires |blocks| == CELLS && 0 < n <= CELLS
    ensures multiset(TorchRequests(blocks, n))[AddLight(c)] ==
      multiset(TorchRequests(blocks, n - 1))[AddLight(c)] +
      if InChunkAt(c) && IndexAt(c) == n - 1 && blocks[n - 1] == BT_TORCH then 1 else 0
  {
    var last: seq<LightRequest> := if blocks[n - 1] == BT_TORCH then [AddLight(CoordOf(n - 1))] else [];
    assert TorchRequests(blocks, n) == TorchRequests(blocks, n - 1) + last;
    assert multiset(TorchRequests(blocks, n)) == multiset(TorchRequests(blocks, n - 1)) + multiset(last);
    CellAtOffset(n - 1, c);
  }

  /** Visiting cell (x, y, z) adds its report, if it is a torch, after those of the cells stored before it. */
  lemma TorchRequestsNext(blocks: seq<int>, x: int, y: int, z: int)
    requires |blocks| == CELLS && InChunk(x, y, z)
    ensures TorchRequests(blocks, Index(x, y, z) + 1) == TorchRequests(blocks, Index(x, y, z)) +
      if blocks[Index(x, y, z)] == BT_TORCH then [AddLight((x, y, z))] else []
  {
    CoordOfIndex(x, y, z);
  }

  /** The cell stored at offset i is c exactly when c is in the chunk and stored at i. */
  lemma CellAtOffset(i: int, c: Pos)
    requires 0 <= i < CELLS
    ensures CoordOf(i) == c <==> InChunkAt(c) && IndexAt(c) == i
  {
    if InChunkAt(c) {
      CoordOfIndex(c.0, c.1, c.2);
    }
  }

  /**
   * After both passes of a load, every cell sees sun level 2, and a torch
   * block's torch nibble holds the default level while others keep theirs.
   */
  lemma LoadLighting(blocks: seq<int>, light: seq<bv8>)
    requires |blocks| == CELLS && |light| == CELLS
    ensures var r := SeedTorches(blocks, UniformSun(light, 2));
      forall i :: 0 <= i < CELLS ==>
        SunOf(r[i]) == 2 &&
        TorchOf(r[i]) == (if blocks[i] == BT_TORCH then DEFAULT_TORCH else TorchOf(light[i]))
  {
    UniformSunLevels(light, 2);
    SeedTorchesLevels(blocks, UniformSun(light, 2));
  }
}
