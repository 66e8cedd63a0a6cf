/** `createCheckerboardTexture`: a 64 x 64 RGBA texture of 8 x 8 black and
    white tiles, first built as a grid of [c, c, c, 1] pixels with c in
    {0, 1} and then flattened, row by row, into a byte buffer. */
module Checkerboard {

  /** An element of a `Uint8Array`. */
  newtype byte = x: int | 0 <= x < 256

  const TexSize: nat := 64

  /** The bit test `(i & 0x8) == 0`: bit 3 of `i` is clear exactly when `i`
      lies in an even-numbered run of eight. */
  predicate BitClear(i: nat): (r: bool)
    requires i < 256
    ensures r <==> (i / 8) % 2 == 0
  {
    (i as bv8) & 8 == 0
  }

  /** Pixel (i, j) is white when exactly one of the two bit tests holds. */
  predicate IsWhite(i: nat, j: nat)
    requires i < TexSize && j < TexSize
  {
    BitClear(i) != BitClear(j)
  }

  /** The grid entry [c, c, c, 1] of pixel (i, j). */
  function Pixel(i: nat, j: nat): (p: seq<int>)
    requires i < TexSize && j < TexSize
    ensures |p| == 4 && p[3] == 1
    ensures forall k :: 0 <= k < 3 ==> p[k] == (if IsWhite(i, j) then 1 else 0)
  {
    var c := if IsWhite(i, j) then 1 else 0;
    [c, c, c, 1]
  }

  /** Where channel k of pixel (i, j) goes in the byte buffer. */
  function PixelOffset(i: int, j: int, k: int): int {
    4 * TexSize * i + 4 * j + k
  }

  /** Channel k of pixel (i, j) in the byte buffer: opaque alpha, and each
      colour channel full on a white pixel and off on a black one. */
  function Texel(i: nat, j: nat, k: nat): (b: byte)
    requires i < TexSize && j < TexSize && k < 4
    ensures k == 3 ==> b == 255
    ensures k < 3 ==> (b == 255 <==> IsWhite(i, j)) && (b == 0 <==> !IsWhite(i, j))
  {
    (255 * Pixel(i, j)[k]) as byte
  }

  /** Phase 1: the grid of [c, c, c, 1] pixels. */
  method FillPixelGrid() returns (image: array2<seq<int>>)
    ensures image.Length0 == TexSize && image.Length1 == TexSize
    ensures forall i, j :: 0 <= i < TexSize && 0 <= j < TexSize ==> image[i, j] == Pixel(i, j)
  {
    image := new seq<int>[TexSize, TexSize];
    for i := 0 to TexSize
      invariant forall i', j' :: 0 <= i' < i && 0 <= j' < TexSize ==> image[i', j'] == Pixel(i', j')
    {
      for j := 0 to TexSize
        invariant forall i', j' :: 0 <= i' < i && 0 <= j' < TexSize ==> image[i', j'] == Pixel(i', j')
        invariant forall j' :: 0 <= j' < j ==> image[i, j'] == Pixel(i, j')
      {
        var c := if ((i as bv8) & 8 == 0) != ((j as bv8) & 8 == 0) then 1 else 0;
        image[i, j] := [c, c, c, 1];
      }
    }
  }

  /** The texture buffer: pixels row by row, four bytes (R, G, B, A) each. */
  method CreateCheckerboardTexture() returns (image1: array<byte>)
    ensures image1.Length == 4 * TexSize * TexSize
    ensures forall i, j, k :: 0 <= i < TexSize && 0 <= j < TexSize && 0 <= k < 4 ==>
      image1[PixelOffset(i, j, k)] == Texel(i, j, k)
    ensures forall n :: 0 <= n < image1.Length ==>
      image1[n] == Texel(n / (4 * TexSize), n % (4 * TexSize) / 4, n % 4)
  {
    var image := FillPixelGrid();
    image1 := FlattenGrid(image);
    forall n | 0 <= n < image1.Length
      ensures image1[n] == Texel(n / (4 * TexSize), n % (4 * TexSize) / 4, n % 4)
    {
      OffsetSplit(n);
    }
  }

  /** Phase 2: the `Uint8Array` conversion, 255 times each grid entry,
      pixels row by row. */
  method FlattenGrid(image: array2<seq<int>>) returns (image1: array<byte>)
    requires image.Length0 == TexSize && image.Length1 == TexSize
    requires forall i, j :: 0 <= i < TexSize && 0 <= j < TexSize ==> image[i, j] == Pixel(i, j)
    ensures image1.Length == 4 * TexSize * TexSize
    ensures forall i, j, k :: 0 <= i < TexSize && 0 <= j < TexSize && 0 <= k < 4 ==>
      image1[PixelOffset(i, j, k)] == Texel(i, j, k)
  {
    image1 := new byte[4 * TexSize * TexSize];
    for i := 0 to TexSize
      modifies image1
      invariant forall i', j', k' :: 0 <= i' < i && 0 <= j' < TexSize && 0 <= k' < 4 ==>
        image1[PixelOffset(i', j', k')] == Texel(i', j', k')
    {
      FlattenRow(image, image1, i);
    }
  }

  /** Row i of phase 2: its bytes are written and every other row's bytes
      are kept. */
  method FlattenRow(image: array2<seq<int>>, image1: array<byte>, i: nat)
    requires image.Length0 == TexSize && image.Length1 == TexSize && i < TexSize
    requires forall j :: 0 <= j < TexSize ==> image[i, j] == Pixel(i, j)
    requires image1.Length == 4 * TexSize * TexSize
    modifies image1
    ensures forall n :: 0 <= n < PixelOffset(i, 0, 0) ==> image1[n] == old(image1[n])
    ensures forall j', k' :: 0 <= j' < TexSize && 0 <= k' < 4 ==>
      image1[PixelOffset(i, j', k')] == Texel(i, j', k')
  {
    for j := 0 to TexSize
      invariant forall n :: 0 <= n < PixelOffset(i, 0, 0) ==> image1[n] == old(image1[n])
      invariant forall j', k' :: 0 <= j' < j && 0 <= k' < 4 ==>
        image1[PixelOffset(i, j', k')] == Texel(i, j', k')
    {
      for k := 0 to 4
        invariant forall n :: 0 <= n < PixelOffset(i, 0, 0) ==> image1[n] == old(image1[n])
        invariant forall j', k' :: 0 <= j' < j && 0 <= k' < 4 ==>
          image1[PixelOffset(i, j', k')] == Texel(i, j', k')
        invariant forall k' :: 0 <= k' < k ==> image1[PixelOffset(i, j, k')] == Texel(i, j, k')
      {
        image1[4 * TexSize * i + 4 * j + k] := (255 * image[i, j][k]) as byte;
      }
    }
  }

  /** Every byte of the buffer belongs to exactly one (pixel, channel). */
  lemma OffsetSplit(n: int)
    requires 0 <= n < 4 * TexSize * TexSize
    ensures 0 <= n / (4 * TexSize) < TexSize
    ensures 0 <= n % (4 * TexSize) / 4 < TexSize
    ensures n == PixelOffset(n / (4 * TexSize), n % (4 * TexSize) / 4, n % 4)
    ensures forall i, j, k ::
      (0 <= i < TexSize && 0 <= j < TexSize && 0 <= k < 4 && PixelOffset(i, j, k) == n) ==>
      (i == n / (4 * TexSize) && j == n % (4 * TexSize) / 4 && k == n % 4)
  {
  }

  // ---------------------------------------------------------------------
  // Properties of the pattern

  /** The tiles are 8 x 8 and alternate: a pixel is white exactly when its
      tile row and tile column differ in parity. */
  lemma {:induction false} WhiteIffTileParity(i: nat, j: nat)
    requires i < TexSize && j < TexSize
    ensures IsWhite(i, j) <==> (i / 8 + j / 8) % 2 == 1
  {
    var a, b := i / 8, j / 8;
    assert a < 8 && b < 8;
    assert BitClear(i) <==> a % 2 == 0;
    assert BitClear(j) <==> b % 2 == 0;
    ParityOfSum(a, b);
  }

  /** The sum of two tile numbers is odd exactly when their parities
      differ. */
  lemma ParityOfSum(a: nat, b: nat)
    requires a < 8 && b < 8
    ensures (a + b) % 2 == 1 <==> a % 2 != b % 2
  {
  }

  /** Pixel (0, 0) is black, (0, 8) white and (8, 8) black again. */
  lemma CornerTiles()
    ensures !IsWhite(0, 0) && IsWhite(0, 8) && !IsWhite(8, 8)
    ensures Texel(0, 0, 0) == 0 && Texel(0, 8, 0) == 255 && Texel(8, 8, 0) == 0
  {
  }

  /** Moving t tiles along one axis changes the parity of the tile number
      exactly when t is odd. */
  lemma TileShift(i: nat, t: nat)
    ensures ((i + 8 * t) / 8) % 2 == 0 <==> ((i / 8) % 2 == 0) == (t % 2 == 0)
  {
    assert (i + 8 * t) / 8 == i / 8 + t;
  }

  /** The pattern repeats every 16 pixels along each axis. */
  lemma {:induction false} Period16(i: nat, j: nat)
    requires i < TexSize && j < TexSize
    ensures i + 16 < TexSize ==> IsWhite(i + 16, j) == IsWhite(i, j)
    ensures j + 16 < TexSize ==> IsWhite(i, j + 16) == IsWhite(i, j)
  {
    if i + 16 < TexSize {
      TileShift(i, 2);
    }
    if j + 16 < TexSize {
      TileShift(j, 2);
    }
  }

  /** Moving 8 pixels along either axis flips the colour. */
  lemma {:induction false} Shift8Flips(i: nat, j: nat)
    requires i < TexSize && j < TexSize
    ensures i + 8 < TexSize ==> IsWhite(i + 8, j) == !IsWhite(i, j)
    ensures j + 8 < TexSize ==> IsWhite(i, j + 8) == !IsWhite(i, j)
  {
    if i + 8 < TexSize {
      TileShift(i, 1);
    }
    if j + 8 < TexSize {
      TileShift(j, 1);
    }
  }
}
