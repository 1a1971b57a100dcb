/** ARGB to YUV 4:2:0 conversion of the recording engine (VideoRecorder.convertBitmapToYUV420).
    A pixel is a Kotlin Int laid out as 0xAARRGGBB; the output is a byte buffer whose first
    width*height bytes are luma and whose remaining bytes are U,V pairs, one pair per 2x2 block,
    interleaved from offset width*height on. */
module YuvConvert {

  /** A byte of the output buffer, kept as its unsigned value (the same eight bits that
      Kotlin's Int.toByte() stores). */
  newtype byte = x: int | 0 <= x < 256

  /** `(pixel shr 16) and 0xFF`: `shr` on Int is floor division, `and 0xFF` the non-negative remainder. */
  function Red(pixel: int): (c: int)
    ensures 0 <= c < 256
  {
    (pixel / 0x1_0000) % 0x100
  }

  function Green(pixel: int): (c: int)
    ensures 0 <= c < 256
  {
    (pixel / 0x100) % 0x100
  }

  function Blue(pixel: int): (c: int)
    ensures 0 <= c < 256
  {
    pixel % 0x100
  }

  /** Kotlin's `coerceIn(lo, hi)`. */
  function CoerceIn(x: int, lo: int, hi: int): (r: int)
    requires lo <= hi
    ensures lo <= r <= hi
    ensures lo <= x <= hi ==> r == x
    ensures x < lo ==> r == lo
    ensures hi < x ==> r == hi
  {
    if x < lo then lo else if x > hi then hi else x
  }

  /** Integer weights 77/150/29 out of 256; `shr 8` is floor division by 256. */
  function Luma(r: int, g: int, b: int): int
  {
    (77 * r + 150 * g + 29 * b) / 256
  }

  function ChromaU(r: int, g: int, b: int): int
  {
    128 + (-43 * r - 85 * g + 128 * b) / 256
  }

  function ChromaV(r: int, g: int, b: int): int
  {
    128 + (128 * r - 107 * g - 21 * b) / 256
  }

  /** The weights are chosen so that no clamping is ever needed: for channels in 0..255
      the three components already lie in 0..255. */
  lemma ComponentsNeedNoClamp(r: int, g: int, b: int)
    requires 0 <= r < 256 && 0 <= g < 256 && 0 <= b < 256
    ensures 0 <= Luma(r, g, b) <= 255
    ensures 0 <= ChromaU(r, g, b) <= 255
    ensures 0 <= ChromaV(r, g, b) <= 255
  {
  }

  function YOf(pixel: int): byte
  {
    CoerceIn(Luma(Red(pixel), Green(pixel), Blue(pixel)), 0, 255) as byte
  }

  function UOf(pixel: int): byte
  {
    CoerceIn(ChromaU(Red(pixel), Green(pixel), Blue(pixel)), 0, 255) as byte
  }

  function VOf(pixel: int): byte
  {
    CoerceIn(ChromaV(Red(pixel), Green(pixel), Blue(pixel)), 0, 255) as byte
  }

  /** The stored bytes are the unclamped weighted sums of the pixel's channels. */
  lemma PixelBytesAreUnclamped(pixel: int)
    ensures YOf(pixel) as int == Luma(Red(pixel), Green(pixel), Blue(pixel))
    ensures UOf(pixel) as int == ChromaU(Red(pixel), Green(pixel), Blue(pixel))
    ensures VOf(pixel) as int == ChromaV(Red(pixel), Green(pixel), Blue(pixel))
  {
    ComponentsNeedNoClamp(Red(pixel), Green(pixel), Blue(pixel));
  }

  // ---------------------------------------------------------------------------------------
  // Products of buffer offsets

  /** a * b, defined by repeated addition so that the offset arithmetic of the scan stays
      linear for the prover; MulIsProduct connects it to `*`. */
  function Mul(a: nat, b: nat): nat
  {
    if a == 0 then 0 else Mul(a - 1, b) + b
  }

  lemma {:induction false} MulIsProduct(a: nat, b: nat)
    ensures Mul(a, b) == a * b
  {
    if a > 0 {
      MulIsProduct(a - 1, b);
    }
  }

  lemma MulSucc(a: nat, b: nat)
    ensures Mul(a + 1, b) == Mul(a, b) + b
  {
  }

  /** Size of the converted buffer, width * height * 3 / 2 (Yuv420SizeIsProduct). */
  function Yuv420Size(width: nat, height: nat): nat
  {
    Mul(height, width) * 3 / 2
  }

  lemma Yuv420SizeIsProduct(width: nat, height: nat)
    ensures Mul(height, width) == width * height
    ensures Yuv420Size(width, height) == width * height * 3 / 2
  {
    MulIsProduct(height, width);
  }

  lemma {:induction false} MulMonotone(a: nat, c: nat, b: nat)
    requires a <= c
    ensures Mul(a, b) <= Mul(c, b)
  {
    if a < c {
      MulMonotone(a, c - 1, b);
    }
  }

  lemma {:induction false} MulDouble(a: nat, b: nat)
    ensures Mul(2 * a, b) == 2 * Mul(a, b)
  {
    if a > 0 {
      MulDouble(a - 1, b);
      assert Mul(2 * a, b) == Mul(2 * a - 1, b) + b == Mul(2 * (a - 1), b) + b + b;
    }
  }

  /** For even height the buffer splits into the luma plane and a chroma region of
      (height/2) rows of `width` bytes. */
  lemma EvenSplit(width: nat, height: nat)
    requires height % 2 == 0
    ensures Mul(2 * (height / 2), width) == Mul(height, width) == 2 * Mul(height / 2, width)
  {
    MulDouble(height / 2, width);
  }

  lemma EvenSize(width: nat, height: nat)
    requires height % 2 == 0
    ensures Yuv420Size(width, height) == Mul(height, width) + Mul(height / 2, width)
  {
    EvenSplit(width, height);
  }

  // ---------------------------------------------------------------------------------------
  // Specification of the output buffer

  /** The per-pixel formulas of a scan: the Y, U and V byte of a pixel. The layout below is
      stated for any formulas; the recorder's are RecorderFormulas. */
  datatype Conversion = Conversion(y: int -> byte, u: int -> byte, v: int -> byte)

  const RecorderFormulas: Conversion := Conversion(YOf, UOf, VOf)

  /** The luma plane: one byte per pixel, in pixel order. */
  function LumaPlane(conv: Conversion, pixels: seq<int>): (s: seq<byte>)
    ensures |s| == |pixels|
    ensures forall k :: 0 <= k < |s| ==> s[k] == conv.y(pixels[k])
  {
    seq(|pixels|, k requires 0 <= k < |pixels| => conv.y(pixels[k]))
  }

  /** U then V of `count` pixels two columns apart, starting at pixel index `origin`: the
      chroma bytes of one block row. */
  function ChromaPairs(conv: Conversion, pixels: seq<int>, origin: nat, count: nat): (s: seq<byte>)
    requires origin + 2 * count <= |pixels|
    ensures |s| == 2 * count
  {
    if count == 0 then []
    else
      var pixel := pixels[origin + 2 * (count - 1)];
      ChromaPairs(conv, pixels, origin, count - 1) + [conv.u(pixel), conv.v(pixel)]
  }

  lemma {:induction false} ChromaPairsAt(conv: Conversion, pixels: seq<int>, origin: nat, count: nat, c: nat)
    requires origin + 2 * count <= |pixels|
    requires c < count
    ensures ChromaPairs(conv, pixels, origin, count)[2 * c] == conv.u(pixels[origin + 2 * c])
    ensures ChromaPairs(conv, pixels, origin, count)[2 * c + 1] == conv.v(pixels[origin + 2 * c])
  {
    if c < count - 1 {
      ChromaPairsAt(conv, pixels, origin, count - 1, c);
    }
  }

  /** The interleaved chroma region of the first `blockRows` block rows: block row r holds
      the pairs of pixel row 2*r, one per even column. */
  function ChromaRows(conv: Conversion, pixels: seq<int>, width: nat, blockRows: nat): (s: seq<byte>)
    requires width % 2 == 0
    requires Mul(2 * blockRows, width) <= |pixels|
    ensures |s| == Mul(blockRows, width)
  {
    if blockRows == 0 then []
    else
      var origin := Mul(2 * (blockRows - 1), width);
      assert origin + width == Mul(2 * blockRows - 1, width) <= Mul(2 * blockRows, width);
      ChromaRows(conv, pixels, width, blockRows - 1) + ChromaPairs(conv, pixels, origin, width / 2)
  }

  /** The whole converted buffer for even dimensions: the luma plane followed by the
      interleaved chroma region. */
  function Yuv420(conv: Conversion, pixels: seq<int>, width: nat, height: nat): (s: seq<byte>)
    requires width % 2 == 0 && height % 2 == 0
    requires |pixels| == Mul(height, width)
  {
    EvenSplit(width, height);
    LumaPlane(conv, pixels) + ChromaRows(conv, pixels, width, height / 2)
  }

  /** The specified buffer has the size the converter allocates. */
  lemma Yuv420Length(conv: Conversion, pixels: seq<int>, width: nat, height: nat)
    requires width % 2 == 0 && height % 2 == 0
    requires |pixels| == Mul(height, width)
    ensures |Yuv420(conv, pixels, width, height)| == Yuv420Size(width, height)
  {
    EvenSize(width, height);
  }

  /** The first width*height bytes are the luma plane: byte k is Y of pixel k. */
  lemma Yuv420Luma(conv: Conversion, pixels: seq<int>, width: nat, height: nat, k: nat)
    requires width % 2 == 0 && height % 2 == 0
    requires |pixels| == Mul(height, width)
    requires k < |pixels|
    ensures k < |Yuv420(conv, pixels, width, height)|
    ensures Yuv420(conv, pixels, width, height)[k] == conv.y(pixels[k])
  {
    var luma := LumaPlane(conv, pixels);
    assert Yuv420(conv, pixels, width, height)[k] == luma[k];
  }

  /** From width*height on the buffer holds the interleaved chroma rows. */
  lemma Yuv420Chroma(conv: Conversion, pixels: seq<int>, width: nat, height: nat, x: nat)
    requires width % 2 == 0 && height % 2 == 0
    requires |pixels| == Mul(height, width)
    requires x < Mul(height / 2, width)
    ensures |pixels| + x < |Yuv420(conv, pixels, width, height)|
    ensures Yuv420(conv, pixels, width, height)[|pixels| + x] == ChromaRows(conv, pixels, width, height / 2)[x]
  {
    MulDouble(height / 2, width);
    var luma, chroma := LumaPlane(conv, pixels), ChromaRows(conv, pixels, width, height / 2);
    assert (luma + chroma)[|luma| + x] == chroma[x];
  }

  /** Within the chroma region, block row r occupies offsets r*width up to (r+1)*width, and
      the pair of block (r, c) sits at r*width + 2*c and comes from the top-left pixel of the
      block, at index (2*r)*width + 2*c. */
  lemma {:induction false} ChromaRowsPair(conv: Conversion, pixels: seq<int>, width: nat, blockRows: nat,
                                          blockRow: nat, blockCol: nat, origin: nat, offset: nat)
    requires width % 2 == 0
    requires Mul(2 * blockRows, width) <= |pixels|
    requires blockRow < blockRows && blockCol < width / 2
    requires origin == Mul(2 * blockRow, width) && offset == Mul(blockRow, width)
    ensures origin + width <= |pixels|
    ensures offset + width <= Mul(blockRows, width)
    ensures ChromaRows(conv, pixels, width, blockRows)[offset + 2 * blockCol] == conv.u(pixels[origin + 2 * blockCol])
    ensures ChromaRows(conv, pixels, width, blockRows)[offset + 2 * blockCol + 1] == conv.v(pixels[origin + 2 * blockCol])
  {
    var n := blockRows - 1;
    var last := Mul(2 * n, width);
    assert last + width == Mul(2 * n + 1, width) <= Mul(2 * blockRows, width);
    assert Mul(n, width) + width == Mul(blockRows, width);
    if blockRow < n {
      MulMonotone(2 * n, 2 * blockRows, width);
      ChromaRowsPair(conv, pixels, width, n, blockRow, blockCol, origin, offset);
    } else {
      ChromaPairsAt(conv, pixels, origin, width / 2, blockCol);
    }
  }

  /** The promised chroma layout: for the 2x2 block at block row r and block column c, U
      sits at width*height + r*width + 2*c and V right after it, both taken from the
      block's top-left pixel, at row 2*r and column 2*c. */
  lemma Yuv420ChromaPair(conv: Conversion, pixels: seq<int>, width: nat, height: nat, blockRow: nat, blockCol: nat)
    requires width % 2 == 0 && height % 2 == 0
    requires |pixels| == Mul(height, width)
    requires blockRow < height / 2 && blockCol < width / 2
    ensures Mul(2 * blockRow, width) + 2 * blockCol < |pixels|
    ensures |pixels| + Mul(blockRow, width) + 2 * blockCol + 1 < |Yuv420(conv, pixels, width, height)|
    ensures Yuv420(conv, pixels, width, height)[|pixels| + Mul(blockRow, width) + 2 * blockCol]
            == conv.u(pixels[Mul(2 * blockRow, width) + 2 * blockCol])
    ensures Yuv420(conv, pixels, width, height)[|pixels| + Mul(blockRow, width) + 2 * blockCol + 1]
            == conv.v(pixels[Mul(2 * blockRow, width) + 2 * blockCol])
  {
    EvenSplit(width, height);
    ChromaRowsPair(conv, pixels, width, height / 2, blockRow, blockCol, Mul(2 * blockRow, width), Mul(blockRow, width));
    var x := Mul(blockRow, width) + 2 * blockCol;
    Yuv420Chroma(conv, pixels, width, height, x);
    Yuv420Chroma(conv, pixels, width, height, x + 1);
  }

  // ---------------------------------------------------------------------------------------
  // Bounds of the chroma writes

  /** Number of chroma bytes the scan writes: a U,V pair at every pixel whose row and column
      are both even. */
  function ChromaWriteCount(width: nat, height: nat): nat
  {
    2 * Mul((height + 1) / 2, (width + 1) / 2)
  }

  lemma {:induction false} MulAddFirst(x: nat, y: nat, z: nat)
    ensures Mul(x + y, z) == Mul(x, z) + Mul(y, z)
  {
    if x > 0 {
      MulAddFirst(x - 1, y, z);
    }
  }

  lemma {:induction false} MulAddSecond(x: nat, y: nat, z: nat)
    ensures Mul(x, y + z) == Mul(x, y) + Mul(x, z)
  {
    if x > 0 {
      MulAddSecond(x - 1, y, z);
    }
  }

  /** Multiplying by a parity bit keeps or drops the other factor. */
  lemma {:induction false} MulBit(x: nat, p: nat)
    requires p < 2
    ensures Mul(p, x) == Mul(x, p) == (if p == 0 then 0 else x)
  {
    if x > 0 {
      MulBit(x - 1, p);
    }
  }

  /** Doubling the second factor doubles the product. */
  lemma MulDoubleSecond(x: nat, a: nat)
    ensures Mul(x, 2 * a) == 2 * Mul(x, a)
  {
    MulAddSecond(x, a, a);
  }

  /** With a = width/2, p = width%2, b = height/2 and q = height%2, the pixel count is
      4*Mul(b, a) + 2*Mul(b, p) + 2*Mul(q, a) + Mul(q, p). */
  lemma PixelsByBlocks(width: nat, height: nat)
    ensures var a, p, b, q := width / 2, width % 2, height / 2, height % 2;
            Mul(height, width) == 4 * Mul(b, a) + 2 * Mul(b, p) + 2 * Mul(q, a) + Mul(q, p)
  {
    var a, p, b, q := width / 2, width % 2, height / 2, height % 2;
    MulAddFirst(2 * b, q, 2 * a + p);
    MulDouble(b, 2 * a + p);
    MulAddSecond(b, 2 * a, p);
    MulAddSecond(q, 2 * a, p);
    MulDoubleSecond(b, a);
    MulDoubleSecond(q, a);
  }

  /** With the same names, the chroma write count is 2*(Mul(b, a) + Mul(b, p) + Mul(q, a) + Mul(q, p)). */
  lemma ChromaWritesByBlocks(width: nat, height: nat)
    ensures var a, p, b, q := width / 2, width % 2, height / 2, height % 2;
            ChromaWriteCount(width, height) == 2 * (Mul(b, a) + Mul(b, p) + Mul(q, a) + Mul(q, p))
  {
    var a, p, b, q := width / 2, width % 2, height / 2, height % 2;
    assert (width + 1) / 2 == a + p && (height + 1) / 2 == b + q;
    MulAddFirst(b, q, a + p);
    MulAddSecond(b, a, p);
    MulAddSecond(q, a, p);
  }

  /** The fit condition as linear arithmetic over the block product ba = b*a and the
      parity products bp = b*p, qa = q*a and qp = q*p. */
  lemma FitsByBlocks(a: nat, p: nat, b: nat, q: nat, ba: nat, bp: nat, qa: nat, qp: nat)
    requires p < 2 && q < 2 && 2 * a + p > 0 && 2 * b + q > 0
    requires bp == (if p == 0 then 0 else b) && qa == (if q == 0 then 0 else a)
    requires qp == (if p == 0 then 0 else q)
    ensures var pixels := 4 * ba + 2 * bp + 2 * qa + qp;
            pixels + 2 * (ba + bp + qa + qp) <= pixels * 3 / 2 <==> p == 0 && q == 0
    ensures var pixels := 4 * ba + 2 * bp + 2 * qa + qp;
            p == 0 && q == 0 ==> pixels + 2 * (ba + bp + qa + qp) == pixels * 3 / 2
  {
  }

  /** The chroma writes starting at width*height fit in the buffer of size width*height*3/2
      exactly when both dimensions are even, and then they fill it exactly; with an odd
      dimension the scan writes past the end of the buffer. */
  lemma ChromaFitsIffEvenDimensions(width: nat, height: nat)
    requires width > 0 && height > 0
    ensures Mul(height, width) + ChromaWriteCount(width, height) <= Yuv420Size(width, height)
            <==> width % 2 == 0 && height % 2 == 0
    ensures width % 2 == 0 && height % 2 == 0 ==>
            Mul(height, width) + ChromaWriteCount(width, height) == Yuv420Size(width, height)
  {
    var a, p, b, q := width / 2, width % 2, height / 2, height % 2;
    PixelsByBlocks(width, height);
    ChromaWritesByBlocks(width, height);
    MulBit(b, p);
    MulBit(a, q);
    MulBit(q, p);
    var ba, bp, qa, qp := Mul(b, a), Mul(b, p), Mul(q, a), Mul(q, p);
    FitsByBlocks(a, p, b, q, ba, bp, qa, qp);
  }

  // ---------------------------------------------------------------------------------------
  // The converter

  /** With j <= 2*n <= j + 1, j is even exactly when it equals 2*n. */
  lemma Parity(j: nat, n: nat)
    requires j <= 2 * n <= j + 1
    ensures (j % 2 == 0) == (j == 2 * n)
  {
  }

  /** Row j starts at pixel j*width and its luma fits in the pixels; on an even row (the
      first of block row blockRows) its chroma pairs fit in the buffer and the block row's
      pixels in the image. */
  lemma RowFits(width: nat, height: nat, j: nat, blockRows: nat)
    requires width % 2 == 0 && height % 2 == 0
    requires j < height && j <= 2 * blockRows <= j + 1
    ensures Mul(j, width) + width == Mul(j + 1, width) <= Mul(height, width)
    ensures j % 2 != 0 ==> j + 1 == 2 * blockRows
    ensures j % 2 == 0 ==> j == 2 * blockRows && Mul(2 * (blockRows + 1), width) <= Mul(height, width)
    ensures j % 2 == 0 ==> Mul(blockRows, width) + width <= Mul(height / 2, width)
  {
    MulSucc(j, width);
    MulMonotone(j + 1, height, width);
    Parity(j, blockRows);
    if j % 2 == 0 {
      MulSucc(blockRows, width);
      MulMonotone(blockRows + 1, height / 2, width);
      MulMonotone(2 * blockRows + 2, height, width);
    }
  }

  /** The chroma region of n + 1 block rows extends that of n by the pairs of row 2*n. */
  lemma ChromaRowsStep(conv: Conversion, pixels: seq<int>, width: nat, n: nat)
    requires width % 2 == 0
    requires Mul(2 * (n + 1), width) <= |pixels|
    ensures Mul(2 * n, width) + width <= |pixels|
    ensures ChromaRows(conv, pixels, width, n + 1)
            == ChromaRows(conv, pixels, width, n) + ChromaPairs(conv, pixels, Mul(2 * n, width), width / 2)
  {
    MulMonotone(2 * n + 1, 2 * n + 2, width);
  }

  /** What the scan has produced so far: luma for the pixels below yIndex, and the chroma
      bytes `chroma` from offset lumaSize on. */
  ghost predicate Scanned(yuv: seq<byte>, conv: Conversion, pixels: seq<int>, lumaSize: nat, yIndex: nat, chroma: seq<byte>)
  {
    yIndex <= lumaSize == |pixels| && lumaSize + |chroma| <= |yuv| &&
    (forall k :: 0 <= k < yIndex ==> yuv[k] == conv.y(pixels[k])) &&
    (forall k :: lumaSize <= k < lumaSize + |chroma| ==> yuv[k] == chroma[k - lumaSize])
  }

  /** Writing Y of the next pixel extends the scanned luma by one. */
  lemma LumaScanned(yuv: seq<byte>, conv: Conversion, pixels: seq<int>, lumaSize: nat, yIndex: nat, chroma: seq<byte>)
    requires Scanned(yuv, conv, pixels, lumaSize, yIndex, chroma) && yIndex < lumaSize
    ensures Scanned(yuv[yIndex := conv.y(pixels[yIndex])], conv, pixels, lumaSize, yIndex + 1, chroma)
  {
  }

  /** Writing a U,V pair right after the scanned chroma extends it by that pair. */
  lemma ChromaScanned(yuv: seq<byte>, conv: Conversion, pixels: seq<int>, lumaSize: nat, yIndex: nat, chroma: seq<byte>,
                      u: byte, v: byte)
    requires Scanned(yuv, conv, pixels, lumaSize, yIndex, chroma) && lumaSize + |chroma| + 2 <= |yuv|
    ensures Scanned(yuv[lumaSize + |chroma| := u][lumaSize + |chroma| + 1 := v], conv, pixels, lumaSize, yIndex, chroma + [u, v])
  {
  }

  /** A buffer of the right size whose whole luma plane and whole chroma region have been
      scanned is the specified one. */
  lemma ScannedIsYuv420(yuv: seq<byte>, conv: Conversion, pixels: seq<int>, width: nat, height: nat,
                        yIndex: nat, blockRows: nat, chroma: seq<byte>)
    requires width % 2 == 0 && height % 2 == 0
    requires |pixels| == Mul(height, width) && |yuv| == Yuv420Size(width, height)
    requires yIndex == |pixels| && 2 * blockRows == height && Mul(2 * blockRows, width) <= |pixels|
    requires chroma == ChromaRows(conv, pixels, width, blockRows)
    requires Scanned(yuv, conv, pixels, |pixels|, yIndex, chroma)
    ensures yuv == Yuv420(conv, pixels, width, height)
  {
    var spec := Yuv420(conv, pixels, width, height);
    Yuv420Length(conv, pixels, width, height);
    EvenSize(width, height);
    forall k | 0 <= k < |yuv|
      ensures yuv[k] == spec[k]
    {
      if k < |pixels| {
        Yuv420Luma(conv, pixels, width, height, k);
      } else {
        Yuv420Chroma(conv, pixels, width, height, k - |pixels|);
      }
    }
  }

  /** Fills a fresh buffer in one row-major scan: luma through yIndex, interleaved chroma
      through uvIndex starting at width*height, a U,V pair whenever the row and column are
      both even. Odd dimensions make the scan write past the end of the buffer
      (ChromaFitsIffEvenDimensions), hence the evenness precondition. */
  method ConvertToYuv420(conv: Conversion, pixels: seq<int>, width: nat, height: nat) returns (yuv: array<byte>)
    requires |pixels| == Mul(height, width)
    requires width % 2 == 0 && height % 2 == 0
    ensures yuv.Length == Yuv420Size(width, height)
    ensures yuv[..] == Yuv420(conv, pixels, width, height)
  {
    EvenSize(width, height);
    yuv := new byte[Yuv420Size(width, height)];
    ghost var blockRows, chroma := ScanRows(conv, pixels, width, height, yuv);
    ScannedIsYuv420(yuv[..], conv, pixels, width, height, |pixels|, blockRows, chroma);
  }

  /** The outer loop of the scan, over the pixel rows j: afterwards the whole luma plane and
      the chroma of all height/2 block rows have been written. */
  method ScanRows(conv: Conversion, pixels: seq<int>, width: nat, height: nat, yuv: array<byte>)
      returns (ghost blockRows: nat, ghost chroma: seq<byte>)
    modifies yuv
    requires |pixels| == Mul(height, width)
    requires width % 2 == 0 && height % 2 == 0
    requires yuv.Length == Mul(height, width) + Mul(height / 2, width)
    ensures 2 * blockRows == height && Mul(2 * blockRows, width) <= |pixels|
    ensures chroma == ChromaRows(conv, pixels, width, blockRows)
    ensures Scanned(yuv[..], conv, pixels, |pixels|, |pixels|, chroma)
  {
    var lumaSize := Mul(height, width);
    chroma := [];
    blockRows := 0;
    var yIndex := 0;
    var uvIndex := lumaSize;
    var j := 0;
    while j < height
      invariant j <= height && j <= 2 * blockRows <= j + 1
      invariant yIndex == Mul(j, width)
      invariant Mul(2 * blockRows, width) <= |pixels|
      invariant chroma == ChromaRows(conv, pixels, width, blockRows)
      invariant uvIndex == lumaSize + |chroma|
      invariant Scanned(yuv[..], conv, pixels, lumaSize, yIndex, chroma)
    {
      RowFits(width, height, j, blockRows);
      ghost var next := Mul(j + 1, width);
      if j % 2 == 0 {
        ChromaRowsStep(conv, pixels, width, blockRows);
      }
      yIndex, uvIndex, chroma := ScanRow(conv, pixels, width, yuv, j, yIndex, uvIndex, lumaSize, chroma);
      assert yIndex == next;
      if j % 2 == 0 {
        blockRows := blockRows + 1;
      }
      j := j + 1;
    }
    assert j == height;
    assert yIndex == |pixels|;
  }

  /** One pass of the inner loop, over pixel row j starting at pixel yIndex0: the row's luma
      bytes follow the luma scanned so far, and on an even row its U,V pairs follow the
      chroma scanned so far. */
  method ScanRow(conv: Conversion, pixels: seq<int>, width: nat, yuv: array<byte>, j: nat, yIndex0: nat, uvIndex0: nat,
                 ghost lumaSize: nat, ghost chroma: seq<byte>)
      returns (yIndex: nat, uvIndex: nat, ghost scanned: seq<byte>)
    modifies yuv
    requires width % 2 == 0
    requires yIndex0 + width <= lumaSize && uvIndex0 == lumaSize + |chroma|
    requires j % 2 == 0 ==> uvIndex0 + width <= yuv.Length
    requires Scanned(yuv[..], conv, pixels, lumaSize, yIndex0, chroma)
    ensures yIndex == yIndex0 + width
    ensures uvIndex == lumaSize + |scanned|
    ensures j % 2 == 0 ==> scanned == chroma + ChromaPairs(conv, pixels, yIndex0, width / 2)
    ensures j % 2 != 0 ==> scanned == chroma
    ensures Scanned(yuv[..], conv, pixels, lumaSize, yIndex, scanned)
  {
    // the chroma scanned so far, this row's pairs included
    scanned := chroma;
    ghost var pairs := 0;
    yIndex, uvIndex := yIndex0, uvIndex0;
    var i := 0;
    while i < width
      invariant i <= width
      invariant yIndex == yIndex0 + i
      invariant j % 2 == 0 ==> i <= 2 * pairs <= i + 1 && 2 * pairs <= width
      invariant j % 2 != 0 ==> pairs == 0
      invariant j % 2 == 0 ==> scanned == chroma + ChromaPairs(conv, pixels, yIndex0, pairs)
      invariant j % 2 != 0 ==> scanned == chroma
      invariant uvIndex == lumaSize + |scanned|
      invariant Scanned(yuv[..], conv, pixels, lumaSize, yIndex, scanned)
    {
      var withChroma := j % 2 == 0 && i % 2 == 0;
      if withChroma {
        Parity(i, pairs);
      }
      ghost var pixel := pixels[yIndex];
      yIndex, uvIndex := ScanPixel(conv, pixels, yuv, withChroma, yIndex, uvIndex, lumaSize, scanned);
      if withChroma {
        ghost var pair := [conv.u(pixel), conv.v(pixel)];
        assert (chroma + ChromaPairs(conv, pixels, yIndex0, pairs)) + pair
               == chroma + (ChromaPairs(conv, pixels, yIndex0, pairs) + pair);
        scanned := scanned + pair;
        pairs := pairs + 1;
      }
      i := i + 1;
    }
    if j % 2 == 0 {
      Parity(width, pairs);
      assert pairs == width / 2;
    }
  }

  /** The body of the inner loop for the pixel at yIndex0 (row j, column i): its Y byte goes
      to yIndex0 and, when row and column are both even, its U and V bytes to uvIndex0 and
      the byte after. */
  method ScanPixel(conv: Conversion, pixels: seq<int>, yuv: array<byte>, withChroma: bool, yIndex0: nat, uvIndex0: nat,
                   ghost lumaSize: nat, ghost scanned: seq<byte>)
      returns (yIndex: nat, uvIndex: nat)
    modifies yuv
    requires yIndex0 < lumaSize && uvIndex0 == lumaSize + |scanned|
    requires withChroma ==> uvIndex0 + 2 <= yuv.Length
    requires Scanned(yuv[..], conv, pixels, lumaSize, yIndex0, scanned)
    ensures yIndex == yIndex0 + 1
    ensures !withChroma ==> uvIndex == uvIndex0 && Scanned(yuv[..], conv, pixels, lumaSize, yIndex, scanned)
    ensures withChroma ==> (uvIndex == uvIndex0 + 2 &&
      Scanned(yuv[..], conv, pixels, lumaSize, yIndex, scanned + [conv.u(pixels[yIndex0]), conv.v(pixels[yIndex0])]))
  {
    var pixel := pixels[yIndex0];
    LumaScanned(yuv[..], conv, pixels, lumaSize, yIndex0, scanned);
    yuv[yIndex0] := conv.y(pixel);
    yIndex, uvIndex := yIndex0 + 1, uvIndex0;
    if withChroma {
      ChromaScanned(yuv[..], conv, pixels, lumaSize, yIndex, scanned, conv.u(pixel), conv.v(pixel));
      yuv[uvIndex] := conv.u(pixel);
      uvIndex := uvIndex + 1;
      yuv[uvIndex] := conv.v(pixel);
      uvIndex := uvIndex + 1;
    }
  }
}
