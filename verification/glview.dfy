/**
 * The placeholder texture the GL view uploads before the first frame: a
 * checkerboard of 40-pixel tiles in two colours, written row by row into an
 * RGBA byte array of `4 * width * height` bytes.
 */
module GLView {

  /** `unsigned char`. */
  type Byte = bv8

  /** Edge of a checkerboard tile, in pixels. */
  const TileSize: nat := 40

  /** Tile parity test: both tile coordinates even, or both odd. */
  function IsLightTile(i: nat, j: nat): (light: bool)
    ensures light <==> (i / TileSize) % 2 == (j / TileSize) % 2
  {
    var tileX, tileY := i / TileSize, j / TileSize;
    (tileX % 2 == 0 && tileY % 2 == 0) || (tileX % 2 != 0 && tileY % 2 != 0)
  }

  /** RGBA of pixel (i, j): grey on light tiles, dark blue on the others, always opaque. */
  function PixelColour(i: nat, j: nat): (rgba: seq<Byte>)
    ensures |rgba| == 4 && rgba[2] == 128 && rgba[3] == 255
    ensures rgba[0] == rgba[1] == (if (i / TileSize) % 2 == (j / TileSize) % 2 then 128 else 0)
  {
    if IsLightTile(i, j) then [128, 128, 128, 255] else [0, 0, 128, 255]
  }

  /** Offset of the first byte of pixel (i, j) in a row-major RGBA image of width w. */
  function ByteIndex(w: nat, i: nat, j: nat): nat
  {
    i * (w * 4) + j * 4
  }

  /** Pixels 0..n-1 of row i, four bytes each, left to right. */
  function RowBytes(i: nat, n: nat): (bytes: seq<Byte>)
    ensures |bytes| == 4 * n
  {
    if n == 0 then [] else RowBytes(i, n - 1) + PixelColour(i, n - 1)
  }

  /** Rows 0..n-1 of a texture w pixels wide, top to bottom. */
  function Checkerboard(w: nat, n: nat): (bytes: seq<Byte>)
    ensures |bytes| == 4 * w * n
  {
    if n == 0 then []
    else
      assert 4 * w * (n - 1) + 4 * w == 4 * w * n;
      Checkerboard(w, n - 1) + RowBytes(n - 1, w)
  }

  lemma MulLe(a: nat, b: nat, m: nat)
    requires a <= b
    ensures a * m <= b * m
  {
    assert b * m == a * m + (b - a) * m;
  }

  lemma MulLtCancel(a: nat, b: nat, m: nat)
    requires a * m < b * m
    ensures a < b
  {
    if b <= a {
      MulLe(b, a, m);
    }
  }

  /** Quotient and remainder are the only ones: k = q*m + r with r < m fixes both. */
  lemma DivModUnique(k: nat, m: nat, q: nat, r: nat)
    requires 0 < m && r < m && k == q * m + r
    ensures k / m == q && k % m == r
  {
    var q', r' := k / m, k % m;
    assert k == q' * m + r';
    assert (q' + 1) * m == q' * m + m;
    assert (q + 1) * m == q * m + m;
    if q' < q {
      MulLe(q' + 1, q, m);
    } else if q < q' {
      MulLe(q + 1, q', m);
    }
  }

  /** Byte c of pixel (i, j) sits in row i, column j, channel c. */
  lemma {:induction false} ByteIndexDecomposes(w: nat, i: nat, j: nat, c: nat)
    requires j < w && c < 4
    ensures (ByteIndex(w, i, j) + c) / (4 * w) == i
    ensures ((ByteIndex(w, i, j) + c) % (4 * w)) / 4 == j
    ensures (ByteIndex(w, i, j) + c) % 4 == c
  {
    var k := ByteIndex(w, i, j) + c;
    assert i * (w * 4) == i * (4 * w) == 4 * (i * w);
    DivModUnique(k, 4 * w, i, j * 4 + c);
    DivModUnique(j * 4 + c, 4, j, c);
    DivModUnique(k, 4, i * w + j, c);
  }

  /** Every byte of pixel (i, j) lies inside the `4 * w * h`-byte buffer. */
  lemma {:induction false} ByteIndexBounds(w: nat, h: nat, i: nat, j: nat)
    requires i < h && j < w
    ensures ByteIndex(w, i, j) + 3 < 4 * w * h
  {
    assert ByteIndex(w, i, j) + 4 <= i * (w * 4) + w * 4 == (i + 1) * (w * 4);
    assert (i + 1) * (w * 4) <= h * (w * 4) == 4 * w * h;
  }

  /** One row ends where the next begins, and h rows fill the buffer. */
  lemma NextRow(w: nat, i: nat)
    ensures ByteIndex(w, i, w) == ByteIndex(w, i + 1, 0)
    ensures ByteIndex(w, i, 0) == 4 * w * i
    ensures ByteIndex(w, i + 1, 0) == 4 * w * (i + 1)
  {
    assert (i + 1) * (w * 4) == i * (w * 4) + w * 4;
  }

  /** Distinct (pixel, channel) triples write distinct bytes. */
  lemma {:induction false} ByteIndexInjective(w: nat, i: nat, j: nat, c: nat, i': nat, j': nat, c': nat)
    requires j < w && c < 4 && j' < w && c' < 4
    requires ByteIndex(w, i, j) + c == ByteIndex(w, i', j') + c'
    ensures i == i' && j == j' && c == c'
  {
    ByteIndexDecomposes(w, i, j, c);
    ByteIndexDecomposes(w, i', j', c');
  }

  lemma DivMod(k: nat, m: nat)
    requires 0 < m
    ensures k == (k / m) * m + k % m && k % m < m
  {
  }

  lemma NonEmptyRows(w: nat, h: nat, k: nat)
    requires k < 4 * w * h
    ensures 0 < w && k < h * (4 * w)
  {
    assert 4 * w * h == h * (4 * w);
    MulLtCancel(0, h, 4 * w);
  }

  lemma PixelOfByte(w: nat, h: nat, k: nat)
    requires 0 < w && k < h * (4 * w)
    ensures var i, j, c := k / (4 * w), (k % (4 * w)) / 4, k % 4;
      i < h && j < w && c < 4 && ByteIndex(w, i, j) + c == k
  {
    var m := 4 * w;
    var i, r := k / m, k % m;
    DivMod(k, m);
    var j, c := r / 4, r % 4;
    assert r == j * 4 + c;
    assert i * m == i * (w * 4) == 4 * (i * w);
    assert i * m <= k;
    MulLtCancel(i, h, m);
    MulLtCancel(j, w, 4);
    assert k == 4 * (i * w + j) + c;
    DivModUnique(k, 4, i * w + j, c);
  }

  /** Every byte of the buffer belongs to some pixel and channel. */
  lemma {:induction false} ByteIndexCovers(w: nat, h: nat, k: nat)
    requires k < 4 * w * h
    ensures 0 < w
    ensures var i, j, c := k / (4 * w), (k % (4 * w)) / 4, k % 4;
      i < h && j < w && c < 4 && ByteIndex(w, i, j) + c == k
  {
    NonEmptyRows(w, h, k);
    PixelOfByte(w, h, k);
  }

  /** In the first n pixels of row i, byte 4j+c is channel c of pixel j. */
  lemma {:induction false} RowBytesPixel(i: nat, n: nat, j: nat, c: nat)
    requires j < n && c < 4
    ensures RowBytes(i, n)[4 * j + c] == PixelColour(i, j)[c]
  {
    if j < n - 1 {
      RowBytesPixel(i, n - 1, j, c);
    }
  }

  /** In the whole texture, byte c of pixel (i, j) is channel c of that pixel's colour. */
  lemma {:induction false} CheckerboardPixel(w: nat, h: nat, i: nat, j: nat, c: nat)
    requires i < h && j < w && c < 4
    ensures ByteIndex(w, i, j) + c < |Checkerboard(w, h)|
    ensures Checkerboard(w, h)[ByteIndex(w, i, j) + c] == PixelColour(i, j)[c]
  {
    ByteIndexBounds(w, h, i, j);
    NextRow(w, h - 1);
    if i == h - 1 {
      assert ByteIndex(w, i, j) + c == 4 * w * (h - 1) + (4 * j + c);
      RowBytesPixel(i, w, j, c);
    } else {
      ByteIndexBounds(w, h - 1, i, j);
      CheckerboardPixel(w, h - 1, i, j, c);
    }
  }

  /** Every pixel's alpha byte is 255 and its blue byte 128. */
  lemma {:induction false} CheckerboardAlphaAndBlue(w: nat, h: nat, i: nat, j: nat)
    requires i < h && j < w
    ensures ByteIndex(w, i, j) + 3 < |Checkerboard(w, h)|
    ensures Checkerboard(w, h)[ByteIndex(w, i, j) + 3] == 255
    ensures Checkerboard(w, h)[ByteIndex(w, i, j) + 2] == 128
  {
    CheckerboardPixel(w, h, i, j, 2);
    CheckerboardPixel(w, h, i, j, 3);
  }

  /**
   * The fill loop: for each row and each column, writes the pixel's four
   * bytes at its offset. Afterwards the buffer is exactly the checkerboard.
   */
  method FillCheckerboard(tex: array<Byte>, w: nat, h: nat)
    requires tex.Length == 4 * w * h
    modifies tex
    ensures tex[..] == Checkerboard(w, h)
  {
    var i := 0;
    NextRow(w, 0);
    while i < h
      invariant 0 <= i <= h
      invariant ByteIndex(w, i, 0) <= tex.Length
      invariant tex[..ByteIndex(w, i, 0)] == Checkerboard(w, i)
    {
      FillRow(tex, w, h, i, Checkerboard(w, i));
      NextRow(w, i);
      i := i + 1;
    }
    NextRow(w, h);
    assert tex[..] == tex[..ByteIndex(w, h, 0)];
  }

  /** The inner loop of the fill: the pixels of row i, left to right, after the rows above. */
  method FillRow(tex: array<Byte>, w: nat, h: nat, i: nat, ghost above: seq<Byte>)
    requires tex.Length == 4 * w * h && i < h
    requires ByteIndex(w, i, 0) <= tex.Length && tex[..ByteIndex(w, i, 0)] == above
    modifies tex
    ensures ByteIndex(w, i, w) <= tex.Length
    ensures tex[..ByteIndex(w, i, w)] == above + RowBytes(i, w)
  {
    var j := 0;
    while j < w
      invariant 0 <= j <= w
      invariant ByteIndex(w, i, j) <= tex.Length
      invariant tex[..ByteIndex(w, i, j)] == above + RowBytes(i, j)
    {
      var index := ByteIndex(w, i, j);
      ghost var done := tex[..index];
      PaintPixel(tex, w, h, i, j);
      assert tex[..index + 4] == done + PixelColour(i, j);
      assert above + RowBytes(i, j + 1) == (above + RowBytes(i, j)) + PixelColour(i, j);
      j := j + 1;
    }
  }

  /** The body of the inner loop: the four bytes of pixel (i, j), by tile parity. */
  method PaintPixel(tex: array<Byte>, w: nat, h: nat, i: nat, j: nat)
    requires tex.Length == 4 * w * h && i < h && j < w
    modifies tex
    ensures ByteIndex(w, i, j) + 4 <= tex.Length
    ensures tex[..] == old(tex[..ByteIndex(w, i, j)]) + PixelColour(i, j) + old(tex[ByteIndex(w, i, j) + 4..])
  {
    var tileX := i / TileSize;
    var tileY := j / TileSize;
    var index := i * (w * 4) + j * 4;
    ByteIndexBounds(w, h, i, j);
    if (tileX % 2 == 0 && tileY % 2 == 0) || (tileX % 2 != 0 && tileY % 2 != 0) {
      tex[index + 0] := 128;
      tex[index + 1] := 128;
      tex[index + 2] := 128;
      tex[index + 3] := 255;
    } else {
      tex[index + 0] := 0;
      tex[index + 1] := 0;
      tex[index + 2] := 128;
      tex[index + 3] := 255;
    }
  }

  /** What the view hands to GL and to its owner while initialising. */
  datatype GLEvent = TextureUploaded(pixels: seq<Byte>) | InitCallbackRan

  /**
   * The texture part of `initializeGL`: with a non-zero generated texture id
   * the checkerboard is filled and uploaded; the init callback, when one is
   * set, runs afterwards whether or not the texture was made.
   */
  method InitializeTexture(textureId: nat, w: nat, h: nat, hasInitCallback: bool) returns (events: seq<GLEvent>)
    ensures events == (if textureId != 0 then [TextureUploaded(Checkerboard(w, h))] else [])
                      + (if hasInitCallback then [InitCallbackRan] else [])
  {
    events := [];
    if textureId != 0 {
      var dummyTexture := new Byte[4 * w * h];
      FillCheckerboard(dummyTexture, w, h);
      events := events + [TextureUploaded(dummyTexture[..])];
    }
    if hasInitCallback {
      events := events + [InitCallbackRan];
    }
  }
}
