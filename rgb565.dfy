/**
 RGB888 to RGB565 packing, as both drivers' `ShowImage` does it with numpy: for each
 pixel, byte 0 holds the top five bits of red and the top three bits of green,
 byte 1 the next three bits of green and the top five bits of blue; pixels are
 laid out row-major, byte 0 before byte 1.
 */
module Rgb565 {
  import opened LcdBus

  /** One pixel of a PIL "RGB" image; numpy works on its channels as `uint8`. */
  datatype Rgb = Rgb(r: bv8, g: bv8, b: bv8)

  /** A PIL image: its `size` and its rows of pixels. */
  datatype RasterData = RasterData(width: nat, height: nat, rows: seq<seq<Rgb>>)

  /** Every PIL image is rectangular: `height` rows of `width` pixels. */
  type Raster = img: RasterData
    | |img.rows| == img.height && forall y :: 0 <= y < |img.rows| ==> |img.rows[y]| == img.width
    witness RasterData(0, 0, [])

  /** `pix[..., 0] = (R & 0xF8) + (G >> 5)` in `uint8` arithmetic. */
  function PackedHigh(p: Rgb): bv8
  {
    (p.r & 0xF8) + (p.g >> 5)
  }

  /** `pix[..., 1] = ((G << 3) & 0xE0) + (B >> 3)` in `uint8` arithmetic (the shift wraps). */
  function PackedLow(p: Rgb): bv8
  {
    ((p.g << 3) & 0xE0) + (p.b >> 3)
  }

  /** The two sums never carry: `+` in the driver equals bitwise OR, so the fields do not
      overlap. */
  lemma PackedHighNoCarry(p: Rgb)
    ensures PackedHigh(p) == (p.r & 0xF8) | (p.g >> 5)
    ensures (p.r & 0xF8) & (p.g >> 5) == 0
  {
  }

  lemma PackedLowNoCarry(p: Rgb)
    ensures PackedLow(p) == ((p.g << 3) & 0xE0) | (p.b >> 3)
    ensures ((p.g << 3) & 0xE0) & (p.b >> 3) == 0
  {
  }

  /** The 5-6-5 fields a panel reads back out of the two bytes. */
  datatype Rgb565Fields = Rgb565Fields(red5: bv8, green6: bv8, blue5: bv8)

  function Unpack(high: bv8, low: bv8): (f: Rgb565Fields)
    ensures f.red5 < 32 && f.green6 < 64 && f.blue5 < 32
  {
    Rgb565Fields(high >> 3, ((high & 0x07) << 3) | (low >> 5), low & 0x1F)
  }

  /** Packing keeps exactly the top 5 bits of red, 6 of green and 5 of blue: reading the
      fields back gives the truncated channels, and nothing else. */
  lemma UnpackPacked(p: Rgb)
    ensures Unpack(PackedHigh(p), PackedLow(p)) == Rgb565Fields(p.r >> 3, p.g >> 2, p.b >> 3)
  {
  }

  /** Two pixels pack alike exactly when they agree on their top 5/6/5 bits. */
  lemma PackedEqualIff(p: Rgb, q: Rgb)
    ensures (PackedHigh(p) == PackedHigh(q) && PackedLow(p) == PackedLow(q))
        <==> (p.r >> 3 == q.r >> 3 && p.g >> 2 == q.g >> 2 && p.b >> 3 == q.b >> 3)
  {
    UnpackPacked(p);
    UnpackPacked(q);
  }

  /** White packs to (0xFF, 0xFF) and black to (0x00, 0x00). */
  lemma PackedExtremes()
    ensures PackedHigh(Rgb(0xFF, 0xFF, 0xFF)) == 0xFF && PackedLow(Rgb(0xFF, 0xFF, 0xFF)) == 0xFF
    ensures PackedHigh(Rgb(0, 0, 0)) == 0 && PackedLow(Rgb(0, 0, 0)) == 0
  {
  }

  /** A `uint8` value as it goes onto the bus. */
  function Octet(x: bv8): (b: byte)
    ensures b as int == x as int
  {
    x as int as byte
  }

  function PackRow(row: seq<Rgb>): seq<byte>
  {
    if row == [] then [] else [Octet(PackedHigh(row[0])), Octet(PackedLow(row[0]))] + PackRow(row[1..])
  }

  function PackRows(rows: seq<seq<Rgb>>): seq<byte>
  {
    if rows == [] then [] else PackRow(rows[0]) + PackRows(rows[1..])
  }

  /** `pix.flatten().tolist()`: the whole image, row-major, two bytes per pixel. */
  function PackImage(img: Raster): seq<byte>
  {
    PackRows(img.rows)
  }

  lemma {:induction false} PackRowAt(row: seq<Rgb>, x: nat)
    requires x < |row|
    ensures |PackRow(row)| == 2 * |row|
    ensures PackRow(row)[2 * x] == Octet(PackedHigh(row[x]))
    ensures PackRow(row)[2 * x + 1] == Octet(PackedLow(row[x]))
  {
    if x == 0 {
      PackRowLength(row[1..]);
    } else {
      PackRowAt(row[1..], x - 1);
    }
  }

  lemma {:induction false} PackRowLength(row: seq<Rgb>)
    ensures |PackRow(row)| == 2 * |row|
  {
    if row != [] {
      PackRowLength(row[1..]);
    }
  }

  lemma {:induction false} PackRowsLength(rows: seq<seq<Rgb>>, w: nat)
    requires forall y :: 0 <= y < |rows| ==> |rows[y]| == w
    ensures |PackRows(rows)| == 2 * w * |rows|
  {
    if rows != [] {
      PackRowLength(rows[0]);
      PackRowsLength(rows[1..], w);
      MulSucc(2 * w, |rows| - 1);
    }
  }

  lemma MulSucc(a: nat, n: nat)
    ensures a * (n + 1) == a * n + a
  {
  }

  lemma {:induction false} PackRowsAt(rows: seq<seq<Rgb>>, w: nat, y: nat, x: nat)
    requires forall j :: 0 <= j < |rows| ==> |rows[j]| == w
    requires y < |rows| && x < w
    ensures 2 * (y * w + x) + 1 < |PackRows(rows)|
    ensures PackRows(rows)[2 * (y * w + x)] == Octet(PackedHigh(rows[y][x]))
    ensures PackRows(rows)[2 * (y * w + x) + 1] == Octet(PackedLow(rows[y][x]))
  {
    var head := PackRow(rows[0]);
    var rest := rows[1..];
    PackRowLength(rows[0]);
    assert PackRows(rows) == head + PackRows(rest);
    if y == 0 {
      PackRowAt(rows[0], x);
    } else {
      PackRowsAt(rest, w, y - 1, x);
      var i := 2 * ((y - 1) * w + x);
      MulSucc(w, y - 1);
      assert 2 * (y * w + x) == |head| + i;
    }
  }

  /** The packed buffer has `width * height * 2` bytes, and pixel (x, y) sits at byte
      `2 * (y * width + x)`, its high byte first. */
  lemma PackImageLayout(img: Raster, x: nat, y: nat)
    requires x < img.width && y < img.height
    ensures |PackImage(img)| == img.width * img.height * 2
    ensures 2 * (y * img.width + x) + 1 < |PackImage(img)|
    ensures PackImage(img)[2 * (y * img.width + x)] == Octet(PackedHigh(img.rows[y][x]))
    ensures PackImage(img)[2 * (y * img.width + x) + 1] == Octet(PackedLow(img.rows[y][x]))
  {
    PackRowsAt(img.rows, img.width, y, x);
    PackImageLength(img);
  }

  lemma PackImageLength(img: Raster)
    ensures |PackImage(img)| == img.width * img.height * 2
  {
    PackRowsLength(img.rows, img.width);
  }
}
