/** The sticker effect (`src/util/stickerify.js`).

    An image is redrawn, scaled to fit a 2000×2000 area and centred, on a square canvas with
    a 240-pixel margin, first blurred in white. The alpha pass then makes every pixel of the
    blurred copy that is not fully transparent fully opaque, which gives the sticker's white
    outline. Canvas drawing, blurring and shadows are outside the model; the pixel buffer is
    an array of bytes, four per pixel (red, green, blue, alpha). */
module Sticker {

  const STROKE_THICKNESS: int := 30
  const CANVAS_DIMENSION: int := 2000
  /** The margin that keeps the outline from being clipped. */
  const BUFFER: int := STROKE_THICKNESS * 8
  /** The canvas's width and height. */
  const SIDE: int := CANVAS_DIMENSION + BUFFER

  /** The canvas is 2240 pixels square: a full-size image leaves a margin of four stroke
      thicknesses on each side for the outline. */
  lemma CanvasSide()
    ensures BUFFER == 240 && SIDE == 2240
    ensures (SIDE - CANVAS_DIMENSION) / 2 == 4 * STROKE_THICKNESS
  {
  }

  // ---------------------------------------------------------------- placement

  /** `Math.min(2000 / width, 2000 / height)`. */
  function ScaleFactor(width: real, height: real): (f: real)
    requires width > 0.0 && height > 0.0
    ensures f > 0.0
    ensures f == 2000.0 / width || f == 2000.0 / height
    ensures f <= 2000.0 / width && f <= 2000.0 / height
  {
    var fw := 2000.0 / width;
    var fh := 2000.0 / height;
    if fw <= fh then fw else fh
  }

  /** Where the scaled image lands on the canvas: its top-left corner and its size. */
  datatype Placement = Placement(x: real, y: real, width: real, height: real)

  function Place(width: real, height: real): Placement
    requires width > 0.0 && height > 0.0
  {
    var f := ScaleFactor(width, height);
    var w := width * f;
    var h := height * f;
    Placement((SIDE as real - w) / 2.0, (SIDE as real - h) / 2.0, w, h)
  }

  /** The scaled image fits the 2000×2000 area and fills it along one side, keeping the
      image's proportions; it is centred, with at least the 120-pixel half-margin on every
      side. */
  lemma PlaceFitsAndCentres(width: real, height: real)
    requires width > 0.0 && height > 0.0
    ensures var p := Place(width, height);
      && 0.0 < p.width <= 2000.0 && 0.0 < p.height <= 2000.0
      && (p.width == 2000.0 || p.height == 2000.0)
      && p.width * height == p.height * width
      && p.x + p.width + p.x == SIDE as real && p.y + p.height + p.y == SIDE as real
      && p.x >= 120.0 && p.y >= 120.0
  {
    var f := ScaleFactor(width, height);
    var fw, fh := 2000.0 / width, 2000.0 / height;
    assert width * fw == 2000.0;
    assert height * fh == 2000.0;
    if f == fw {
      assert f <= fh;
      assert height * f <= height * fh;
    } else {
      assert f <= fw;
      assert width * f <= width * fw;
    }
  }

  // ---------------------------------------------------------------- the alpha pass

  type Byte = b: int | 0 <= b < 256

  /** Byte `k` of the outlined buffer: an alpha byte above 0 becomes 255. */
  function OutlinedByte(data: seq<Byte>, k: nat): Byte
    requires k < |data|
  {
    if k % 4 == 3 && data[k] > 0 then 255 else data[k]
  }

  /** Every pixel's alpha made 255 when it is above 0; all other bytes as they were. */
  function Outlined(data: seq<Byte>): (r: seq<Byte>)
    ensures |r| == |data|
  {
    seq(|data|, k requires 0 <= k < |data| => OutlinedByte(data, k))
  }

  /** The outline keeps transparency exactly where the blurred image was transparent, and
      nothing but alpha bytes change. */
  lemma OutlinedSpec(data: seq<Byte>, k: int)
    requires 0 <= k < |data|
    ensures k % 4 != 3 ==> Outlined(data)[k] == data[k]
    ensures k % 4 == 3 ==> (Outlined(data)[k] == 0 <==> data[k] == 0)
    ensures k % 4 == 3 ==> (Outlined(data)[k] == 255 <==> data[k] > 0)
  {
  }

  /** Outlining twice is outlining once. */
  lemma OutlinedIdempotent(data: seq<Byte>)
    ensures Outlined(Outlined(data)) == Outlined(data)
  {
  }

  /** What the pass as written leaves: the outline everywhere except the first pixel's alpha. */
  function OutlinedAsWritten(data: seq<Byte>): (r: seq<Byte>)
    ensures |r| == |data|
  {
    seq(|data|, k requires 0 <= k < |data| => if k == 3 then data[3] else Outlined(data)[k])
  }

  /** The buffer with the bytes from index `from` on outlined: the state of either loop. */
  function Partial(orig: seq<Byte>, from: int): (r: seq<Byte>)
    ensures |r| == |orig|
  {
    seq(|orig|, k requires 0 <= k < |orig| => if k >= from then OutlinedByte(orig, k) else orig[k])
  }

  /** One step of either loop: outlining pixel `i / 4` is setting its alpha byte. */
  lemma PartialStep(orig: seq<Byte>, i: int)
    requires 0 <= i && i % 4 == 0 && i + 3 < |orig|
    ensures Partial(orig, i) == Partial(orig, i + 4)[i + 3 := OutlinedByte(orig, i + 3)]
  {
    var a, b := Partial(orig, i), Partial(orig, i + 4)[i + 3 := OutlinedByte(orig, i + 3)];
    forall k | 0 <= k < |orig| ensures a[k] == b[k] {
      if i <= k < i + 3 {
        assert k % 4 != 3;
      }
    }
  }

  /** Before either loop nothing is outlined. */
  lemma PartialNone(orig: seq<Byte>, from: int)
    requires from >= |orig|
    ensures Partial(orig, from) == orig
  {
  }

  /** After the corrected loop every byte is outlined. */
  lemma PartialAll(orig: seq<Byte>)
    ensures Partial(orig, 0) == Outlined(orig)
  {
    var a, b := Partial(orig, 0), Outlined(orig);
    forall k | 0 <= k < |orig| ensures a[k] == b[k] {
      assert a[k] == OutlinedByte(orig, k);
    }
  }

  /** After the loop as written every byte but the first pixel's is outlined. */
  lemma PartialFromFour(orig: seq<Byte>)
    ensures Partial(orig, 4) == OutlinedAsWritten(orig)
  {
    var a, b := Partial(orig, 4), OutlinedAsWritten(orig);
    forall k | 0 <= k < |orig| ensures a[k] == b[k] {
      if k < 3 {
        assert a[k] == orig[k] && b[k] == Outlined(orig)[k] == OutlinedByte(orig, k);
        assert k % 4 != 3;
      } else if k == 3 {
        assert a[k] == orig[3] == b[k];
      } else {
        assert a[k] == OutlinedByte(orig, k) && b[k] == Outlined(orig)[k];
      }
    }
  }

  /** The loop as written starts at `i = length` and stops before 0: it touches the alpha
      bytes `i + 3` for `i = length - 4, ..., 4` (the read at `length + 3` is past the end,
      `undefined > 0` is false), so the first pixel's alpha, byte 3, is never visited. */
  method AlphaPassAsWritten(data: array<Byte>)
    requires data.Length % 4 == 0
    modifies data
    ensures data[..] == OutlinedAsWritten(old(data[..]))
  {
    ghost var orig := data[..];
    var i := data.Length;
    PartialNone(orig, i + 4);
    while i > 0
      invariant 0 <= i <= data.Length && i % 4 == 0
      invariant data[..] == Partial(orig, i + 4)
    {
      if i + 3 < data.Length {
        PartialStep(orig, i);
        if data[i + 3] > 0 {
          data[i + 3] := 255;
        }
      } else {
        PartialNone(orig, i);
      }
      i := i - 4;
    }
    PartialFromFour(orig);
  }

  /** As written, a first pixel that is partly transparent stays so: the outline has a gap
      there. A single pixel with alpha 1 shows it. */
  lemma FirstPixelMissedAsWritten(data: seq<Byte>)
    requires |data| >= 4 && 0 < data[3] < 255
    ensures OutlinedAsWritten(data) != Outlined(data)
    ensures OutlinedAsWritten([0, 0, 0, 1]) == [0, 0, 0, 1]
  {
    assert OutlinedAsWritten(data)[3] != Outlined(data)[3];
    var one: seq<Byte> := [0, 0, 0, 1];
    assert Outlined(one)[0] == 0 && Outlined(one)[1] == 0 && Outlined(one)[2] == 0;
    assert OutlinedAsWritten(one)[0] == 0 && OutlinedAsWritten(one)[1] == 0;
    assert OutlinedAsWritten(one)[2] == 0 && OutlinedAsWritten(one)[3] == 1;
  }

  /** Apart from that byte the two passes agree. */
  lemma AsWrittenAgreesElsewhere(data: seq<Byte>, k: int)
    requires 0 <= k < |data| && k != 3
    ensures OutlinedAsWritten(data)[k] == Outlined(data)[k]
  {
  }

  /** Corrected: `i` runs from `length - 4` down to 0, so every pixel's alpha byte is visited
      and the buffer ends up outlined. */
  method AlphaPass(data: array<Byte>)
    requires data.Length % 4 == 0
    modifies data
    ensures data[..] == Outlined(old(data[..]))
  {
    ghost var orig := data[..];
    var i := data.Length - 4;
    PartialNone(orig, i + 4);
    while i >= 0
      invariant -4 <= i <= data.Length - 4 && i % 4 == 0
      invariant data[..] == Partial(orig, i + 4)
    {
      PartialStep(orig, i);
      if data[i + 3] > 0 {
        data[i + 3] := 255;
      }
      i := i - 4;
    }
    PartialAll(orig);
  }
}
