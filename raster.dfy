/** Image buffers as the scripts use them: `height x width x 3` arrays of `uint8`
    that start white, are cleared to white with `[:] = 255`, and receive anti-aliased
    lines and filled circles. The pixels OpenCV sets for a line or a circle are not
    modelled: a `Painter` says how one stroke changes an image, and a canvas is
    always the strokes drawn on it since it was last cleared, painted over white. */
module Raster {
  import opened PyNum
  import opened Arms
  import opened Color

  newtype byte = x: int | 0 <= x < 256

  /** A whole frame, row-major, three channels per pixel. */
  type Image = seq<byte>

  /** One OpenCV drawing call: `cv2.line(img, from, to, color, width, lineType)`
      (`smooth` is `cv2.LINE_AA`) or a filled `cv2.circle(img, center, radius, color, -1)`. */
  datatype Stroke =
    | Line(from: Point, to: Point, color: Rgb, width: int, smooth: bool)
    | Disc(center: Point, radius: int, color: Rgb)

  /** How a rasteriser changes an image for one stroke; it never resizes the image. */
  type Painter = p: (Image, Stroke) -> Image | forall img, s :: |p(img, s)| == |img|
    witness (img: Image, s: Stroke) => img

  /** A white image of `n` bytes, as `np.ones(...) * 255`. */
  function White(n: nat): (img: Image)
    ensures |img| == n && forall i :: 0 <= i < n ==> img[i] == 255
  {
    seq(n, _ => 255)
  }

  /** The image obtained by painting `strokes`, in order, over a white image of `n` bytes. */
  function Painted(paint: Painter, n: nat, strokes: seq<Stroke>): (img: Image)
    ensures |img| == n
  {
    if strokes == [] then White(n)
    else paint(Painted(paint, n, strokes[..|strokes| - 1]), strokes[|strokes| - 1])
  }

  /** Drawing one more stroke paints it over what is already there. */
  lemma PaintedSnoc(paint: Painter, n: nat, strokes: seq<Stroke>, s: Stroke)
    ensures Painted(paint, n, strokes + [s]) == paint(Painted(paint, n, strokes), s)
  {
    assert (strokes + [s])[..|strokes|] == strokes;
  }

  /** A `height x width x 3` image buffer that is drawn on in place. */
  class Canvas {
    const size: nat
    const paint: Painter
    const pixels: array<byte>
    /** The strokes drawn since the buffer was last white. */
    ghost var strokes: seq<Stroke>

    ghost predicate Valid()
      reads this, pixels
    {
      pixels.Length == size && pixels[..] == Painted(paint, size, strokes)
    }

    /** `np.ones((height, width, 3), dtype=np.uint8) * 255`. */
    constructor (height: nat, width: nat, paint: Painter)
      ensures Valid() && fresh(pixels)
      ensures size == height * width * 3 && this.paint == paint && strokes == []
    {
      size := height * width * 3;
      this.paint := paint;
      pixels := new byte[height * width * 3](_ => 255);
      strokes := [];
    }

    /** `canvas[:] = 255`: every byte becomes 255 and nothing is drawn any more. */
    method Clear()
      requires Valid()
      modifies this, pixels
      ensures Valid() && strokes == []
      ensures forall i :: 0 <= i < pixels.Length ==> pixels[i] == 255
    {
      forall i | 0 <= i < pixels.Length {
        pixels[i] := 255;
      }
      strokes := [];
    }

    /** One `cv2.line` or `cv2.circle` call on this buffer. */
    method Draw(s: Stroke)
      requires Valid()
      modifies this, pixels
      ensures Valid() && strokes == old(strokes) + [s]
    {
      var next := paint(pixels[..], s);
      forall i | 0 <= i < pixels.Length {
        pixels[i] := next[i];
      }
      PaintedSnoc(paint, size, strokes, s);
      strokes := strokes + [s];
    }
  }

  // ---------------------------------------------------------------------------
  // The multiplicative blend of two layers

  /** One byte of `((t / 255.0) * (a / 255.0) * 255).astype(np.uint8)`, over exact reals. */
  function BlendChannel(t: byte, a: byte): (v: byte)
    ensures v <= t && v <= a
    ensures v == 0 <==> (t as int) * (a as int) < 255
    ensures a == 255 ==> v == t
    ensures t == 255 ==> v == a
  {
    BlendIsQuotient(t as int, a as int);
    BlendFits(t as int, a as int);
    Trunc((t as real / 255.0) * (a as real / 255.0) * 255.0) as byte
  }

  /** The real-valued product of the normalised layers, truncated, is the integer
      quotient `t * a / 255`. */
  lemma BlendIsQuotient(t: int, a: int)
    requires 0 <= t < 256 && 0 <= a < 256
    ensures Trunc((t as real / 255.0) * (a as real / 255.0) * 255.0) == (t * a) / 255
  {
    var p := t * a;
    assert 0 <= p by {
      assert 0 <= t * a;
    }
    assert (t as real / 255.0) * (a as real / 255.0) * 255.0 == p as real / 255.0;
    var q := p / 255;
    assert p == 255 * q + p % 255;
    assert p as real / 255.0 == q as real + (p % 255) as real / 255.0;
  }

  lemma BlendFits(t: int, a: int)
    requires 0 <= t < 256 && 0 <= a < 256
    ensures 0 <= (t * a) / 255 <= t && (t * a) / 255 <= a
    ensures a == 255 ==> (t * a) / 255 == t
    ensures t == 255 ==> (t * a) / 255 == a
  {
    var p := t * a;
    NonNegativeIntProduct(t, a);
    NonNegativeIntProduct(t, 255 - a);
    NonNegativeIntProduct(255 - t, a);
    assert t * (255 - a) == 255 * t - p;
    assert (255 - t) * a == 255 * a - p;
    DivBelow(p, t);
    DivBelow(p, a);
    if a == 255 {
      assert p == 255 * t;
    }
    if t == 255 {
      assert p == 255 * a;
    }
  }

  lemma NonNegativeIntProduct(x: int, y: int)
    requires 0 <= x && 0 <= y
    ensures 0 <= x * y
  {
  }

  /** A dividend at most `255 * b` has a quotient by 255 of at most `b`. */
  lemma DivBelow(p: int, b: int)
    requires 0 <= p <= 255 * b
    ensures 0 <= p / 255 <= b
  {
    var q := p / 255;
    assert p == 255 * q + p % 255;
  }

  /** The frame written by the layered variant: the two layers multiplied byte by byte. */
  function Blended(trace: Image, arms: Image): (frame: Image)
    requires |trace| == |arms|
    ensures |frame| == |trace|
  {
    seq(|trace|, i requires 0 <= i < |trace| => BlendChannel(trace[i], arms[i]))
  }

  /** A byte that is 0 in either layer is 0 in the blend, and a byte that is white
      in one layer shows the other layer unchanged. */
  lemma BlendKeepsInk(trace: Image, arms: Image, i: int)
    requires |trace| == |arms| && 0 <= i < |trace|
    ensures (trace[i] == 0 || arms[i] == 0) ==> Blended(trace, arms)[i] == 0
    ensures arms[i] == 255 ==> Blended(trace, arms)[i] == trace[i]
    ensures trace[i] == 255 ==> Blended(trace, arms)[i] == arms[i]
    ensures Blended(trace, arms)[i] <= trace[i] && Blended(trace, arms)[i] <= arms[i]
  {
  }

  /** Blending with a white arms layer gives back the trace layer. */
  lemma BlendWithWhite(trace: Image)
    ensures Blended(trace, White(|trace|)) == trace
  {
  }

  /** Blending over a white trace layer gives back the arms layer. */
  lemma WhiteTraceShowsArms(arms: Image)
    ensures Blended(White(|arms|), arms) == arms
  {
  }
}
