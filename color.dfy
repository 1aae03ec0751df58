/** Colour handling shared by the hue-cycling scripts: `hsl_to_rgb` and the
    per-frame hue step `hue = (hue + 0.5) % 360`. */
module Color {
  import opened PyNum

  /** An (r, g, b) triple as `hsl_to_rgb` returns it and as a stroke colour. */
  datatype Rgb = Rgb(r: int, g: int, b: int)

  const Black := Rgb(0, 0, 0)

  /** Channel values before they are scaled to 0..255. */
  datatype Shares = Shares(r: real, g: real, b: real)

  /** The chroma `c` for saturation and lightness given as fractions. */
  function Chroma(s: real, l: real): real
  {
    (1.0 - Abs(2.0 * l - 1.0)) * s
  }

  /** The lightness match `m` added to every channel. */
  function Match(s: real, l: real): real
  {
    l - Chroma(s, l) / 2.0
  }

  /** The second-largest component `x` for hue `h` in degrees and chroma `c`. */
  function Second(h: real, c: real): real
  {
    c * (1.0 - Abs(FloorMod(h / 60.0, 2.0) - 1.0))
  }

  /** The six 60-degree hue sectors; a hue outside [0, 360) matches none of them
      and keeps the initial (0, 0, 0). */
  function SectorShares(h: real, c: real, x: real): Shares
  {
    if 0.0 <= h < 60.0 then Shares(c, x, 0.0)
    else if 60.0 <= h < 120.0 then Shares(x, c, 0.0)
    else if 120.0 <= h < 180.0 then Shares(0.0, c, x)
    else if 180.0 <= h < 240.0 then Shares(0.0, x, c)
    else if 240.0 <= h < 300.0 then Shares(x, 0.0, c)
    else if 300.0 <= h < 360.0 then Shares(c, 0.0, x)
    else Shares(0.0, 0.0, 0.0)
  }

  /** The channel values of `hsl_to_rgb` just before `int(... * 255)`;
      saturation and lightness are given in percent. */
  function Shade(h: real, s: real, l: real): Shares
  {
    var s1 := s / 100.0;
    var l1 := l / 100.0;
    var c := Chroma(s1, l1);
    var z := SectorShares(h, c, Second(h, c));
    var m := Match(s1, l1);
    Shares(z.r + m, z.g + m, z.b + m)
  }

  /** `int(v * 255)`. */
  function Scale(v: real): int
  {
    Trunc(v * 255.0)
  }

  /** `hsl_to_rgb(h, s, l)`. */
  function HslToRgb(h: real, s: real, l: real): Rgb
  {
    var z := Shade(h, s, l);
    Rgb(Scale(z.r), Scale(z.g), Scale(z.b))
  }

  predicate InByteRange(c: Rgb)
  {
    0 <= c.r <= 255 && 0 <= c.g <= 255 && 0 <= c.b <= 255
  }

  // ---------------------------------------------------------------------------
  // Properties of hsl_to_rgb

  lemma ScaleOfUnit(v: real)
    requires 0.0 <= v <= 1.0
    ensures 0 <= Scale(v) <= 255
  {
  }

  lemma ProductBelow(k: real, s: real)
    requires 0.0 <= k && 0.0 <= s <= 1.0
    ensures 0.0 <= k * s <= k
  {
    NonNegativeProduct(k, s);
    NonNegativeProduct(k, 1.0 - s);
    assert k * (1.0 - s) == k - k * s;
  }

  /** For saturation and lightness fractions in [0, 1], the chroma and the match
      keep every share in [0, 1]: 0 <= m and c + m <= 1. */
  lemma ChromaFits(s: real, l: real)
    requires 0.0 <= s <= 1.0 && 0.0 <= l <= 1.0
    ensures 0.0 <= Chroma(s, l)
    ensures 0.0 <= Match(s, l) && Chroma(s, l) + Match(s, l) <= 1.0
  {
    var k := 1.0 - Abs(2.0 * l - 1.0);
    ProductBelow(k, s);
    MatchFits(l, k, k * s);
  }

  /** The linear core of `ChromaFits`, for any chroma `c` between 0 and its bound `k`. */
  lemma MatchFits(l: real, k: real, c: real)
    requires 0.0 <= l <= 1.0 && k == 1.0 - Abs(2.0 * l - 1.0) && 0.0 <= c <= k
    ensures 0.0 <= l - c / 2.0 && c + (l - c / 2.0) <= 1.0
  {
  }

  /** The second component never exceeds the chroma. */
  lemma SecondFits(h: real, c: real)
    requires 0.0 <= c
    ensures 0.0 <= Second(h, c) <= c
  {
    ProductBelow(c, 1.0 - Abs(FloorMod(h / 60.0, 2.0) - 1.0));
  }

  /** Every channel of `hsl_to_rgb` is in [0, 255] whenever saturation and
      lightness are percentages; this holds for every hue, also outside [0, 360). */
  lemma HslChannelsInRange(h: real, s: real, l: real)
    requires 0.0 <= s <= 100.0 && 0.0 <= l <= 100.0
    ensures InByteRange(HslToRgb(h, s, l))
  {
    var s1, l1 := s / 100.0, l / 100.0;
    var c := Chroma(s1, l1);
    ChromaFits(s1, l1);
    SecondFits(h, c);
    var z := Shade(h, s, l);
    ScaleOfUnit(z.r);
    ScaleOfUnit(z.g);
    ScaleOfUnit(z.b);
  }

  /** Fully saturated, half-lit colours (the scripts' constant saturation 100 and
      lightness 50) always have one channel at 255 and another at 0. */
  lemma FullySaturatedHasExtremes(h: real)
    requires 0.0 <= h < 360.0
    ensures var rgb := HslToRgb(h, 100.0, 50.0);
      && InByteRange(rgb)
      && (rgb.r == 255 || rgb.g == 255 || rgb.b == 255)
      && (rgb.r == 0 || rgb.g == 0 || rgb.b == 0)
  {
    assert Chroma(1.0, 0.5) == 1.0;
    assert Match(1.0, 0.5) == 0.0;
    HslChannelsInRange(h, 100.0, 50.0);
  }

  /** A hue outside [0, 360) matches no sector, so all three channels equal
      `int(m * 255)`: a grey. */
  lemma OutOfRangeHueIsGrey(h: real, s: real, l: real)
    requires h < 0.0 || 360.0 <= h
    ensures var rgb := HslToRgb(h, s, l);
      rgb.r == rgb.g == rgb.b == Scale(Match(s / 100.0, l / 100.0))
  {
  }

  // ---------------------------------------------------------------------------
  // The reference algorithm of section 4.2.4 of CSS Color Module Level 3

  /** HUE_TO_RGB of CSS Color Module Level 3, section 4.2.4; `h` is a fraction
      of a full turn. */
  function CssHueToRgb(m1: real, m2: real, h: real): real
  {
    var h1 := if h < 0.0 then h + 1.0 else h;
    var h2 := if h1 > 1.0 then h1 - 1.0 else h1;
    if h2 * 6.0 < 1.0 then m1 + (m2 - m1) * h2 * 6.0
    else if h2 * 2.0 < 1.0 then m2
    else if h2 * 3.0 < 2.0 then m1 + (m2 - m1) * (2.0 / 3.0 - h2) * 6.0
    else m1
  }

  /** HSL_TO_RGB of CSS Color Module Level 3, section 4.2.4; hue, saturation
      and lightness are fractions. */
  function CssHslToRgb(h: real, s: real, l: real): Shares
  {
    var m2 := if l <= 0.5 then l * (s + 1.0) else l + s - l * s;
    var m1 := l * 2.0 - m2;
    Shares(CssHueToRgb(m1, m2, h + 1.0 / 3.0), CssHueToRgb(m1, m2, h), CssHueToRgb(m1, m2, h - 1.0 / 3.0))
  }

  /** The CSS bounds m1 and m2 are the script's m and c + m. */
  lemma CssBounds(s: real, l: real)
    ensures var m2 := if l <= 0.5 then l * (s + 1.0) else l + s - l * s;
      m2 == Chroma(s, l) + Match(s, l) && l * 2.0 - m2 == Match(s, l)
  {
    if l <= 0.5 {
      assert Chroma(s, l) == 2.0 * l * s;
    } else {
      assert Chroma(s, l) == (2.0 - 2.0 * l) * s;
    }
  }

  /** The three CSS channels for a hue fraction `t` and bounds m1 = m, m2 = c + m. */
  function CssTriple(t: real, c: real, m: real): Shares
  {
    Shares(CssHueToRgb(m, c + m, t + 1.0 / 3.0), CssHueToRgb(m, c + m, t), CssHueToRgb(m, c + m, t - 1.0 / 3.0))
  }

  /** The script's sector shares for hue `h` in degrees, lifted by `m`. */
  function Lifted(h: real, c: real, m: real): Shares
  {
    var z := SectorShares(h, c, Second(h, c));
    Shares(z.r + m, z.g + m, z.b + m)
  }

  lemma CssSector0(h: real, c: real, m: real)
    requires 0.0 <= h < 60.0
    ensures Lifted(h, c, m) == CssTriple(h / 360.0, c, m)
  {
    var hh, t := h / 60.0, h / 360.0;
    FloorModInBand(hh, 0, 2.0);
    assert 1.0 - Abs(FloorMod(hh, 2.0) - 1.0) == hh;
    assert Second(h, c) == c * hh;
    assert t * 6.0 == hh;
    assert c * t * 6.0 == c * (t * 6.0);
  }

  lemma CssSector1(h: real, c: real, m: real)
    requires 60.0 <= h < 120.0
    ensures Lifted(h, c, m) == CssTriple(h / 360.0, c, m)
  {
    var hh, t := h / 60.0, h / 360.0;
    FloorModInBand(hh, 0, 2.0);
    assert Second(h, c) == c * (2.0 - hh);
    assert c * (2.0 / 3.0 - (t + 1.0 / 3.0)) * 6.0 == c * (2.0 - hh);
  }

  lemma CssSector2(h: real, c: real, m: real)
    requires 120.0 <= h < 180.0
    ensures Lifted(h, c, m) == CssTriple(h / 360.0, c, m)
  {
    var hh, t := h / 60.0, h / 360.0;
    FloorModInBand(hh, 1, 2.0);
    assert Second(h, c) == c * (hh - 2.0);
    assert c * (t - 1.0 / 3.0) * 6.0 == c * (hh - 2.0);
  }

  lemma CssSector3(h: real, c: real, m: real)
    requires 180.0 <= h < 240.0
    ensures Lifted(h, c, m) == CssTriple(h / 360.0, c, m)
  {
    var hh, t := h / 60.0, h / 360.0;
    FloorModInBand(hh, 1, 2.0);
    assert Second(h, c) == c * (4.0 - hh);
    assert c * (2.0 / 3.0 - t) * 6.0 == c * (4.0 - hh);
  }

  lemma CssSector4(h: real, c: real, m: real)
    requires 240.0 <= h < 300.0
    ensures Lifted(h, c, m) == CssTriple(h / 360.0, c, m)
  {
    var hh, t := h / 60.0, h / 360.0;
    FloorModInBand(hh, 2, 2.0);
    assert Second(h, c) == c * (hh - 4.0);
    assert c * (t + 1.0 / 3.0 - 1.0) * 6.0 == c * (hh - 4.0);
  }

  lemma CssSector5(h: real, c: real, m: real)
    requires 300.0 <= h < 360.0
    ensures Lifted(h, c, m) == CssTriple(h / 360.0, c, m)
  {
    var hh, t := h / 60.0, h / 360.0;
    FloorModInBand(hh, 2, 2.0);
    assert Second(h, c) == c * (6.0 - hh);
    assert c * (2.0 / 3.0 - (t - 1.0 / 3.0)) * 6.0 == c * (6.0 - hh);
  }

  /** On a hue in [0, 360), the chroma/offset form used by the scripts computes
      the same channel values as the CSS Color Module Level 3 algorithm. */
  lemma ShadeMatchesCss(h: real, s: real, l: real)
    requires 0.0 <= h < 360.0
    ensures Shade(h, s, l) == CssHslToRgb(h / 360.0, s / 100.0, l / 100.0)
  {
    var s1, l1 := s / 100.0, l / 100.0;
    var c, m := Chroma(s1, l1), Match(s1, l1);
    CssBounds(s1, l1);
    assert CssHslToRgb(h / 360.0, s1, l1) == CssTriple(h / 360.0, c, m);
    assert Shade(h, s, l) == Lifted(h, c, m);
    if h < 60.0 {
      CssSector0(h, c, m);
    } else if h < 120.0 {
      CssSector1(h, c, m);
    } else if h < 180.0 {
      CssSector2(h, c, m);
    } else if h < 240.0 {
      CssSector3(h, c, m);
    } else if h < 300.0 {
      CssSector4(h, c, m);
    } else {
      CssSector5(h, c, m);
    }
  }

  /** Hence `hsl_to_rgb` on a hue in [0, 360) is the CSS conversion followed by
      `int(v * 255)` on each channel. */
  lemma HslToRgbIsCss(h: real, s: real, l: real)
    requires 0.0 <= h < 360.0
    ensures var z := CssHslToRgb(h / 360.0, s / 100.0, l / 100.0);
      HslToRgb(h, s, l) == Rgb(Scale(z.r), Scale(z.g), Scale(z.b))
  {
    ShadeMatchesCss(h, s, l);
  }

  // ---------------------------------------------------------------------------
  // Hue cycling

  /** `hue = (hue + 0.5) % 360`. */
  function NextHue(h: real): (r: real)
    ensures 0.0 <= r < 360.0
  {
    FloorMod(h + 0.5, 360.0)
  }

  /** The hue after `n` frames. */
  function HueAfter(h0: real, n: nat): (r: real)
    ensures 0.0 <= h0 < 360.0 ==> 0.0 <= r < 360.0
  {
    if n == 0 then h0 else NextHue(HueAfter(h0, n - 1))
  }

  /** Cycling by 0.5 degree per frame is the same as adding n/2 degrees once and
      reducing modulo 360. */
  lemma {:induction false} HueAfterIsOffset(h0: real, n: nat)
    requires 0.0 <= h0 < 360.0
    ensures HueAfter(h0, n) == FloorMod(h0 + 0.5 * n as real, 360.0)
  {
    if n == 0 {
      FloorModOfSmall(h0, 360.0);
    } else {
      HueAfterIsOffset(h0, n - 1);
      FloorModOfSum(h0 + 0.5 * (n - 1) as real, 0.5, 360.0);
      assert h0 + 0.5 * (n - 1) as real + 0.5 == h0 + 0.5 * n as real;
    }
  }

  /** After 720 frames at 0.5 degree per frame the hue is back where it started. */
  lemma HueReturnsAfter720(h0: real)
    requires 0.0 <= h0 < 360.0
    ensures HueAfter(h0, 720) == h0
  {
    HueAfterIsOffset(h0, 720);
    FloorModShift(h0, 1, 360.0);
    FloorModOfSmall(h0, 360.0);
  }
}
