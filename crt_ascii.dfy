/** The CRT/ASCII post-processing effect: barrel distortion with a hard
    discard, aberration, grading, noise, a glyph-cell grid with a row glitch,
    the brightness-to-glyph table, scanlines, vignette and bloom, and the
    effect object that holds the program's uniforms. */
module CrtAscii {
  import opened Glsl
  import opened Optional
  import opened Timeline

  /** The uniforms of the fragment program, in declaration order. */
  datatype Uniforms = Uniforms(
    cellSize: real,
    invert: bool,
    colorMode: bool,
    asciiStyle: int,
    time: real,
    resolution: Vec2,
    scanlineIntensity: real,
    scanlineCount: real,
    vignetteIntensity: real,
    vignetteRadius: real,
    curvature: real,
    aberrationStrength: real,
    noiseIntensity: real,
    noiseScale: real,
    noiseSpeed: real,
    glitchIntensity: real,
    glitchFrequency: real,
    brightnessAdjust: real,
    contrastAdjust: real,
    bloomMix: real)

  /** The divisions of the program are by non-zero numbers: the cell size,
      the resolution and, when the vignette is on, its radius. */
  predicate WellSized(u: Uniforms) {
    u.cellSize != 0.0 && u.resolution.x != 0.0 && u.resolution.y != 0.0 &&
    (u.vignetteIntensity <= 0.0 || u.vignetteRadius != 0.0)
  }

  // ---------------------------------------------------------------------
  // Pseudo-random numbers and value noise

  /** `random(st) = fract(sin(dot(st, (12.9898, 78.233))) * 43758.5453123)` */
  function Random(m: Builtins, st: Vec2): (r: real)
    ensures 0.0 <= r < 1.0
  {
    Fract(m.sin(Dot2(st, Vec2(12.9898, 78.233))) * 43758.5453123)
  }

  /** The interpolation formula of `noise`:
      `mix(a, b, w.x) + (c - a) * w.y * (1 - w.x) + (d - b) * w.x * w.y`,
      which is bilinear interpolation written out. */
  function Interpolate(a: real, b: real, c: real, d: real, w: Vec2): (r: real)
    ensures r == Bilinear(a, b, c, d, w)
  {
    var r := Mix(a, b, w.x) + (c - a) * w.y * (1.0 - w.x) + (d - b) * w.x * w.y;
    assert r == (a * (1.0 - w.x) + b * w.x) * (1.0 - w.y) + (c * (1.0 - w.x) + d * w.x) * w.y;
    r
  }

  /** `noise(st)`: value noise, in [0,1] */
  function Noise(m: Builtins, st: Vec2): (r: real)
    ensures InUnit(r)
  {
    var i := Floor2(st);
    var f := Fract2(st);
    var a := Random(m, i);
    var b := Random(m, i.Add(Vec2(1.0, 0.0)));
    var c := Random(m, i.Add(Vec2(0.0, 1.0)));
    var d := Random(m, i.Add(Vec2(1.0, 1.0)));
    var w := Vec2(Hermite(f.x), Hermite(f.y));
    Interpolate(a, b, c, d, w)
  }

  // ---------------------------------------------------------------------
  // The glyph table

  /** `floor(p * 4)`: the position in the 4x4 sub-cell grid */
  function Grid(p: Vec2): (r: (int, int))
    ensures 0.0 <= p.x < 1.0 && 0.0 <= p.y < 1.0 ==> 0 <= r.0 <= 3 && 0 <= r.1 <= 3
  {
    ((p.x * 4.0).Floor, (p.y * 4.0).Floor)
  }

  /** The brightness below which a style draws nothing */
  function LowestThreshold(style: int): real {
    if style == 0 then 0.1 else if style == 1 then 0.15 else if style == 2 then 0.25 else 0.1
  }

  /** The brightness from which a style draws a full cell */
  function TopThreshold(style: int): real {
    if style == 0 then 0.8 else if style == 1 then 0.7 else if style == 2 then 0.75 else 0.75
  }

  /** `getChar(brightness, p, style)`: the glyph coverage at sub-cell
      position `p` for a cell of the given brightness */
  function GetChar(brightness: real, p: Vec2, style: int): (r: real)
    ensures InUnit(r)
    ensures brightness < LowestThreshold(style) ==> r == 0.0
    ensures brightness >= TopThreshold(style) ==> r == 1.0
  {
    var (gx, gy) := Grid(p);
    if style == 0 then StandardGlyph(brightness, gx, gy)
    else if style == 1 then DotGlyph(brightness, gx, gy)
    else if style == 2 then LineGlyph(brightness, gx, gy)
    else BlockGlyph(brightness)
  }

  /** Style 0, the standard glyph ramp */
  function StandardGlyph(brightness: real, gx: int, gy: int): (r: real)
    ensures InUnit(r)
    ensures brightness < 0.1 ==> r == 0.0
    ensures brightness >= 0.8 ==> r == 1.0
  {
    if brightness < 0.1 then 0.0
    else if brightness < 0.2 then (if gx == 1 && gy == 1 then 0.3 else 0.0)
    else if brightness < 0.35 then (if (gx == 1 || gx == 2) && (gy == 1 || gy == 2) then 1.0 else 0.0)
    else if brightness < 0.5 then (if gy == 1 || gy == 2 then 1.0 else 0.0)
    else if brightness < 0.65 then (if gy == 0 || gy == 3 then 1.0 else if gy == 1 || gy == 2 then 0.5 else 0.0)
    else if brightness < 0.8 then (if gx == 0 || gx == 2 || gy == 0 || gy == 2 then 1.0 else 0.3)
    else 1.0
  }

  /** Style 1, a checkerboard of dots */
  function DotGlyph(brightness: real, gx: int, gy: int): (r: real)
    ensures InUnit(r)
    ensures brightness < 0.15 ==> r == 0.0
    ensures brightness >= 0.7 ==> r == 1.0
  {
    if brightness < 0.15 then 0.0
    else if brightness < 0.3 then (if Mod((gx + gy) as real, 2.0) < 1.0 then 0.5 else 0.0)
    else if brightness < 0.5 then (if Mod((gx + gy) as real, 2.0) < 1.0 then 1.0 else 0.3)
    else if brightness < 0.7 then 0.7
    else 1.0
  }

  /** Style 2, lines */
  function LineGlyph(brightness: real, gx: int, gy: int): (r: real)
    ensures InUnit(r)
    ensures brightness < 0.25 ==> r == 0.0
    ensures brightness >= 0.75 ==> r == 1.0
  {
    if brightness < 0.25 then 0.0
    else if brightness < 0.5 then (if gx == 2 && gy == 2 then 1.0 else 0.0)
    else if brightness < 0.75 then (if gx == 1 || gx == 2 then 0.8 else 0.0)
    else 1.0
  }

  /** Every other style, flat blocks */
  function BlockGlyph(brightness: real): (r: real)
    ensures InUnit(r)
    ensures brightness < 0.1 ==> r == 0.0
    ensures brightness >= 0.75 ==> r == 1.0
  {
    if brightness < 0.1 then 0.0
    else if brightness < 0.25 then 0.25
    else if brightness < 0.5 then 0.5
    else if brightness < 0.75 then 0.75
    else 1.0
  }

  /** Style 3 (and every style other than 0, 1 and 2) draws flat blocks:
      the coverage does not depend on the position in the cell. */
  lemma BlockStyleIgnoresPosition(brightness: real, p: Vec2, q: Vec2, style: int)
    requires style != 0 && style != 1 && style != 2
    ensures GetChar(brightness, p, style) == GetChar(brightness, q, style)
  {
  }

  /** In the block style a brighter cell is never less covered. */
  lemma BlockStyleMonotone(b1: real, b2: real, p: Vec2, style: int)
    requires style != 0 && style != 1 && style != 2
    requires b1 <= b2
    ensures GetChar(b1, p, style) <= GetChar(b2, p, style)
  {
  }

  /** The standard style, unlike the block style, depends on the position:
      a dim cell lights only its inner sub-cell. */
  lemma StandardStyleUsesPosition()
    ensures GetChar(0.15, Vec2(0.3, 0.3), 0) == 0.3
    ensures GetChar(0.15, Vec2(0.0, 0.0), 0) == 0.0
  {
    assert Grid(Vec2(0.3, 0.3)) == (1, 1);
    assert Grid(Vec2(0.0, 0.0)) == (0, 0);
  }

  /** The dot style checkers the cell: a dim cell lights the even sub-cells
      and not the odd ones. */
  lemma DotStyleUsesPosition()
    ensures GetChar(0.2, Vec2(0.0, 0.0), 1) == 0.5
    ensures GetChar(0.2, Vec2(0.3, 0.0), 1) == 0.0
  {
    assert Grid(Vec2(0.0, 0.0)) == (0, 0);
    assert Grid(Vec2(0.3, 0.0)) == (1, 0);
    ParityOfSmall();
  }

  lemma ParityOfSmall()
    ensures Mod((0 + 0) as real, 2.0) == 0.0
    ensures Mod((1 + 0) as real, 2.0) == 1.0
  {
    assert Floor(0.0 / 2.0) == 0.0;
    assert Floor(1.0 / 2.0) == 0.0;
  }

  /** The line style lights only the sub-cell (2, 2) of a dim cell. */
  lemma LineStyleUsesPosition()
    ensures GetChar(0.3, Vec2(0.6, 0.6), 2) == 1.0
    ensures GetChar(0.3, Vec2(0.0, 0.0), 2) == 0.0
  {
    assert Grid(Vec2(0.6, 0.6)) == (2, 2);
    assert Grid(Vec2(0.0, 0.0)) == (0, 0);
  }

  // ---------------------------------------------------------------------
  // Barrel distortion

  /** `c' = c * (1 + curvature * dot(c, c))` in centred [-1,1] coordinates */
  function BarrelRemap(curvature: real, uv: Vec2): (r: Vec2)
    ensures curvature == 0.0 ==> r == uv
    ensures uv == Vec2(0.5, 0.5) ==> r == uv
  {
    var centered := Vec2(uv.x * 2.0 - 1.0, uv.y * 2.0 - 1.0);
    var factor := 1.0 + curvature * Dot2(centered, centered);
    Vec2(centered.x * factor * 0.5 + 0.5, centered.y * factor * 0.5 + 0.5)
  }

  /** The remapped coordinate is off the screen on either axis */
  predicate OffScreen(w: Vec2): (r: bool)
    ensures !r <==> InUnit(w.x) && InUnit(w.y)
  {
    w.x < 0.0 || w.x > 1.0 || w.y < 0.0 || w.y > 1.0
  }

  /** The pixel is dropped by the hard discard of the barrel stage, which is
      off when `curvature <= 0`; a kept pixel's working coordinate is on the screen */
  predicate Discarded(u: Uniforms, uv: Vec2): (r: bool)
    ensures u.curvature <= 0.0 ==> !r
    ensures r <==> u.curvature > 0.0 && OffScreen(ScreenUV(u, uv))
  {
    u.curvature > 0.0 && OffScreen(BarrelRemap(u.curvature, uv))
  }

  /** The working coordinate: remapped when `curvature > 0`, else `uv` */
  function ScreenUV(u: Uniforms, uv: Vec2): (r: Vec2)
    ensures u.curvature <= 0.0 ==> r == uv
  {
    if u.curvature > 0.0 then BarrelRemap(u.curvature, uv) else uv
  }

  /** With non-negative curvature the remap never pulls a point towards the
      centre of the screen, on either axis. */
  lemma BarrelPushesOutward(curvature: real, uv: Vec2)
    requires 0.0 <= curvature
    ensures var r := BarrelRemap(curvature, uv);
            Abs(r.x - 0.5) >= Abs(uv.x - 0.5) && Abs(r.y - 0.5) >= Abs(uv.y - 0.5)
  {
    var centered := Vec2(uv.x * 2.0 - 1.0, uv.y * 2.0 - 1.0);
    var k := 1.0 + curvature * Dot2(centered, centered);
    SquareNonneg(centered.x);
    SquareNonneg(centered.y);
    MulNonneg(curvature, Dot2(centered, centered));
    Stretch(centered.x, k);
    Stretch(centered.y, k);
  }

  /** Halving a coordinate stretched by a factor of at least 1 */
  lemma Stretch(c: real, k: real)
    requires 1.0 <= k
    ensures Abs(c * k * 0.5) >= Abs(c * 0.5)
  {
    if c >= 0.0 {
      MulNonneg(c, k - 1.0);
    } else {
      MulNonneg(-c, k - 1.0);
    }
  }

  /** A pixel whose own coordinate is off the screen stays discarded. */
  lemma OffScreenIsDiscarded(u: Uniforms, uv: Vec2)
    requires u.curvature > 0.0 && OffScreen(uv)
    ensures Discarded(u, uv)
  {
    BarrelPushesOutward(u.curvature, uv);
  }

  /** With positive curvature the four corners of the screen are discarded ... */
  lemma CornersAreDiscarded(u: Uniforms)
    requires u.curvature > 0.0
    ensures Discarded(u, Vec2(0.0, 0.0)) && Discarded(u, Vec2(1.0, 0.0))
    ensures Discarded(u, Vec2(0.0, 1.0)) && Discarded(u, Vec2(1.0, 1.0))
  {
    var k := u.curvature;
    assert BarrelRemap(k, Vec2(0.0, 0.0)) == Vec2(-k, -k);
    assert BarrelRemap(k, Vec2(1.0, 0.0)) == Vec2(1.0 + k, -k);
    assert BarrelRemap(k, Vec2(0.0, 1.0)) == Vec2(-k, 1.0 + k);
    assert BarrelRemap(k, Vec2(1.0, 1.0)) == Vec2(1.0 + k, 1.0 + k);
  }

  /** ... and the centre never is. */
  lemma CentreIsKept(u: Uniforms)
    ensures !Discarded(u, Vec2(0.5, 0.5))
  {
    assert BarrelRemap(u.curvature, Vec2(0.5, 0.5)) == Vec2(0.5, 0.5);
  }

  // ---------------------------------------------------------------------
  // Sampling and grading

  /** The aberration pattern used for both samples: red shifted right by
      `aberrationStrength`, blue left, green in place, opaque; or a plain
      sample when `aberrationStrength <= 0`. */
  function AberrationSample(u: Uniforms, tex: Sampler, p: Vec2): (r: Vec4)
    ensures u.aberrationStrength > 0.0 ==> r.a == 1.0
    ensures u.aberrationStrength <= 0.0 ==> r == tex(p)
    ensures r.g == tex(p).g
  {
    if u.aberrationStrength > 0.0 then
      var offset := u.aberrationStrength;
      var r := tex(p.Add(Vec2(offset, 0.0))).r;
      var g := tex(p).g;
      var b := tex(p.Sub(Vec2(offset, 0.0))).b;
      Vec4(r, g, b, 1.0)
    else
      tex(p)
  }

  /** `(x - 0.5) * contrast + 0.5 + brightness` on one channel: contrast
      pivots around mid-grey, brightness shifts */
  function GradeChannel(x: real, contrast: real, brightness: real): (r: real)
    ensures contrast == 1.0 ==> r == x + brightness
    ensures x == 0.5 ==> r == 0.5 + brightness
  {
    (x - 0.5) * contrast + 0.5 + brightness
  }

  /** `(c - 0.5) * contrastAdjust + 0.5 + brightnessAdjust` */
  function Grade(u: Uniforms, c: Vec3): (r: Vec3)
    ensures u.contrastAdjust == 1.0 && u.brightnessAdjust == 0.0 ==> r == c
    ensures Grey(c) ==> Grey(r)
  {
    Vec3(GradeChannel(c.r, u.contrastAdjust, u.brightnessAdjust),
         GradeChannel(c.g, u.contrastAdjust, u.brightnessAdjust),
         GradeChannel(c.b, u.contrastAdjust, u.brightnessAdjust))
  }

  /** `(noise - 0.5) * noiseIntensity` */
  function NoiseOffset(n: real, intensity: real): (r: real)
    requires InUnit(n)
    ensures 0.0 <= intensity ==> -0.5 * intensity <= r <= 0.5 * intensity
  {
    var r := (n - 0.5) * intensity;
    if 0.0 <= intensity then
      MixOrdered(0.0, intensity, n);
      assert r == n * intensity - 0.5 * intensity;
      r
    else r
  }

  /** The time noise: one offset added to all three channels */
  function AddNoise(u: Uniforms, m: Builtins, workUV: Vec2, c: Vec3): (r: Vec3)
    ensures u.noiseIntensity <= 0.0 ==> r == c
    ensures r.r - c.r == r.g - c.g == r.b - c.b
    ensures 0.0 <= u.noiseIntensity ==> Abs(r.r - c.r) <= 0.5 * u.noiseIntensity
  {
    if u.noiseIntensity > 0.0 then
      var noiseVal := Noise(m, workUV.Scale(u.noiseScale).Shift(u.time * u.noiseSpeed));
      c.Shift(NoiseOffset(noiseVal, u.noiseIntensity))
    else c
  }

  // ---------------------------------------------------------------------
  // The cell grid

  /** `resolution / cellSize`: the number of glyph cells on each axis */
  function CellCount(u: Uniforms): (r: Vec2)
    requires WellSized(u)
    ensures r.x != 0.0 && r.y != 0.0
  {
    NonZeroQuotient(u.resolution.x, u.cellSize);
    NonZeroQuotient(u.resolution.y, u.cellSize);
    Vec2(u.resolution.x / u.cellSize, u.resolution.y / u.cellSize)
  }

  lemma NonZeroQuotient(x: real, y: real)
    requires x != 0.0 && y != 0.0
    ensures x / y != 0.0
  {
    assert (x / y) * y == x;
  }

  /** `floor(uv * cellCount)`: the cell of the original coordinate, the
      whole-numbered corner below `uv * cellCount` on each axis */
  function BaseCell(u: Uniforms, uv: Vec2): (r: Vec2)
    requires WellSized(u)
    ensures r.x == r.x.Floor as real && r.y == r.y.Floor as real
    ensures r.x <= uv.x * CellCount(u).x < r.x + 1.0
    ensures r.y <= uv.y * CellCount(u).y < r.y + 1.0
  {
    Floor2(uv.Mul(CellCount(u)))
  }

  /** The cell coordinate after the row glitch: on glitch frames, rows whose
      hash is below `glitchIntensity` move sideways by `(hash - 0.5) * 20`. */
  function GlitchedCell(u: Uniforms, m: Builtins, uv: Vec2): (r: Vec2)
    requires WellSized(u)
    ensures r.y == BaseCell(u, uv).y
    ensures u.glitchIntensity <= 0.0 || u.glitchFrequency <= 0.0 ==> r == BaseCell(u, uv)
    ensures -10.0 <= r.x - BaseCell(u, uv).x < 10.0
  {
    var cellCoord := BaseCell(u, uv);
    if u.glitchIntensity > 0.0 && u.glitchFrequency > 0.0 then
      var glitchTime := Floor(u.time * u.glitchFrequency);
      var glitchRand := Random(m, Vec2(glitchTime, cellCoord.y));
      if glitchRand < u.glitchIntensity then
        var shift := (Random(m, Vec2(glitchTime + 1.0, cellCoord.y)) - 0.5) * 20.0;
        Vec2(cellCoord.x + shift, cellCoord.y)
      else cellCoord
    else cellCoord
  }

  /** `(cellCoord + 0.5) / cellCount`: the centre of a cell in UV space,
      the point that the grid scaling maps to `cellCoord + 0.5` */
  function CellUV(u: Uniforms, cellCoord: Vec2): (r: Vec2)
    requires WellSized(u)
    ensures r.x * CellCount(u).x == cellCoord.x + 0.5
    ensures r.y * CellCount(u).y == cellCoord.y + 0.5
  {
    var n := CellCount(u);
    Cancel(cellCoord.x + 0.5, n.x);
    Cancel(cellCoord.y + 0.5, n.y);
    cellCoord.Shift(0.5).Div(n)
  }

  lemma Cancel(a: real, n: real)
    requires n != 0.0
    ensures (a / n) * n == a
  {
  }

  /** The centre of a cell lies in that cell: `BaseCell` after `CellUV` is
      the identity on whole-numbered cells. */
  lemma CellCentreInCell(u: Uniforms, cellCoord: Vec2)
    requires WellSized(u)
    requires cellCoord.x == cellCoord.x.Floor as real && cellCoord.y == cellCoord.y.Floor as real
    ensures BaseCell(u, CellUV(u, cellCoord)) == cellCoord
  {
    var c := CellUV(u, cellCoord);
    var b := BaseCell(u, c);
    FloorOfHalfAbove(cellCoord.x, b.x, c.x * CellCount(u).x);
    FloorOfHalfAbove(cellCoord.y, b.y, c.y * CellCount(u).y);
  }

  /** The whole number at or below `k + 0.5` is `k` */
  lemma FloorOfHalfAbove(k: real, f: real, v: real)
    requires k == k.Floor as real && f == f.Floor as real
    requires v == k + 0.5 && f <= v < f + 1.0
    ensures f == k
  {
    assert k.Floor - 1 < f.Floor < k.Floor + 1;
  }

  /** The colour of the (possibly glitched) cell, sampled at its centre */
  function CellColor(u: Uniforms, m: Builtins, tex: Sampler, uv: Vec2): (r: Vec4)
    requires WellSized(u)
    ensures u.aberrationStrength > 0.0 ==> r.a == 1.0
  {
    AberrationSample(u, tex, CellUV(u, GlitchedCell(u, m, uv)))
  }

  /** Every pixel of one cell of the grid is coloured from the same sample */
  lemma CellColorIsPerCell(u: Uniforms, m: Builtins, tex: Sampler, uv1: Vec2, uv2: Vec2)
    requires WellSized(u) && BaseCell(u, uv1) == BaseCell(u, uv2)
    ensures CellColor(u, m, tex, uv1) == CellColor(u, m, tex, uv2)
  {
  }

  /** The cell's luma, inverted when `invert` */
  function GlyphBrightness(u: Uniforms, c: Vec3): (r: real)
    ensures InUnit3(c) ==> InUnit(r)
    ensures u.invert ==> r == 1.0 - Luma(c)
    ensures !u.invert ==> r == Luma(c)
  {
    var brightness := Luma(c);
    if u.invert then 1.0 - brightness else brightness
  }

  // ---------------------------------------------------------------------
  // The fragment program

  /** The glyph colour: the cell colour (`colorMode`) or its brightness,
      times the glyph coverage */
  function Glyph(u: Uniforms, cellColor: Vec3, brightness: real, charValue: real): (r: Vec3)
    ensures !u.colorMode ==> Grey(r)
    ensures charValue == 0.0 ==> r == Vec3(0.0, 0.0, 0.0)
  {
    if u.colorMode then ScaleFacts(cellColor, charValue); cellColor.Scale(charValue)
    else var v := brightness * charValue; Vec3(v, v, v)
  }

  /** Scanlines: `c * (1 - (sin(uv.y * scanlineCount * 3.14159) * 0.5 + 0.5) * scanlineIntensity)` */
  function Scanlines(u: Uniforms, m: Builtins, uv: Vec2, c: Vec3): (r: Vec3)
    ensures u.scanlineIntensity <= 0.0 ==> r == c
    ensures Grey(c) ==> Grey(r)
  {
    if u.scanlineIntensity > 0.0 then
      var scanline := m.sin(uv.y * u.scanlineCount * 3.14159) * 0.5 + 0.5;
      var factor := 1.0 - scanline * u.scanlineIntensity;
      ScaleFacts(c, factor);
      c.Scale(factor)
    else c
  }

  /** `mix(1, 1 - dot(centered, centered) / vignetteRadius, vignetteIntensity)`:
      the vignette weight, 1 at the centre of the screen */
  function VignetteFactor(uv: Vec2, radius: real, intensity: real): (r: real)
    requires radius != 0.0
    ensures uv == Vec2(0.5, 0.5) ==> r == 1.0
    ensures 0.0 < radius && InUnit(intensity) ==> r <= 1.0
  {
    var centered := Vec2(uv.x * 2.0 - 1.0, uv.y * 2.0 - 1.0);
    var d := Dot2(centered, centered);
    VignetteFacts(uv, centered, d, radius);
    Mix(1.0, 1.0 - d / radius, intensity)
  }

  lemma VignetteFacts(uv: Vec2, centered: Vec2, d: real, radius: real)
    requires radius != 0.0
    requires centered == Vec2(uv.x * 2.0 - 1.0, uv.y * 2.0 - 1.0) && d == Dot2(centered, centered)
    ensures uv == Vec2(0.5, 0.5) ==> d / radius == 0.0
    ensures 0.0 < radius ==> 0.0 <= d / radius
  {
    SquareNonneg(centered.x);
    SquareNonneg(centered.y);
    if uv == Vec2(0.5, 0.5) {
      assert centered == Vec2(0.0, 0.0);
    }
  }

  /** The vignette stage: `c` weighted by the vignette factor when `vignetteIntensity > 0` */
  function Vignetting(u: Uniforms, uv: Vec2, c: Vec3): (r: Vec3)
    requires u.vignetteIntensity <= 0.0 || u.vignetteRadius != 0.0
    ensures u.vignetteIntensity <= 0.0 ==> r == c
    ensures Grey(c) ==> Grey(r)
    ensures uv == Vec2(0.5, 0.5) ==> r == c
  {
    if u.vignetteIntensity > 0.0 then
      var factor := VignetteFactor(uv, u.vignetteRadius, u.vignetteIntensity);
      ScaleFacts(c, factor);
      c.Scale(factor)
    else c
  }

  /** Bloom: `c + graded * bloomMix * brightness` */
  function Bloom(u: Uniforms, c: Vec3, graded: Vec3, brightness: real): (r: Vec3)
    ensures u.bloomMix <= 0.0 ==> r == c
    ensures brightness == 0.0 ==> r == c
  {
    if u.bloomMix > 0.0 then c.Add(graded.Scale(u.bloomMix).Scale(brightness)) else c
  }

  /** Everything after the barrel stage, for a kept pixel at `uv` whose
      working coordinate is `workUV`. */
  function Shade(u: Uniforms, m: Builtins, tex: Sampler, uv: Vec2, workUV: Vec2): (r: Vec4)
    requires WellSized(u)
    ensures r.a == CellColor(u, m, tex, uv).a
    ensures !u.colorMode && u.bloomMix <= 0.0 ==> Grey(r.Rgb())
  {
    var sampled := AberrationSample(u, tex, workUV);
    var graded := AddNoise(u, m, workUV, Grade(u, sampled.Rgb()));
    var cellColor := CellColor(u, m, tex, uv);
    var brightness := GlyphBrightness(u, cellColor.Rgb());
    var localUV := Fract2(uv.Mul(CellCount(u)));
    var charValue := GetChar(brightness, localUV, u.asciiStyle);
    var glyph := Glyph(u, cellColor.Rgb(), brightness, charValue);
    var bloomed := Bloom(u, Vignetting(u, uv, Scanlines(u, m, uv, glyph)), graded, brightness);
    Vec4(bloomed.r, bloomed.g, bloomed.b, cellColor.a)
  }

  /** `mainImage`: discard the pixels the barrel stage throws off the screen,
      shade the rest */
  function MainImage(u: Uniforms, m: Builtins, tex: Sampler, uv: Vec2): (r: Vec4)
    requires !Discarded(u, uv) ==> WellSized(u)
    ensures Discarded(u, uv) ==> r == Vec4(0.0, 0.0, 0.0, 0.0)
    ensures !Discarded(u, uv) ==> r == Shade(u, m, tex, uv, ScreenUV(u, uv))
    ensures u.curvature <= 0.0 ==> r == Shade(u, m, tex, uv, uv)
    ensures !Discarded(u, uv) && u.aberrationStrength > 0.0 ==> r.a == 1.0
    ensures !u.colorMode && u.bloomMix <= 0.0 ==> Grey(r.Rgb())
  {
    if u.curvature > 0.0 then
      var workUV := BarrelRemap(u.curvature, uv);
      if OffScreen(workUV) then Vec4(0.0, 0.0, 0.0, 0.0)
      else Shade(u, m, tex, uv, workUV)
    else
      Shade(u, m, tex, uv, uv)
  }

  // ---------------------------------------------------------------------
  // The effect object

  /** The numeric uniforms the constructor accepts */
  datatype NumParam =
    | CellSize | ScanlineIntensity | ScanlineCount | VignetteIntensity | VignetteRadius
    | Curvature | AberrationStrength | NoiseIntensity | NoiseScale | NoiseSpeed
    | GlitchIntensity | GlitchFrequency | BrightnessAdjust | ContrastAdjust | BloomMix
  {
    /** `noiseScale` and `noiseSpeed` have no getter or setter */
    predicate HasAccessor() { this != NoiseScale && this != NoiseSpeed }
  }

  /** The numeric uniforms with a getter and setter */
  type Tunable = p: NumParam | p.HasAccessor() witness CellSize

  /** The constructor's default for each numeric option */
  function DefaultNum(p: NumParam): (r: real)
    ensures 0.0 <= r
  {
    match p
    case CellSize => 6.0
    case ScanlineIntensity => 0.3
    case ScanlineCount => 200.0
    case VignetteIntensity => 0.3
    case VignetteRadius => 0.8
    case Curvature => 0.05
    case AberrationStrength => 0.003
    case NoiseIntensity => 0.02
    case NoiseScale => 100.0
    case NoiseSpeed => 1.0
    case GlitchIntensity => 0.0
    case GlitchFrequency => 0.0
    case BrightnessAdjust => 0.0
    case ContrastAdjust => 1.0
    case BloomMix => 0.2
  }

  /** `uniforms.get(name).value` for a numeric uniform */
  function NumOf(u: Uniforms, p: NumParam): real {
    match p
    case CellSize => u.cellSize
    case ScanlineIntensity => u.scanlineIntensity
    case ScanlineCount => u.scanlineCount
    case VignetteIntensity => u.vignetteIntensity
    case VignetteRadius => u.vignetteRadius
    case Curvature => u.curvature
    case AberrationStrength => u.aberrationStrength
    case NoiseIntensity => u.noiseIntensity
    case NoiseScale => u.noiseScale
    case NoiseSpeed => u.noiseSpeed
    case GlitchIntensity => u.glitchIntensity
    case GlitchFrequency => u.glitchFrequency
    case BrightnessAdjust => u.brightnessAdjust
    case ContrastAdjust => u.contrastAdjust
    case BloomMix => u.bloomMix
  }

  /** `uniforms.get(name).value = v` for a numeric uniform with a setter:
      that uniform reads back `v`, every other uniform is as it was. */
  function WithNum(u: Uniforms, p: Tunable, v: real): (r: Uniforms)
    ensures NumOf(r, p) == v
    ensures forall q :: q != p ==> NumOf(r, q) == NumOf(u, q)
    ensures r.time == u.time && r.resolution == u.resolution
    ensures r.invert == u.invert && r.colorMode == u.colorMode && r.asciiStyle == u.asciiStyle
  {
    match p
    case CellSize => u.(cellSize := v)
    case ScanlineIntensity => u.(scanlineIntensity := v)
    case ScanlineCount => u.(scanlineCount := v)
    case VignetteIntensity => u.(vignetteIntensity := v)
    case VignetteRadius => u.(vignetteRadius := v)
    case Curvature => u.(curvature := v)
    case AberrationStrength => u.(aberrationStrength := v)
    case NoiseIntensity => u.(noiseIntensity := v)
    case GlitchIntensity => u.(glitchIntensity := v)
    case GlitchFrequency => u.(glitchFrequency := v)
    case BrightnessAdjust => u.(brightnessAdjust := v)
    case ContrastAdjust => u.(contrastAdjust := v)
    case BloomMix => u.(bloomMix := v)
  }

  /** A numeric option as given, or else its default */
  function Pick(nums: map<NumParam, real>, p: NumParam): real {
    if p in nums then nums[p] else DefaultNum(p)
  }

  /** The uniforms a new effect starts with: time 0, a 1920x1080 resolution,
      and each option as given or else its default. */
  function InitialUniforms(nums: map<NumParam, real>, invert: Option<bool>, colorMode: Option<bool>,
                           asciiStyle: Option<int>): (r: Uniforms)
    ensures r.time == 0.0 && r.resolution == Vec2(1920.0, 1080.0)
    ensures forall p :: NumOf(r, p) == Pick(nums, p)
    ensures r.invert == invert.GetOr(false) && r.colorMode == colorMode.GetOr(true)
    ensures r.asciiStyle == asciiStyle.GetOr(0)
  {
    var n := (p: NumParam) => Pick(nums, p);
    Uniforms(
      n(CellSize), invert.GetOr(false), colorMode.GetOr(true), asciiStyle.GetOr(0),
      0.0, Vec2(1920.0, 1080.0),
      n(ScanlineIntensity), n(ScanlineCount), n(VignetteIntensity), n(VignetteRadius),
      n(Curvature), n(AberrationStrength), n(NoiseIntensity), n(NoiseScale), n(NoiseSpeed),
      n(GlitchIntensity), n(GlitchFrequency), n(BrightnessAdjust), n(ContrastAdjust), n(BloomMix))
  }

  /** The name index covers the numeric part of the uniform store: two stores
      that agree on every name and on the other uniforms are the same store. */
  lemma StoreIsNamed(u1: Uniforms, u2: Uniforms)
    requires forall p :: NumOf(u1, p) == NumOf(u2, p)
    requires u1.time == u2.time && u1.resolution == u2.resolution
    requires u1.invert == u2.invert && u1.colorMode == u2.colorMode && u1.asciiStyle == u2.asciiStyle
    ensures u1 == u2
  {
    assert NumOf(u1, CellSize) == NumOf(u2, CellSize);
    assert NumOf(u1, ScanlineIntensity) == NumOf(u2, ScanlineIntensity);
    assert NumOf(u1, ScanlineCount) == NumOf(u2, ScanlineCount);
    assert NumOf(u1, VignetteIntensity) == NumOf(u2, VignetteIntensity);
    assert NumOf(u1, VignetteRadius) == NumOf(u2, VignetteRadius);
    assert NumOf(u1, Curvature) == NumOf(u2, Curvature);
    assert NumOf(u1, AberrationStrength) == NumOf(u2, AberrationStrength);
    assert NumOf(u1, NoiseIntensity) == NumOf(u2, NoiseIntensity);
    assert NumOf(u1, NoiseScale) == NumOf(u2, NoiseScale);
    assert NumOf(u1, NoiseSpeed) == NumOf(u2, NoiseSpeed);
    assert NumOf(u1, GlitchIntensity) == NumOf(u2, GlitchIntensity);
    assert NumOf(u1, GlitchFrequency) == NumOf(u2, GlitchFrequency);
    assert NumOf(u1, BrightnessAdjust) == NumOf(u2, BrightnessAdjust);
    assert NumOf(u1, ContrastAdjust) == NumOf(u2, ContrastAdjust);
    assert NumOf(u1, BloomMix) == NumOf(u2, BloomMix);
  }

  /** `new CrtAsciiEffect()` with no options starts from the constructor's
      default table. */
  lemma DefaultOptions()
    ensures InitialUniforms(map[], None, None, None) ==
              Uniforms(6.0, false, true, 0,
                       0.0, Vec2(1920.0, 1080.0),
                       0.3, 200.0, 0.3, 0.8,
                       0.05, 0.003, 0.02, 100.0, 1.0,
                       0.0, 0.0, 0.0, 1.0, 0.2)
  {
    var r := InitialUniforms(map[], None, None, None);
    assert r.cellSize == NumOf(r, CellSize) == DefaultNum(CellSize);
  }

  /** The default store satisfies what the fragment program asks of its uniforms. */
  lemma DefaultsAreDefined()
    ensures WellSized(InitialUniforms(map[], None, None, None))
  {
    DefaultOptions();
  }

  /** The effect object: the uniform store, the private time accumulator
      `_time` (here `elapsed`) and, as ghost state, the deltas seen so far. */
  class CrtAsciiEffect {
    var elapsed: real
    var uniforms: Uniforms
    ghost var deltas: seq<real>

    /** `_time` is the sum of all deltas, and the `time` uniform mirrors it */
    ghost predicate Valid()
      reads this
    {
      elapsed == Elapsed(deltas) && uniforms.time == elapsed
    }

    /** `new CrtAsciiEffect(options)`: the numeric options in `nums`, the
        others by name; missing ones default. */
    constructor (nums: map<NumParam, real>, invert: Option<bool>, colorMode: Option<bool>,
                 asciiStyle: Option<int>)
      ensures Valid() && deltas == []
      ensures elapsed == 0.0 && uniforms == InitialUniforms(nums, invert, colorMode, asciiStyle)
    {
      elapsed := 0.0;
      uniforms := InitialUniforms(nums, invert, colorMode, asciiStyle);
      deltas := [];
    }

    /** `update(renderer, inputBuffer, deltaTime)` */
    method Update(deltaTime: real)
      requires Valid()
      modifies this
      ensures Valid() && deltas == old(deltas) + [deltaTime]
      ensures elapsed == old(elapsed) + deltaTime
      ensures uniforms == old(uniforms).(time := elapsed)
    {
      ElapsedStep(deltas, deltaTime);
      elapsed := elapsed + deltaTime;
      uniforms := uniforms.(time := elapsed);
      deltas := deltas + [deltaTime];
    }

    /** `setSize(width, height)` */
    method SetSize(width: real, height: real)
      requires Valid()
      modifies this
      ensures Valid() && elapsed == old(elapsed) && deltas == old(deltas)
      ensures uniforms == old(uniforms).(resolution := Vec2(width, height))
    {
      uniforms := uniforms.(resolution := Vec2(width, height));
    }

    /** The getter of a numeric parameter */
    function Num(p: Tunable): (r: real)
      reads this
      ensures r == NumOf(uniforms, p)
    {
      NumOf(uniforms, p)
    }

    /** The setter of a numeric parameter; any value is accepted, and
        `noiseScale` and `noiseSpeed` keep their values */
    method SetNum(p: Tunable, v: real)
      requires Valid()
      modifies this
      ensures Valid() && elapsed == old(elapsed) && deltas == old(deltas)
      ensures uniforms == WithNum(old(uniforms), p, v)
      ensures Num(p) == v && forall q: Tunable :: q != p ==> Num(q) == old(Num(q))
      ensures uniforms.noiseScale == old(uniforms.noiseScale)
      ensures uniforms.noiseSpeed == old(uniforms.noiseSpeed)
    {
      var was := uniforms;
      uniforms := WithNum(uniforms, p, v);
      assert NumOf(uniforms, NoiseScale) == NumOf(was, NoiseScale);
      assert NumOf(uniforms, NoiseSpeed) == NumOf(was, NoiseSpeed);
    }

    function Invert(): (r: bool)
      reads this
      ensures r == uniforms.invert
    {
      uniforms.invert
    }

    method SetInvert(v: bool)
      requires Valid()
      modifies this
      ensures Valid() && elapsed == old(elapsed) && deltas == old(deltas)
      ensures uniforms == old(uniforms).(invert := v)
    {
      uniforms := uniforms.(invert := v);
    }

    function ColorMode(): (r: bool)
      reads this
      ensures r == uniforms.colorMode
    {
      uniforms.colorMode
    }

    method SetColorMode(v: bool)
      requires Valid()
      modifies this
      ensures Valid() && elapsed == old(elapsed) && deltas == old(deltas)
      ensures uniforms == old(uniforms).(colorMode := v)
    {
      uniforms := uniforms.(colorMode := v);
    }

    function AsciiStyle(): (r: int)
      reads this
      ensures r == uniforms.asciiStyle
    {
      uniforms.asciiStyle
    }

    method SetAsciiStyle(v: int)
      requires Valid()
      modifies this
      ensures Valid() && elapsed == old(elapsed) && deltas == old(deltas)
      ensures uniforms == old(uniforms).(asciiStyle := v)
    {
      uniforms := uniforms.(asciiStyle := v);
    }
  }
}
