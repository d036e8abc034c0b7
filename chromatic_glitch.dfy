/** The chromatic glitch post-processing effect: its fragment program, stage
    by stage, and the effect object that holds the program's uniforms.

    Every shader function receives the uniforms `u` the program reads as
    globals, the uninterpreted built-ins `m` (sin, cos, length) and, where it
    samples, the input frame `tex`. */
module ChromaticGlitch {
  import opened Glsl
  import opened Optional
  import opened Timeline

  /** The uniforms of the fragment program, in declaration order. */
  datatype Uniforms = Uniforms(
    time: real,
    resolution: Vec2,
    aberrationAmount: real,
    aberrationAngle: real,
    aberrationAnimated: bool,
    aberrationSpeed: real,
    glitchIntensity: real,
    glitchFrequency: real,
    blockGlitchIntensity: real,
    blockGlitchSize: real,
    rgbShiftIntensity: real,
    scanlineIntensity: real,
    scanlineCount: real,
    scanlineSpeed: real,
    waveDistortion: real,
    waveFrequency: real,
    waveSpeed: real,
    saturation: real,
    brightness: real,
    contrast: real,
    vignetteIntensity: real,
    vignetteRadius: real,
    noiseIntensity: real,
    noiseSpeed: real)

  // ---------------------------------------------------------------------
  // Pseudo-random numbers and value noise

  /** `hash(n) = fract(sin(n) * 43758.5453123)` */
  function Hash(m: Builtins, n: real): (r: real)
    ensures 0.0 <= r < 1.0
  {
    Fract(m.sin(n) * 43758.5453123)
  }

  /** `hash2(p) = fract(sin(dot(p, (12.9898, 78.233))) * 43758.5453)` */
  function Hash2(m: Builtins, p: Vec2): (r: real)
    ensures 0.0 <= r < 1.0
  {
    Fract(m.sin(Dot2(p, Vec2(12.9898, 78.233))) * 43758.5453)
  }

  /** The value noise inside the lattice cell with corner `i`, at offset `f`:
      the four corner hashes mixed with smoothstep weights. */
  function NoiseCell(m: Builtins, i: Vec2, f: Vec2): (r: real)
    requires InUnit(f.x) && InUnit(f.y)
    ensures InUnit(r)
  {
    var w := Vec2(Hermite(f.x), Hermite(f.y));
    var a := Hash2(m, i);
    var b := Hash2(m, i.Add(Vec2(1.0, 0.0)));
    var c := Hash2(m, i.Add(Vec2(0.0, 1.0)));
    var d := Hash2(m, i.Add(Vec2(1.0, 1.0)));
    Bilinear(a, b, c, d, w)
  }

  /** `noise(p)`: value noise, in [0,1] */
  function Noise(m: Builtins, p: Vec2): (r: real)
    ensures InUnit(r)
  {
    NoiseCell(m, Floor2(p), Fract2(p))
  }

  /** On a lattice point the noise is the hash of that point. */
  lemma NoiseAtLattice(m: Builtins, p: Vec2)
    requires p.x == Floor(p.x) && p.y == Floor(p.y)
    ensures Noise(m, p) == Hash2(m, p)
  {
    assert Fract2(p) == Vec2(0.0, 0.0);
    assert Floor2(p) == p;
  }

  /** No jump across a vertical grid line: the cell interpolant at its right
      edge equals the right-hand neighbour's interpolant at its left edge. */
  lemma NoiseContinuousAcrossX(m: Builtins, i: Vec2, t: real)
    requires InUnit(t)
    ensures NoiseCell(m, i, Vec2(1.0, t)) == NoiseCell(m, i.Add(Vec2(1.0, 0.0)), Vec2(0.0, t))
  {
    var j := i.Add(Vec2(1.0, 0.0));
    assert j.Add(Vec2(0.0, 1.0)) == i.Add(Vec2(1.0, 1.0));
  }

  /** No jump across a horizontal grid line. */
  lemma NoiseContinuousAcrossY(m: Builtins, i: Vec2, t: real)
    requires InUnit(t)
    ensures NoiseCell(m, i, Vec2(t, 1.0)) == NoiseCell(m, i.Add(Vec2(0.0, 1.0)), Vec2(t, 0.0))
  {
    var j := i.Add(Vec2(0.0, 1.0));
    assert j.Add(Vec2(1.0, 0.0)) == i.Add(Vec2(1.0, 1.0));
  }

  // ---------------------------------------------------------------------
  // Coordinate stages

  /** `waveDistort(uv)`: a horizontal sine offset of the x-coordinate */
  function WaveDistort(u: Uniforms, m: Builtins, uv: Vec2): (r: Vec2)
    ensures u.waveDistortion <= 0.0 ==> r == uv
    ensures r.y == uv.y
  {
    if u.waveDistortion <= 0.0 then uv
    else
      var wave := m.sin(uv.y * u.waveFrequency + u.time * u.waveSpeed) * u.waveDistortion * 0.01;
      uv.Add(Vec2(wave, 0.0))
  }

  lemma WaveDistortBounded(u: Uniforms, m: Builtins, uv: Vec2)
    requires TrigBounded(m) && 0.0 <= u.waveDistortion
    ensures Abs(WaveDistort(u, m, uv).x - uv.x) <= u.waveDistortion * 0.01
  {
    if u.waveDistortion > 0.0 {
      var s := m.sin(uv.y * u.waveFrequency + u.time * u.waveSpeed);
      UnitTimes(s, u.waveDistortion);
    }
  }

  /** `blockGlitch(uv, intensity, blockSize)`: in the bands of height
      1/blockSize whose hash for the current glitch frame falls below
      `intensity`, shift x by a hashed amount. */
  function BlockGlitch(u: Uniforms, m: Builtins, uv: Vec2, intensity: real, blockSize: real): (r: Vec2)
    ensures intensity <= 0.0 ==> r == uv
    ensures r.y == uv.y
    ensures intensity > 0.0 ==> -0.05 * intensity <= r.x - uv.x < 0.05 * intensity
  {
    if intensity <= 0.0 then uv
    else
      var glitchTime := Floor(u.time * u.glitchFrequency);
      var blockY := Floor(uv.y * blockSize);
      var randomVal := Hash(m, blockY + glitchTime * 100.0);
      if randomVal < intensity then
        var offset := BlockOffset(Hash(m, blockY + glitchTime * 200.0), intensity);
        Vec2(uv.x + offset, uv.y)
      else uv
  }

  /** The shift of a glitched block, `(hash - 0.5) * intensity * 0.1` */
  function BlockOffset(h: real, intensity: real): (r: real)
    requires 0.0 <= h < 1.0
    ensures 0.0 < intensity ==> -0.05 * intensity <= r < 0.05 * intensity
  {
    var offset := (h - 0.5) * intensity * 0.1;
    if 0.0 < intensity then
      HashTimesPositive(h, intensity);
      assert offset == 0.1 * (h * intensity) - 0.05 * intensity;
      offset
    else offset
  }

  /** A hash value in [0,1) times a positive factor lies in [0, factor) */
  lemma HashTimesPositive(h: real, k: real)
    requires 0.0 <= h < 1.0 && 0.0 < k
    ensures 0.0 <= h * k < k
  {
    MulNonneg(h, k);
    assert k - h * k == (1.0 - h) * k;
    assert 0.0 < (1.0 - h) * k;
  }

  /** `lineGlitch(uv)`: for the rows (a hundredth of the screen high) whose
      hash falls below `glitchIntensity * 0.1`, a hashed value in [-1,1). */
  function LineGlitch(u: Uniforms, m: Builtins, uv: Vec2): (r: real)
    ensures u.glitchIntensity <= 0.0 ==> r == 0.0
    ensures -1.0 <= r < 1.0
  {
    var glitchTime := Floor(u.time * u.glitchFrequency);
    var lineY := Floor(uv.y * 100.0);
    var randomVal := Hash(m, lineY + glitchTime * 50.0);
    if randomVal < u.glitchIntensity * 0.1 then
      (Hash(m, lineY + glitchTime * 51.0) - 0.5) * 2.0
    else 0.0
  }

  /** The working coordinate of `mainImage`: wave, then block glitch, then
      the line offset scaled by `glitchIntensity * 0.05`. */
  function DistortedUV(u: Uniforms, m: Builtins, uv: Vec2): (r: Vec2)
    ensures r.y == uv.y
    ensures u.waveDistortion <= 0.0 && u.blockGlitchIntensity <= 0.0 && u.glitchIntensity <= 0.0 ==>
              r == uv
  {
    var waved := WaveDistort(u, m, uv);
    var blocked := BlockGlitch(u, m, waved, u.blockGlitchIntensity, u.blockGlitchSize);
    var lineOffset := LineGlitch(u, m, blocked);
    Vec2(blocked.x + lineOffset * u.glitchIntensity * 0.05, blocked.y)
  }

  /** The three coordinate stages together move a pixel sideways by at most
      `0.01 * waveDistortion + 0.05 * blockGlitchIntensity + 0.05 * glitchIntensity`. */
  lemma DistortedUVBounded(u: Uniforms, m: Builtins, uv: Vec2)
    requires TrigBounded(m)
    requires 0.0 <= u.waveDistortion && 0.0 <= u.blockGlitchIntensity && 0.0 <= u.glitchIntensity
    ensures Abs(DistortedUV(u, m, uv).x - uv.x)
              <= 0.01 * u.waveDistortion + 0.05 * u.blockGlitchIntensity + 0.05 * u.glitchIntensity
  {
    var waved := WaveDistort(u, m, uv);
    WaveDistortBounded(u, m, uv);
    var blocked := BlockGlitch(u, m, waved, u.blockGlitchIntensity, u.blockGlitchSize);
    assert Abs(blocked.x - waved.x) <= 0.05 * u.blockGlitchIntensity;
    var lineOffset := LineGlitch(u, m, blocked);
    LineShiftBounded(lineOffset, u.glitchIntensity);
    var x := DistortedUV(u, m, uv).x;
    assert x == blocked.x + lineOffset * u.glitchIntensity * 0.05;
    ShiftsAdd(uv.x, waved.x, blocked.x, x,
              0.01 * u.waveDistortion, 0.05 * u.blockGlitchIntensity, 0.05 * u.glitchIntensity);
  }

  lemma ShiftsAdd(x0: real, x1: real, x2: real, x3: real, a: real, b: real, c: real)
    requires Abs(x1 - x0) <= a && Abs(x2 - x1) <= b && Abs(x3 - x2) <= c
    ensures Abs(x3 - x0) <= a + b + c
  {
  }

  lemma LineShiftBounded(lineOffset: real, k: real)
    requires -1.0 <= lineOffset <= 1.0 && 0.0 <= k
    ensures Abs(lineOffset * k * 0.05) <= 0.05 * k
  {
    UnitTimes(lineOffset, k);
  }

  // ---------------------------------------------------------------------
  // Sampling stages

  /** The aberration amount, swung by `1 + 0.5 * sin(time * aberrationSpeed)`
      when `aberrationAnimated` */
  function AnimatedAmount(u: Uniforms, m: Builtins, amount: real): (r: real)
    ensures !u.aberrationAnimated ==> r == amount
    ensures TrigBounded(m) && 0.0 <= amount ==> 0.0 <= r <= 1.5 * amount
  {
    var s := m.sin(u.time * u.aberrationSpeed);
    AnimatedAmountBounded(s, amount);
    if u.aberrationAnimated then amount * (1.0 + 0.5 * s) else amount
  }

  lemma AnimatedAmountBounded(s: real, amount: real)
    ensures -1.0 <= s <= 1.0 && 0.0 <= amount ==> 0.0 <= amount * (1.0 + 0.5 * s) <= 1.5 * amount
  {
    if -1.0 <= s <= 1.0 && 0.0 <= amount {
      UnitTimes(s, amount);
      assert amount * (1.0 + 0.5 * s) == amount + 0.5 * (s * amount);
    }
  }

  /** The aberration angle, advanced by `time * aberrationSpeed * 0.5` when animated */
  function AnimatedAngle(u: Uniforms, angle: real): (r: real)
    ensures !u.aberrationAnimated ==> r == angle
    ensures u.time == 0.0 || u.aberrationSpeed == 0.0 ==> r == angle
  {
    if u.aberrationAnimated then angle + u.time * u.aberrationSpeed * 0.5 else angle
  }

  /** The red-channel direction of `chromaticAberration` */
  function AberrationDir(u: Uniforms, m: Builtins, amount: real, angle: real): (r: Vec2)
    ensures amount == 0.0 ==> r == Vec2(0.0, 0.0)
  {
    var actualAmount := AnimatedAmount(u, m, amount);
    var actualAngle := AnimatedAngle(u, angle);
    Vec2(m.cos(actualAngle), m.sin(actualAngle)).Scale(actualAmount)
  }

  /** The colour fringes are at most 1.5 times the aberration amount wide
      (the animation swings the amount between 0.5 and 1.5 times itself). */
  lemma AberrationDirBounded(u: Uniforms, m: Builtins, amount: real, angle: real)
    requires TrigBounded(m) && 0.0 <= amount
    ensures var d := AberrationDir(u, m, amount, angle);
            Abs(d.x) <= 1.5 * amount && Abs(d.y) <= 1.5 * amount
  {
    var actualAmount := AnimatedAmount(u, m, amount);
    var actualAngle := AnimatedAngle(u, angle);
    var c, s := m.cos(actualAngle), m.sin(actualAngle);
    assert 0.0 <= actualAmount <= 1.5 * amount;
    assert AberrationDir(u, m, amount, angle) == Vec2(c * actualAmount, s * actualAmount);
    DirectionBounded(c, actualAmount, 1.5 * amount);
    DirectionBounded(s, actualAmount, 1.5 * amount);
  }

  lemma DirectionBounded(c: real, amount: real, bound: real)
    requires -1.0 <= c <= 1.0 && 0.0 <= amount <= bound
    ensures Abs(c * amount) <= bound
  {
    UnitTimes(c, amount);
  }

  /** `chromaticAberration(uv, amount, angle)`: red sampled forward along the
      direction, blue backward, green in place. */
  function ChromaticAberration(u: Uniforms, m: Builtins, tex: Sampler, uv: Vec2, amount: real, angle: real): (r: Vec3)
    ensures r.g == tex(uv).g
    ensures amount == 0.0 ==> r == tex(uv).Rgb()
  {
    var dir := AberrationDir(u, m, amount, angle);
    Vec3(tex(uv.Add(dir)).r, tex(uv).g, tex(uv.Sub(dir)).b)
  }

  /** With aberration on, red and blue are sampled at mirror-image offsets
      `uv + d` and `uv - d` of at most 1.5 times the amount on each axis. */
  lemma ChromaticAberrationSamples(u: Uniforms, m: Builtins, tex: Sampler, uv: Vec2, amount: real, angle: real)
    requires TrigBounded(m) && 0.0 <= amount
    ensures exists d: Vec2 :: Abs(d.x) <= 1.5 * amount && Abs(d.y) <= 1.5 * amount &&
              ChromaticAberration(u, m, tex, uv, amount, angle) == Vec3(tex(uv.Add(d)).r, tex(uv).g, tex(uv.Sub(d)).b)
  {
    var d := AberrationDir(u, m, amount, angle);
    AberrationDirBounded(u, m, amount, angle);
    assert ChromaticAberration(u, m, tex, uv, amount, angle) == Vec3(tex(uv.Add(d)).r, tex(uv).g, tex(uv.Sub(d)).b);
  }

  /** The sample of `mainImage`: with aberration when `aberrationAmount > 0`,
      keeping the alpha of the unshifted sample either way. */
  function Sample(u: Uniforms, m: Builtins, tex: Sampler, workUV: Vec2): (r: Vec4)
    ensures r.a == tex(workUV).a
    ensures r.g == tex(workUV).g
    ensures u.aberrationAmount <= 0.0 ==> r == tex(workUV)
  {
    if u.aberrationAmount > 0.0 then
      var rgb := ChromaticAberration(u, m, tex, workUV, u.aberrationAmount, u.aberrationAngle);
      var alpha := tex(workUV).a;
      Vec4(rgb.r, rgb.g, rgb.b, alpha)
    else
      tex(workUV)
  }

  /** The horizontal shift of `rgbShiftGlitch` on a triggered frame */
  function RgbShiftAmount(u: Uniforms, m: Builtins, intensity: real): (r: real)
    ensures 0.0 < intensity ==> -0.01 * intensity <= r < 0.01 * intensity
  {
    var glitchTime := Floor(u.time * u.glitchFrequency);
    ShiftOf(Hash(m, glitchTime + 1.0), intensity)
  }

  /** `intensity * 0.02 * (hash - 0.5)` */
  function ShiftOf(h: real, intensity: real): (r: real)
    requires 0.0 <= h < 1.0
    ensures 0.0 < intensity ==> -0.01 * intensity <= r < 0.01 * intensity
  {
    var shiftAmount := intensity * 0.02 * (h - 0.5);
    if 0.0 < intensity then
      HashTimesPositive(h, intensity);
      assert shiftAmount == 0.02 * (h * intensity) - 0.01 * intensity;
      shiftAmount
    else shiftAmount
  }

  /** Red sampled at `uv + (s, 0)`, green at `uv`, blue at `uv - (s, 0)` */
  function ShiftedSample(tex: Sampler, uv: Vec2, s: real): (r: Vec3)
    ensures r.g == tex(uv).g
    ensures s == 0.0 ==> r == tex(uv).Rgb()
  {
    var shift := Vec2(s, 0.0);
    assert s == 0.0 ==> uv.Add(shift) == uv && uv.Sub(shift) == uv;
    Vec3(tex(uv.Add(shift)).r, tex(uv).g, tex(uv.Sub(shift)).b)
  }

  /** Whether the RGB shift fires on this glitch frame: the frame's hash is below 0.3 */
  predicate ShiftTriggered(u: Uniforms, m: Builtins)
  {
    Hash(m, Floor(u.time * u.glitchFrequency)) < 0.3
  }

  /** `rgbShiftGlitch(uv, intensity)`: on glitch frames whose hash is below
      0.3, red and blue sampled at mirror-image horizontal shifts. */
  function RgbShiftGlitch(u: Uniforms, m: Builtins, tex: Sampler, uv: Vec2, intensity: real): (r: Vec3)
    ensures r.g == tex(uv).g
    ensures intensity <= 0.0 ==> r == tex(uv).Rgb()
    ensures !ShiftTriggered(u, m) ==> r == tex(uv).Rgb()
    ensures 0.0 < intensity && ShiftTriggered(u, m) ==> r == ShiftedSample(tex, uv, RgbShiftAmount(u, m, intensity))
  {
    if intensity <= 0.0 then tex(uv).Rgb()
    else if ShiftTriggered(u, m) then ShiftedSample(tex, uv, RgbShiftAmount(u, m, intensity))
    else tex(uv).Rgb()
  }

  /** With the shift on, red and blue are sampled at mirror-image horizontal
      shifts `+s` and `-s`, with `s` within 0.01 times the intensity (zero on
      frames that do not trigger). */
  lemma RgbShiftSamples(u: Uniforms, m: Builtins, tex: Sampler, uv: Vec2, intensity: real)
    requires 0.0 < intensity
    ensures exists s: real :: -0.01 * intensity <= s < 0.01 * intensity &&
              RgbShiftGlitch(u, m, tex, uv, intensity) == ShiftedSample(tex, uv, s)
  {
    if ShiftTriggered(u, m) {
      var s := RgbShiftAmount(u, m, intensity);
      assert RgbShiftGlitch(u, m, tex, uv, intensity) == ShiftedSample(tex, uv, s);
    } else {
      assert RgbShiftGlitch(u, m, tex, uv, intensity) == ShiftedSample(tex, uv, 0.0);
    }
  }

  // ---------------------------------------------------------------------
  // Colour stages

  /** The RGB-shift blend of `mainImage`: halfway towards the shifted sample
      when `rgbShiftIntensity > 0 && glitchFrequency > 0` */
  function BlendShift(u: Uniforms, m: Builtins, tex: Sampler, workUV: Vec2, c: Vec3): (r: Vec3)
    ensures u.rgbShiftIntensity <= 0.0 || u.glitchFrequency <= 0.0 ==> r == c
    ensures u.rgbShiftIntensity > 0.0 && u.glitchFrequency > 0.0 ==>
              r.g == Mix(c.g, tex(workUV).g, 0.5)
    ensures u.rgbShiftIntensity > 0.0 && u.glitchFrequency > 0.0 && !ShiftTriggered(u, m) ==>
              r == Mix3(c, tex(workUV).Rgb(), 0.5)
  {
    if u.rgbShiftIntensity > 0.0 && u.glitchFrequency > 0.0 then
      Mix3(c, RgbShiftGlitch(u, m, tex, workUV, u.rgbShiftIntensity), 0.5)
    else c
  }

  /** `n * noiseIntensity` for `n = noise * 2 - 1` */
  function GrainOffset(noiseVal: real, intensity: real): (r: real)
    requires InUnit(noiseVal)
    ensures 0.0 <= intensity ==> -intensity <= r <= intensity
  {
    var n := noiseVal * 2.0 - 1.0;
    if 0.0 <= intensity then UnitTimes(n, intensity); n * intensity else n * intensity
  }

  /** The additive noise of `mainImage`: one offset, added to every channel */
  function AddGrain(u: Uniforms, m: Builtins, workUV: Vec2, c: Vec3): (r: Vec3)
    ensures u.noiseIntensity <= 0.0 ==> r == c
    ensures r.r - c.r == r.g - c.g == r.b - c.b
    ensures 0.0 <= u.noiseIntensity ==> Abs(r.r - c.r) <= u.noiseIntensity
  {
    if u.noiseIntensity > 0.0 then
      var noiseVal := Noise(m, workUV.Scale(500.0).Shift(u.time * u.noiseSpeed));
      c.Shift(GrainOffset(noiseVal, u.noiseIntensity))
    else c
  }

  /** The RGB-shift blend followed by the additive noise */
  function Perturb(u: Uniforms, m: Builtins, tex: Sampler, workUV: Vec2, c: Vec3): (r: Vec3)
    ensures u.rgbShiftIntensity <= 0.0 && u.noiseIntensity <= 0.0 ==> r == c
    ensures u.rgbShiftIntensity <= 0.0 || u.glitchFrequency <= 0.0 ==>
              r.r - c.r == r.g - c.g == r.b - c.b &&
              (0.0 <= u.noiseIntensity ==> Abs(r.r - c.r) <= u.noiseIntensity)
  {
    AddGrain(u, m, workUV, BlendShift(u, m, tex, workUV, c))
  }

  /** `adjustColor(color)`: brightness, contrast, saturation, then a clamp */
  function AdjustColor(u: Uniforms, c: Vec3): (r: Vec3)
    ensures InUnit3(r)
  {
    var bright := c.Shift(u.brightness);
    var contrasted := bright.Shift(-0.5).Scale(u.contrast).Shift(0.5);
    var luminance := Luma(contrasted);
    var saturated := Mix3(Vec3(luminance, luminance, luminance), contrasted, u.saturation);
    Clamp3(saturated)
  }

  /** With neutral settings the grading leaves every in-range colour alone. */
  lemma AdjustColorNeutral(u: Uniforms, c: Vec3)
    requires u.brightness == 0.0 && u.contrast == 1.0 && u.saturation == 1.0
    requires InUnit3(c)
    ensures AdjustColor(u, c) == c
  {
    var contrasted := c.Shift(u.brightness).Shift(-0.5).Scale(u.contrast).Shift(0.5);
    assert contrasted == c;
  }

  /** With zero saturation the grading produces a grey. */
  lemma AdjustColorDesaturates(u: Uniforms, c: Vec3)
    requires u.saturation == 0.0
    ensures var r := AdjustColor(u, c); r.r == r.g == r.b
  {
  }

  /** `scanline(uv)`: one minus a sine band scaled by `scanlineIntensity` */
  function Scanline(u: Uniforms, m: Builtins, uv: Vec2): (r: real)
    ensures u.scanlineIntensity <= 0.0 ==> r == 1.0
  {
    if u.scanlineIntensity <= 0.0 then 1.0
    else
      var y := uv.y * u.scanlineCount + u.time * u.scanlineSpeed;
      var line := m.sin(y * 3.14159) * 0.5 + 0.5;
      1.0 - line * u.scanlineIntensity
  }

  /** Scanlines darken by at most `scanlineIntensity` and never brighten. */
  lemma ScanlineBounded(u: Uniforms, m: Builtins, uv: Vec2)
    requires TrigBounded(m) && 0.0 <= u.scanlineIntensity
    ensures 1.0 - u.scanlineIntensity <= Scanline(u, m, uv) <= 1.0
  {
    if u.scanlineIntensity > 0.0 {
      var y := uv.y * u.scanlineCount + u.time * u.scanlineSpeed;
      var line := m.sin(y * 3.14159) * 0.5 + 0.5;
      ProductBelowOne(line, u.scanlineIntensity);
    }
  }

  lemma ProductBelowOne(line: real, k: real)
    requires InUnit(line) && 0.0 <= k
    ensures 0.0 <= line * k <= k
  {
    MixOrdered(0.0, k, line);
  }

  /** Whether the vignette's smoothstep has distinct edges when it is used */
  predicate VignetteDefined(u: Uniforms) {
    u.vignetteIntensity <= 0.0 || u.vignetteRadius != 0.0
  }

  /** `vignette(uv)`: `mix(1, 1 - smoothstep(r/2, r, |2uv - 1|), intensity)` */
  function Vignette(u: Uniforms, m: Builtins, uv: Vec2): (r: real)
    requires VignetteDefined(u)
    ensures u.vignetteIntensity <= 0.0 ==> r == 1.0
    ensures 0.0 <= u.vignetteIntensity <= 1.0 ==> 1.0 - u.vignetteIntensity <= r <= 1.0
  {
    if u.vignetteIntensity <= 0.0 then 1.0
    else
      var centered := uv.Scale(2.0).Shift(-1.0);
      var dist := m.length(centered);
      var vig := 1.0 - Smoothstep(u.vignetteRadius * 0.5, u.vignetteRadius, dist);
      VignetteMixBounded(vig, u.vignetteIntensity);
      Mix(1.0, vig, u.vignetteIntensity)
  }

  lemma VignetteMixBounded(vig: real, k: real)
    ensures InUnit(vig) && InUnit(k) ==> 1.0 - k <= Mix(1.0, vig, k) <= 1.0
  {
    if InUnit(vig) && InUnit(k) {
      MulNonneg(vig, k);
    }
  }

  // ---------------------------------------------------------------------
  // The fragment program

  /** `mainImage`: the stages in order; scanlines and vignette use the
      original `uv`, the alpha is that of the sample at the working coordinate. */
  function MainImage(u: Uniforms, m: Builtins, tex: Sampler, uv: Vec2): (r: Vec4)
    requires VignetteDefined(u)
    ensures r.a == tex(DistortedUV(u, m, uv)).a
  {
    var workUV := DistortedUV(u, m, uv);
    var sampled := Sample(u, m, tex, workUV);
    var graded := AdjustColor(u, Perturb(u, m, tex, workUV, sampled.Rgb()));
    var color := graded.Scale(Scanline(u, m, uv)).Scale(Vignette(u, m, uv));
    Vec4(color.r, color.g, color.b, sampled.a)
  }

  /** With scanline and vignette intensities in [0,1] every output channel is in [0,1]. */
  lemma MainImageInUnit(u: Uniforms, m: Builtins, tex: Sampler, uv: Vec2)
    requires VignetteDefined(u) && TrigBounded(m)
    requires 0.0 <= u.scanlineIntensity <= 1.0 && 0.0 <= u.vignetteIntensity <= 1.0
    ensures InUnit3(MainImage(u, m, tex, uv).Rgb())
  {
    var workUV := DistortedUV(u, m, uv);
    var sampled := Sample(u, m, tex, workUV);
    var graded := AdjustColor(u, Perturb(u, m, tex, workUV, sampled.Rgb()));
    ScanlineBounded(u, m, uv);
    ScaleInUnit(graded, Scanline(u, m, uv));
    ScaleInUnit(graded.Scale(Scanline(u, m, uv)), Vignette(u, m, uv));
  }

  /** With every glitch, noise, scanline and vignette term off and neutral
      grading, the effect passes an in-range input frame through unchanged. */
  lemma MainImageNeutral(u: Uniforms, m: Builtins, tex: Sampler, uv: Vec2)
    requires u.aberrationAmount == 0.0 && u.glitchIntensity == 0.0 && u.blockGlitchIntensity == 0.0
    requires u.rgbShiftIntensity == 0.0 && u.waveDistortion == 0.0 && u.noiseIntensity == 0.0
    requires u.scanlineIntensity == 0.0 && u.vignetteIntensity == 0.0
    requires u.saturation == 1.0 && u.brightness == 0.0 && u.contrast == 1.0
    requires InUnit4(tex(uv))
    ensures MainImage(u, m, tex, uv) == tex(uv)
  {
    assert DistortedUV(u, m, uv) == uv;
    AdjustColorNeutral(u, tex(uv).Rgb());
  }

  // ---------------------------------------------------------------------
  // The effect object

  /** The numeric uniforms that have a getter and setter */
  datatype NumParam =
    | AberrationAmount | AberrationAngle | AberrationSpeed
    | GlitchIntensity | GlitchFrequency | BlockGlitchIntensity | BlockGlitchSize | RgbShiftIntensity
    | ScanlineIntensity | ScanlineCount | ScanlineSpeed
    | WaveDistortion | WaveFrequency | WaveSpeed
    | Saturation | Brightness | Contrast | VignetteIntensity | VignetteRadius
    | NoiseIntensity | NoiseSpeed

  /** The constructor's default for each numeric option */
  function DefaultNum(p: NumParam): (r: real)
    ensures 0.0 <= r
  {
    match p
    case AberrationAmount => 0.005
    case AberrationAngle => 0.0
    case AberrationSpeed => 2.0
    case GlitchIntensity => 0.1
    case GlitchFrequency => 4.0
    case BlockGlitchIntensity => 0.1
    case BlockGlitchSize => 20.0
    case RgbShiftIntensity => 0.5
    case ScanlineIntensity => 0.1
    case ScanlineCount => 200.0
    case ScanlineSpeed => 0.0
    case WaveDistortion => 0.0
    case WaveFrequency => 10.0
    case WaveSpeed => 1.0
    case Saturation => 1.0
    case Brightness => 0.0
    case Contrast => 1.0
    case VignetteIntensity => 0.2
    case VignetteRadius => 1.2
    case NoiseIntensity => 0.02
    case NoiseSpeed => 10.0
  }

  /** `uniforms.get(name).value` for a numeric uniform */
  function NumOf(u: Uniforms, p: NumParam): real {
    match p
    case AberrationAmount => u.aberrationAmount
    case AberrationAngle => u.aberrationAngle
    case AberrationSpeed => u.aberrationSpeed
    case GlitchIntensity => u.glitchIntensity
    case GlitchFrequency => u.glitchFrequency
    case BlockGlitchIntensity => u.blockGlitchIntensity
    case BlockGlitchSize => u.blockGlitchSize
    case RgbShiftIntensity => u.rgbShiftIntensity
    case ScanlineIntensity => u.scanlineIntensity
    case ScanlineCount => u.scanlineCount
    case ScanlineSpeed => u.scanlineSpeed
    case WaveDistortion => u.waveDistortion
    case WaveFrequency => u.waveFrequency
    case WaveSpeed => u.waveSpeed
    case Saturation => u.saturation
    case Brightness => u.brightness
    case Contrast => u.contrast
    case VignetteIntensity => u.vignetteIntensity
    case VignetteRadius => u.vignetteRadius
    case NoiseIntensity => u.noiseIntensity
    case NoiseSpeed => u.noiseSpeed
  }

  /** `uniforms.get(name).value = v` for a numeric uniform: that uniform reads
      back `v`, and every other uniform is as it was. */
  function WithNum(u: Uniforms, p: NumParam, v: real): (r: Uniforms)
    ensures NumOf(r, p) == v
    ensures forall q :: q != p ==> NumOf(r, q) == NumOf(u, q)
    ensures r.time == u.time && r.resolution == u.resolution
    ensures r.aberrationAnimated == u.aberrationAnimated
  {
    match p
    case AberrationAmount => u.(aberrationAmount := v)
    case AberrationAngle => u.(aberrationAngle := v)
    case AberrationSpeed => u.(aberrationSpeed := v)
    case GlitchIntensity => u.(glitchIntensity := v)
    case GlitchFrequency => u.(glitchFrequency := v)
    case BlockGlitchIntensity => u.(blockGlitchIntensity := v)
    case BlockGlitchSize => u.(blockGlitchSize := v)
    case RgbShiftIntensity => u.(rgbShiftIntensity := v)
    case ScanlineIntensity => u.(scanlineIntensity := v)
    case ScanlineCount => u.(scanlineCount := v)
    case ScanlineSpeed => u.(scanlineSpeed := v)
    case WaveDistortion => u.(waveDistortion := v)
    case WaveFrequency => u.(waveFrequency := v)
    case WaveSpeed => u.(waveSpeed := v)
    case Saturation => u.(saturation := v)
    case Brightness => u.(brightness := v)
    case Contrast => u.(contrast := v)
    case VignetteIntensity => u.(vignetteIntensity := v)
    case VignetteRadius => u.(vignetteRadius := v)
    case NoiseIntensity => u.(noiseIntensity := v)
    case NoiseSpeed => u.(noiseSpeed := v)
  }

  /** The name index covers the numeric part of the uniform store: two stores
      that agree on every name, on time, resolution and `aberrationAnimated`
      are the same store. */
  lemma StoreIsNamed(u1: Uniforms, u2: Uniforms)
    requires forall p :: NumOf(u1, p) == NumOf(u2, p)
    requires u1.time == u2.time && u1.resolution == u2.resolution
    requires u1.aberrationAnimated == u2.aberrationAnimated
    ensures u1 == u2
  {
    assert NumOf(u1, AberrationAmount) == NumOf(u2, AberrationAmount);
    assert NumOf(u1, AberrationAngle) == NumOf(u2, AberrationAngle);
    assert NumOf(u1, AberrationSpeed) == NumOf(u2, AberrationSpeed);
    assert NumOf(u1, GlitchIntensity) == NumOf(u2, GlitchIntensity);
    assert NumOf(u1, GlitchFrequency) == NumOf(u2, GlitchFrequency);
    assert NumOf(u1, BlockGlitchIntensity) == NumOf(u2, BlockGlitchIntensity);
    assert NumOf(u1, BlockGlitchSize) == NumOf(u2, BlockGlitchSize);
    assert NumOf(u1, RgbShiftIntensity) == NumOf(u2, RgbShiftIntensity);
    assert NumOf(u1, ScanlineIntensity) == NumOf(u2, ScanlineIntensity);
    assert NumOf(u1, ScanlineCount) == NumOf(u2, ScanlineCount);
    assert NumOf(u1, ScanlineSpeed) == NumOf(u2, ScanlineSpeed);
    assert NumOf(u1, WaveDistortion) == NumOf(u2, WaveDistortion);
    assert NumOf(u1, WaveFrequency) == NumOf(u2, WaveFrequency);
    assert NumOf(u1, WaveSpeed) == NumOf(u2, WaveSpeed);
    assert NumOf(u1, Saturation) == NumOf(u2, Saturation);
    assert NumOf(u1, Brightness) == NumOf(u2, Brightness);
    assert NumOf(u1, Contrast) == NumOf(u2, Contrast);
    assert NumOf(u1, VignetteIntensity) == NumOf(u2, VignetteIntensity);
    assert NumOf(u1, VignetteRadius) == NumOf(u2, VignetteRadius);
    assert NumOf(u1, NoiseIntensity) == NumOf(u2, NoiseIntensity);
    assert NumOf(u1, NoiseSpeed) == NumOf(u2, NoiseSpeed);
  }

  /** A numeric option as given, or else its default */
  function Pick(nums: map<NumParam, real>, p: NumParam): real {
    if p in nums then nums[p] else DefaultNum(p)
  }

  /** The uniforms a new effect starts with: time 0, a 1920x1080 resolution,
      and each option as given or else its default. */
  function InitialUniforms(nums: map<NumParam, real>, aberrationAnimated: Option<bool>): (r: Uniforms)
    ensures r.time == 0.0 && r.resolution == Vec2(1920.0, 1080.0)
    ensures forall p :: NumOf(r, p) == Pick(nums, p)
    ensures r.aberrationAnimated == aberrationAnimated.GetOr(true)
  {
    var n := (p: NumParam) => Pick(nums, p);
    Uniforms(
      0.0, Vec2(1920.0, 1080.0),
      n(AberrationAmount), n(AberrationAngle), aberrationAnimated.GetOr(true), n(AberrationSpeed),
      n(GlitchIntensity), n(GlitchFrequency), n(BlockGlitchIntensity), n(BlockGlitchSize), n(RgbShiftIntensity),
      n(ScanlineIntensity), n(ScanlineCount), n(ScanlineSpeed),
      n(WaveDistortion), n(WaveFrequency), n(WaveSpeed),
      n(Saturation), n(Brightness), n(Contrast), n(VignetteIntensity), n(VignetteRadius),
      n(NoiseIntensity), n(NoiseSpeed))
  }

  /** `new ChromaticGlitchEffect()` with no options starts from the
      constructor's default table. */
  lemma DefaultOptions()
    ensures InitialUniforms(map[], None) ==
              Uniforms(0.0, Vec2(1920.0, 1080.0),
                       0.005, 0.0, true, 2.0,
                       0.1, 4.0, 0.1, 20.0, 0.5,
                       0.1, 200.0, 0.0,
                       0.0, 10.0, 1.0,
                       1.0, 0.0, 1.0, 0.2, 1.2,
                       0.02, 10.0)
  {
    var r := InitialUniforms(map[], None);
    assert r.aberrationAmount == NumOf(r, AberrationAmount) == DefaultNum(AberrationAmount);
  }

  /** The default store satisfies what the fragment program asks of its uniforms. */
  lemma DefaultsAreDefined()
    ensures VignetteDefined(InitialUniforms(map[], None))
  {
    DefaultOptions();
  }

  /** The effect object: the uniform store, the private time accumulator
      `_time` (here `elapsed`) and, as ghost state, the deltas seen so far. */
  class ChromaticGlitchEffect {
    var elapsed: real
    var uniforms: Uniforms
    ghost var deltas: seq<real>

    /** `_time` is the sum of all deltas, and the `time` uniform mirrors it */
    ghost predicate Valid()
      reads this
    {
      elapsed == Elapsed(deltas) && uniforms.time == elapsed
    }

    /** `new ChromaticGlitchEffect(options)`: the options are the numeric
        ones given in `nums` and `aberrationAnimated`; missing ones default. */
    constructor (nums: map<NumParam, real>, aberrationAnimated: Option<bool>)
      ensures Valid() && deltas == []
      ensures elapsed == 0.0 && uniforms == InitialUniforms(nums, aberrationAnimated)
    {
      elapsed := 0.0;
      uniforms := InitialUniforms(nums, aberrationAnimated);
      deltas := [];
    }

    /** `update(renderer, inputBuffer, deltaTime)` */
    method Update(deltaTime: real)
      requires Valid()
      modifies this
      ensures Valid() && deltas == old(deltas) + [deltaTime]
      ensures elapsed == old(elapsed) + deltaTime
      ensures uniforms == old(uniforms).(time := elapsed)
    {
      ElapsedStep(deltas, deltaTime);
      elapsed := elapsed + deltaTime;
      uniforms := uniforms.(time := elapsed);
      deltas := deltas + [deltaTime];
    }

    /** `setSize(width, height)` */
    method SetSize(width: real, height: real)
      requires Valid()
      modifies this
      ensures Valid() && elapsed == old(elapsed) && deltas == old(deltas)
      ensures uniforms == old(uniforms).(resolution := Vec2(width, height))
    {
      uniforms := uniforms.(resolution := Vec2(width, height));
    }

    /** The getter of a numeric parameter */
    function Num(p: NumParam): (r: real)
      reads this
      ensures r == NumOf(uniforms, p)
    {
      NumOf(uniforms, p)
    }

    /** The setter of a numeric parameter; any value is accepted */
    method SetNum(p: NumParam, v: real)
      requires Valid()
      modifies this
      ensures Valid() && elapsed == old(elapsed) && deltas == old(deltas)
      ensures uniforms == WithNum(old(uniforms), p, v)
      ensures Num(p) == v && forall q :: q != p ==> Num(q) == old(Num(q))
    {
      uniforms := WithNum(uniforms, p, v);
    }

    /** The getter of `aberrationAnimated` */
    function AberrationAnimated(): (r: bool)
      reads this
      ensures r == uniforms.aberrationAnimated
    {
      uniforms.aberrationAnimated
    }

    /** The setter of `aberrationAnimated` */
    method SetAberrationAnimated(v: bool)
      requires Valid()
      modifies this
      ensures Valid() && elapsed == old(elapsed) && deltas == old(deltas)
      ensures uniforms == old(uniforms).(aberrationAnimated := v)
      ensures forall q :: Num(q) == old(Num(q))
    {
      uniforms := uniforms.(aberrationAnimated := v);
    }
  }
}
