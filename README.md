# Post-processing effects: ChromaticGlitch and CrtAscii

This project models two post-processing effects from a web front end. Each
effect is a JavaScript class that owns a store of shader uniforms plus a
GLSL fragment program, and the host runs that program once per pixel of
every frame:

- `ChromaticGlitchEffect` adds wave distortion, block and line glitches,
  animated chromatic aberration, an RGB channel shift, value noise, colour
  grading (brightness, contrast, saturation), scanlines and a vignette.
- `CrtAsciiEffect` remaps the screen with CRT barrel distortion and drops
  the pixels the barrel throws off the screen. It then applies aberration,
  grading and noise, and redraws the frame as a grid of glyph cells, with
  a row glitch, a brightness-to-glyph table in four styles, scanlines, a
  vignette and bloom.

The model has these parts:

- Each fragment program is a set of pure functions over exact reals, one
  function per GLSL function or stage.
- The GLSL built-ins are `floor`, `fract`, `mix`, `clamp`, `smoothstep`,
  `dot` and `mod`. They live in module `Glsl`.
- `sin`, `cos` and `length` are uninterpreted functions, passed in as a
  `Builtins` value. A lemma that needs sin and cos in [-1,1] asks for
  that with `TrigBounded`.
- The input frame is a function from UV coordinates to RGBA colours
  (`Sampler`).
- Each effect class is a Dafny `class` with:
  - its uniform store, a record with one field per uniform;
  - its private time accumulator `_time`, here `elapsed`;
  - a ghost history of the frame deltas, so that `Valid()` can state
    that `_time` is their sum and that the `time` uniform mirrors it.
- Named getters and setters of numeric uniforms are indexed by an
  enumeration of the uniform names. `NumOf` and `WithNum` are their pure
  counterparts.
- Constructor options are a map from those names to values. The boolean
  and integer options are `Option` values; a missing option takes the
  source's default.

Modules:

- `Glsl` (`glsl.dfy`): vectors and the built-ins.
- `Optional` (`optional.dfy`): the option type.
- `Timeline` (`timeline.dfy`): the sum of frame deltas.
- `ChromaticGlitch` (`chromatic_glitch.dfy`): the first effect.
- `CrtAscii` (`crt_ascii.dfy`): the second effect.

Notes on the code:

- The CRT output alpha is 1 only when `aberrationStrength > 0`; otherwise it
  is the alpha of the cell's texture sample (`CrtAscii.CellColor`,
  `CrtAscii.MainImage`).
- The CRT row glitch moves the cell coordinate by the real amount
  `(random - 0.5) * 20`, which need not be a whole number of cells
  (`CrtAscii.GlitchedCell`).
- Both scanline stages use the constant 3.14159 for π.
- The glitch shader's two hashes use different constants: 43758.5453123 in
  `hash` and 43758.5453 in `hash2`.

## Model

| member | source | states |
|---|---|---|
| Glsl.Floor | src/lib/shaders/ChromaticGlitchEffect.js:53 | `floor` returns the integer r with r <= x < r + 1 |
| Glsl.Fract | src/lib/shaders/ChromaticGlitchEffect.js:54 | `fract` lies in [0,1), and x minus it is an integer |
| Glsl.Fract2 | src/lib/shaders/CrtAsciiEffect.js:36 | componentwise `fract` lies in [0,1) on both axes |
| Glsl.Mix | src/lib/shaders/ChromaticGlitchEffect.js:62 | `mix` gives x at weight 0 and y at weight 1; with a weight in [0,1] the result lies between x and y |
| Glsl.MixFacts | src/lib/shaders/ChromaticGlitchEffect.js:171 | the linear-interpolation formula behind `mix` has the endpoint, equal-ends and betweenness properties |
| Glsl.Clamp | src/lib/shaders/ChromaticGlitchEffect.js:173 | `clamp` lands in [lo, hi], is the identity inside it, and gives lo below it and hi above it |
| Glsl.Clamp3 | src/lib/shaders/ChromaticGlitchEffect.js:173 | the clamped colour is in the unit cube, and a colour already there is unchanged |
| Glsl.Hermite | src/lib/shaders/ChromaticGlitchEffect.js:55 | the fade curve t²(3−2t) fixes 0 and 1 and maps [0,1] into [0,1] |
| Glsl.HermiteInUnit | src/lib/shaders/CrtAsciiEffect.js:41 | t²(3−2t) stays in [0,1] for t in [0,1] |
| Glsl.Smoothstep | src/lib/shaders/ChromaticGlitchEffect.js:157 | `smoothstep` with distinct edges lies in [0,1] |
| Glsl.Mod | src/lib/shaders/CrtAsciiEffect.js:59-60 | with a positive divisor `mod` lies in [0, y), with a negative one in (y, 0], and x minus it is a whole multiple of y |
| Glsl.Luma | src/lib/shaders/ChromaticGlitchEffect.js:170 | the Rec. 601 luma of a unit colour is in [0,1], and that of a grey is the grey level |
| Glsl.Bilinear | src/lib/shaders/ChromaticGlitchEffect.js:62 | nested `mix` gives the (0,0) corner at weight (0,0), and unit corners with unit weights give a unit value |
| Glsl.ScaleFacts | src/lib/shaders/CrtAsciiEffect.js:163 | scaling by 1 is the identity, by 0 gives black, and a grey colour stays grey |
| Glsl.ScaleInUnit | src/lib/shaders/ChromaticGlitchEffect.js:218-221 | a unit colour times a weight in [0,1] stays in the unit cube |
| Timeline.ElapsedStep | src/lib/shaders/ChromaticGlitchEffect.js:310-313 | adding one more frame delta adds exactly that delta to the accumulated time |
| Timeline.ElapsedConcat | src/lib/shaders/CrtAsciiEffect.js:234-237 | the time accumulated over two runs of frames is the sum of the two |
| Timeline.UpdatesAreAdditive | src/lib/shaders/ChromaticGlitchEffect.js:310-313 | two updates by dt1 and dt2 leave the same time as one update by dt1 + dt2 |
| Timeline.ElapsedNeverDecreases | src/lib/shaders/CrtAsciiEffect.js:234-237 | with non-negative deltas the accumulated time never goes down |
| Timeline.NonNegativeElapsed | src/lib/shaders/ChromaticGlitchEffect.js:307-313 | with non-negative deltas the accumulated time is non-negative |
| ChromaticGlitch.Hash | src/lib/shaders/ChromaticGlitchEffect.js:44-46 | `hash` returns a value in [0,1) whatever sin returns |
| ChromaticGlitch.Hash2 | src/lib/shaders/ChromaticGlitchEffect.js:48-50 | `hash2` returns a value in [0,1) |
| ChromaticGlitch.NoiseCell | src/lib/shaders/ChromaticGlitchEffect.js:55-62 | the faded bilinear blend of four lattice hashes lies in [0,1] |
| ChromaticGlitch.Noise | src/lib/shaders/ChromaticGlitchEffect.js:52-63 | value noise lies in [0,1] |
| ChromaticGlitch.NoiseAtLattice | src/lib/shaders/ChromaticGlitchEffect.js:52-63 | at an integer lattice point the noise equals that point's hash |
| ChromaticGlitch.NoiseContinuousAcrossX | src/lib/shaders/ChromaticGlitchEffect.js:52-63 | the right edge of one noise cell agrees with the left edge of its neighbour |
| ChromaticGlitch.NoiseContinuousAcrossY | src/lib/shaders/ChromaticGlitchEffect.js:52-63 | the top edge of one noise cell agrees with the bottom edge of its neighbour |
| ChromaticGlitch.WaveDistort | src/lib/shaders/ChromaticGlitchEffect.js:135-140 | the wave moves only x, and is off when `waveDistortion <= 0` |
| ChromaticGlitch.WaveDistortBounded | src/lib/shaders/ChromaticGlitchEffect.js:138-139 | the wave moves x by at most `waveDistortion * 0.01` |
| ChromaticGlitch.BlockGlitch | src/lib/shaders/ChromaticGlitchEffect.js:86-100 | a block glitch moves only x, is off at intensity <= 0, and otherwise moves x within [-0.05·I, 0.05·I) |
| ChromaticGlitch.BlockOffset | src/lib/shaders/ChromaticGlitchEffect.js:95 | the block offset `(h - 0.5) * I * 0.1` lies in [-0.05·I, 0.05·I) |
| ChromaticGlitch.LineGlitch | src/lib/shaders/ChromaticGlitchEffect.js:122-132 | the line offset is 0 when `glitchIntensity <= 0`, and otherwise lies in [-1,1) |
| ChromaticGlitch.DistortedUV | src/lib/shaders/ChromaticGlitchEffect.js:177-187 | the distorted coordinate keeps y, and equals uv when wave, block and line glitches are all off |
| ChromaticGlitch.DistortedUVBounded | src/lib/shaders/ChromaticGlitchEffect.js:177-187 | the total x displacement is at most the sum of the three stages' bounds |
| ChromaticGlitch.LineShiftBounded | src/lib/shaders/ChromaticGlitchEffect.js:187 | the line shift `offset * glitchIntensity * 0.05` is at most `0.05 * glitchIntensity` |
| ChromaticGlitch.AnimatedAmount | src/lib/shaders/ChromaticGlitchEffect.js:67-72 | the aberration amount is unanimated when `aberrationAnimated` is off; animated, it stays in [0, 1.5·amount] |
| ChromaticGlitch.AnimatedAmountBounded | src/lib/shaders/ChromaticGlitchEffect.js:72 | amount·(1 + 0.5·s) lies in [0, 1.5·amount] for s in [-1,1] |
| ChromaticGlitch.AnimatedAngle | src/lib/shaders/ChromaticGlitchEffect.js:70-73 | the angle is unanimated when `aberrationAnimated` is off, and also at time 0 or speed 0 |
| ChromaticGlitch.AberrationDir | src/lib/shaders/ChromaticGlitchEffect.js:76 | a zero amount gives a zero direction |
| ChromaticGlitch.AberrationDirBounded | src/lib/shaders/ChromaticGlitchEffect.js:67-76 | each component of the aberration direction is at most 1.5 times the amount |
| ChromaticGlitch.ChromaticAberration | src/lib/shaders/ChromaticGlitchEffect.js:66-83 | green is sampled unshifted, and a zero amount gives the plain sample |
| ChromaticGlitch.ChromaticAberrationSamples | src/lib/shaders/ChromaticGlitchEffect.js:66-83 | with a non-negative amount, red is sampled at uv + d and blue at uv − d for one offset d of at most 1.5·amount on each axis |
| ChromaticGlitch.Sample | src/lib/shaders/ChromaticGlitchEffect.js:190-197 | alpha and green always come from the unshifted sample, and with `aberrationAmount <= 0` the whole sample is plain |
| ChromaticGlitch.RgbShiftAmount | src/lib/shaders/ChromaticGlitchEffect.js:106-111 | the channel shift lies in [-0.01·I, 0.01·I) |
| ChromaticGlitch.ShiftOf | src/lib/shaders/ChromaticGlitchEffect.js:111 | `I * 0.02 * (h - 0.5)` lies in [-0.01·I, 0.01·I) |
| ChromaticGlitch.ShiftedSample | src/lib/shaders/ChromaticGlitchEffect.js:112-114 | green comes from uv, and a zero shift gives the plain sample |
| ChromaticGlitch.RgbShiftGlitch | src/lib/shaders/ChromaticGlitchEffect.js:103-119 | green is unshifted; the plain sample comes back when intensity <= 0 or when the frame's trigger hash is >= 0.3; on a triggered frame red and blue are shifted by `RgbShiftAmount` |
| ChromaticGlitch.RgbShiftSamples | src/lib/shaders/ChromaticGlitchEffect.js:103-119 | with intensity > 0, red is sampled at uv + (s, 0) and blue at uv − (s, 0) for one s in [-0.01·I, 0.01·I) |
| ChromaticGlitch.BlendShift | src/lib/shaders/ChromaticGlitchEffect.js:203-206 | off unless both `rgbShiftIntensity` and `glitchFrequency` are positive; when on, green is halfway to the plain sample's green, and on an untriggered frame the colour is halfway to the plain sample |
| ChromaticGlitch.GrainOffset | src/lib/shaders/ChromaticGlitchEffect.js:210-211 | the grain `(noise * 2 - 1) * I` lies in [-I, I] |
| ChromaticGlitch.AddGrain | src/lib/shaders/ChromaticGlitchEffect.js:209-212 | off when `noiseIntensity <= 0`; one offset of at most I is added equally to all channels |
| ChromaticGlitch.Perturb | src/lib/shaders/ChromaticGlitchEffect.js:203-212 | with RGB shift and noise both off the colour is unchanged; with the RGB shift off, one offset of at most `noiseIntensity` is added equally to all channels |
| ChromaticGlitch.AdjustColor | src/lib/shaders/ChromaticGlitchEffect.js:162-174 | graded colours always lie in the unit cube |
| ChromaticGlitch.AdjustColorNeutral | src/lib/shaders/ChromaticGlitchEffect.js:162-174 | neutral grading leaves a unit colour unchanged |
| ChromaticGlitch.AdjustColorDesaturates | src/lib/shaders/ChromaticGlitchEffect.js:170-173 | saturation 0 yields a grey |
| ChromaticGlitch.Scanline | src/lib/shaders/ChromaticGlitchEffect.js:143-149 | the scanline factor is 1 when `scanlineIntensity <= 0` |
| ChromaticGlitch.ScanlineBounded | src/lib/shaders/ChromaticGlitchEffect.js:146-148 | the scanline factor lies in [1 − intensity, 1] |
| ChromaticGlitch.Vignette | src/lib/shaders/ChromaticGlitchEffect.js:152-159 | the vignette factor is 1 when off, and lies in [1 − intensity, 1] for an intensity in [0,1] |
| ChromaticGlitch.VignetteMixBounded | src/lib/shaders/ChromaticGlitchEffect.js:158 | mixing 1 towards a value in [0,1] by k in [0,1] stays in [1 − k, 1] |
| ChromaticGlitch.MainImage | src/lib/shaders/ChromaticGlitchEffect.js:176-224 | the output alpha is the input alpha at the distorted coordinate |
| ChromaticGlitch.MainImageInUnit | src/lib/shaders/ChromaticGlitchEffect.js:214-223 | with scanline and vignette intensities in [0,1], every output colour lies in the unit cube |
| ChromaticGlitch.MainImageNeutral | src/lib/shaders/ChromaticGlitchEffect.js:176-224 | with every stage off and neutral grading, a unit input pixel passes through unchanged |
| ChromaticGlitch.DefaultNum | src/lib/shaders/ChromaticGlitchEffect.js:231-262 | every numeric default is non-negative |
| ChromaticGlitch.StoreIsNamed | src/lib/shaders/ChromaticGlitchEffect.js:267-304 | the names cover the store: two stores that agree on every named uniform, time, resolution and `aberrationAnimated` are equal |
| ChromaticGlitch.WithNum | src/lib/shaders/ChromaticGlitchEffect.js:319-389 | a setter's uniform reads back the new value, and every other uniform is as before |
| ChromaticGlitch.InitialUniforms | src/lib/shaders/ChromaticGlitchEffect.js:228-305 | time 0, resolution 1920×1080, each option as given or else its default |
| ChromaticGlitch.DefaultOptions | src/lib/shaders/ChromaticGlitchEffect.js:228-305 | with no options the store is time 0, resolution 1920×1080 and the default table, uniform by uniform |
| ChromaticGlitch.DefaultsAreDefined | src/lib/shaders/ChromaticGlitchEffect.js:257-258 | the default vignette settings meet the fragment program's precondition |
| ChromaticGlitch.ChromaticGlitchEffect.constructor | src/lib/shaders/ChromaticGlitchEffect.js:228-308 | a new effect has `_time` 0, no deltas, and the initial uniforms |
| ChromaticGlitch.ChromaticGlitchEffect.Update | src/lib/shaders/ChromaticGlitchEffect.js:310-313 | `_time` grows by the delta, the `time` uniform mirrors it, nothing else changes |
| ChromaticGlitch.ChromaticGlitchEffect.SetSize | src/lib/shaders/ChromaticGlitchEffect.js:315-317 | only the resolution changes |
| ChromaticGlitch.ChromaticGlitchEffect.Num | src/lib/shaders/ChromaticGlitchEffect.js:320-389 | a numeric getter returns the store's value under that name |
| ChromaticGlitch.ChromaticGlitchEffect.AberrationAnimated | src/lib/shaders/ChromaticGlitchEffect.js:326 | the getter returns the stored `aberrationAnimated` |
| ChromaticGlitch.ChromaticGlitchEffect.SetNum | src/lib/shaders/ChromaticGlitchEffect.js:319-389 | the named numeric uniform reads back the new value, and all the others are unchanged |
| ChromaticGlitch.ChromaticGlitchEffect.SetAberrationAnimated | src/lib/shaders/ChromaticGlitchEffect.js:326-327 | only `aberrationAnimated` changes |
| CrtAscii.Random | src/lib/shaders/CrtAsciiEffect.js:30-32 | `random` returns a value in [0,1) |
| CrtAscii.Interpolate | src/lib/shaders/CrtAsciiEffect.js:42 | the CRT noise's expanded interpolation formula equals bilinear interpolation |
| CrtAscii.Noise | src/lib/shaders/CrtAsciiEffect.js:34-43 | value noise lies in [0,1] |
| CrtAscii.Grid | src/lib/shaders/CrtAsciiEffect.js:46 | a position inside the cell falls in the 4×4 sub-grid 0..3 × 0..3 |
| CrtAscii.GetChar | src/lib/shaders/CrtAsciiEffect.js:45-77 | coverage lies in [0,1], is 0 below each style's lowest threshold, and is 1 from its top threshold |
| CrtAscii.StandardGlyph | src/lib/shaders/CrtAsciiEffect.js:49-56 | style 0 coverage lies in [0,1], is 0 below 0.1 and 1 from 0.8 |
| CrtAscii.DotGlyph | src/lib/shaders/CrtAsciiEffect.js:57-62 | style 1 coverage lies in [0,1], is 0 below 0.15 and 1 from 0.7 |
| CrtAscii.LineGlyph | src/lib/shaders/CrtAsciiEffect.js:63-67 | style 2 coverage lies in [0,1], is 0 below 0.25 and 1 from 0.75 |
| CrtAscii.BlockGlyph | src/lib/shaders/CrtAsciiEffect.js:68-74 | block coverage lies in [0,1], is 0 below 0.1 and 1 from 0.75 |
| CrtAscii.BlockStyleIgnoresPosition | src/lib/shaders/CrtAsciiEffect.js:68-74 | in the block style (any style other than 0, 1, 2) coverage does not depend on the position |
| CrtAscii.BlockStyleMonotone | src/lib/shaders/CrtAsciiEffect.js:68-74 | in the block style a brighter cell is never less covered |
| CrtAscii.StandardStyleUsesPosition | src/lib/shaders/CrtAsciiEffect.js:49-51 | in the standard style a dim cell lights its inner sub-cell at 0.3 and its corner not at all |
| CrtAscii.DotStyleUsesPosition | src/lib/shaders/CrtAsciiEffect.js:59 | in the dot style a dim cell lights its even sub-cell (0,0) at 0.5 and its odd sub-cell (1,0) not at all |
| CrtAscii.LineStyleUsesPosition | src/lib/shaders/CrtAsciiEffect.js:65 | in the line style a dim cell lights sub-cell (2,2) fully and (0,0) not at all |
| CrtAscii.BarrelRemap | src/lib/shaders/CrtAsciiEffect.js:84-86 | zero curvature is the identity, and the centre of the screen is fixed |
| CrtAscii.OffScreen | src/lib/shaders/CrtAsciiEffect.js:87 | a coordinate is off the screen exactly when one of its components leaves [0,1] |
| CrtAscii.Discarded | src/lib/shaders/CrtAsciiEffect.js:83-90 | nothing is discarded without positive curvature; a pixel is discarded exactly when its working coordinate is off the screen |
| CrtAscii.ScreenUV | src/lib/shaders/CrtAsciiEffect.js:80-86 | without positive curvature the working coordinate is uv |
| CrtAscii.BarrelPushesOutward | src/lib/shaders/CrtAsciiEffect.js:84-86 | with curvature >= 0, no point moves towards the centre on either axis |
| CrtAscii.OffScreenIsDiscarded | src/lib/shaders/CrtAsciiEffect.js:83-90 | with positive curvature, a pixel whose own coordinate is off the screen is discarded |
| CrtAscii.CornersAreDiscarded | src/lib/shaders/CrtAsciiEffect.js:83-90 | with positive curvature, all four corners of the screen are discarded |
| CrtAscii.CentreIsKept | src/lib/shaders/CrtAsciiEffect.js:83-90 | the centre of the screen is never discarded |
| CrtAscii.AberrationSample | src/lib/shaders/CrtAsciiEffect.js:94-106 | with `aberrationStrength > 0` alpha is 1, otherwise the sample is plain; green is always unshifted |
| CrtAscii.GradeChannel | src/lib/shaders/CrtAsciiEffect.js:109 | contrast 1 only adds the brightness, and mid-grey maps to 0.5 + brightness |
| CrtAscii.Grade | src/lib/shaders/CrtAsciiEffect.js:109 | neutral settings leave a colour unchanged, and greys stay grey |
| CrtAscii.NoiseOffset | src/lib/shaders/CrtAsciiEffect.js:114 | the noise offset lies in [-I/2, I/2] |
| CrtAscii.AddNoise | src/lib/shaders/CrtAsciiEffect.js:112-115 | off when `noiseIntensity <= 0`; one offset of at most I/2 is added equally to all channels |
| CrtAscii.CellCount | src/lib/shaders/CrtAsciiEffect.js:118 | with non-zero resolution and cell size, the cell count is non-zero on both axes |
| CrtAscii.BaseCell | src/lib/shaders/CrtAsciiEffect.js:118-119 | the cell is the whole-numbered corner below `uv * cellCount` on each axis |
| CrtAscii.GlitchedCell | src/lib/shaders/CrtAsciiEffect.js:119-129 | the row is kept; with either glitch uniform <= 0 the cell is unchanged; any shift lies in [-10, 10) |
| CrtAscii.CellUV | src/lib/shaders/CrtAsciiEffect.js:131 | the grid scaling maps the cell's UV to `cellCoord + 0.5` on each axis |
| CrtAscii.CellCentreInCell | src/lib/shaders/CrtAsciiEffect.js:119-131 | the centre of a whole-numbered cell lies in that cell: `BaseCell` after `CellUV` gives the cell back |
| CrtAscii.CellColor | src/lib/shaders/CrtAsciiEffect.js:131-145 | with `aberrationStrength > 0` the cell colour is opaque |
| CrtAscii.CellColorIsPerCell | src/lib/shaders/CrtAsciiEffect.js:117-145 | all pixels of one grid cell get the same cell colour |
| CrtAscii.GlyphBrightness | src/lib/shaders/CrtAsciiEffect.js:146-148 | the brightness is the luma, or 1 minus it when `invert`, and lies in [0,1] for a unit colour |
| CrtAscii.Glyph | src/lib/shaders/CrtAsciiEffect.js:153-158 | outside colour mode the glyph is grey, and zero coverage gives black |
| CrtAscii.Scanlines | src/lib/shaders/CrtAsciiEffect.js:161-164 | off when `scanlineIntensity <= 0`, and greys stay grey |
| CrtAscii.VignetteFactor | src/lib/shaders/CrtAsciiEffect.js:168-170 | the vignette weight is 1 at the centre of the screen, and never above 1 for a positive radius and an intensity in [0,1] |
| CrtAscii.Vignetting | src/lib/shaders/CrtAsciiEffect.js:167-171 | off when `vignetteIntensity <= 0`, leaves the centre pixel alone, and keeps greys grey |
| CrtAscii.Bloom | src/lib/shaders/CrtAsciiEffect.js:174-176 | off when `bloomMix <= 0` or the cell brightness is 0 |
| CrtAscii.Shade | src/lib/shaders/CrtAsciiEffect.js:93-178 | alpha is the cell colour's alpha; without colour mode and bloom the output is grey |
| CrtAscii.MainImage | src/lib/shaders/CrtAsciiEffect.js:79-179 | discarded pixels are transparent black; kept ones are shaded at the screen coordinate; alpha is 1 with aberration; monochrome without bloom is grey |
| CrtAscii.DefaultNum | src/lib/shaders/CrtAsciiEffect.js:185-202 | every numeric default is non-negative |
| CrtAscii.StoreIsNamed | src/lib/shaders/CrtAsciiEffect.js:207-228 | the names cover the store: two stores that agree on every named uniform and on the other uniforms are equal |
| CrtAscii.DefaultOptions | src/lib/shaders/CrtAsciiEffect.js:183-232 | with no options the store is time 0, resolution 1920×1080 and the default table, uniform by uniform |
| CrtAscii.DefaultsAreDefined | src/lib/shaders/CrtAsciiEffect.js:185-192 | the default cell size and vignette meet the fragment program's precondition |
| CrtAscii.WithNum | src/lib/shaders/CrtAsciiEffect.js:244-290 | the setter's uniform reads back the new value; every other uniform is as before |
| CrtAscii.InitialUniforms | src/lib/shaders/CrtAsciiEffect.js:183-229 | time 0, resolution 1920×1080, each option as given or else its default |
| CrtAscii.CrtAsciiEffect.constructor | src/lib/shaders/CrtAsciiEffect.js:183-232 | a new effect has `_time` 0, no deltas, and the initial uniforms |
| CrtAscii.CrtAsciiEffect.Update | src/lib/shaders/CrtAsciiEffect.js:234-237 | `_time` grows by the delta, the `time` uniform mirrors it, nothing else changes |
| CrtAscii.CrtAsciiEffect.SetSize | src/lib/shaders/CrtAsciiEffect.js:239-241 | only the resolution changes |
| CrtAscii.CrtAsciiEffect.Num | src/lib/shaders/CrtAsciiEffect.js:244-290 | a numeric getter returns the store's value under that name |
| CrtAscii.CrtAsciiEffect.Invert | src/lib/shaders/CrtAsciiEffect.js:247 | the getter returns the stored `invert` |
| CrtAscii.CrtAsciiEffect.ColorMode | src/lib/shaders/CrtAsciiEffect.js:250 | the getter returns the stored `colorMode` |
| CrtAscii.CrtAsciiEffect.AsciiStyle | src/lib/shaders/CrtAsciiEffect.js:253 | the getter returns the stored `asciiStyle` |
| CrtAscii.CrtAsciiEffect.SetNum | src/lib/shaders/CrtAsciiEffect.js:244-290 | the named uniform reads back the new value; the rest, including `noiseScale` and `noiseSpeed`, are unchanged |
| CrtAscii.CrtAsciiEffect.SetInvert | src/lib/shaders/CrtAsciiEffect.js:247-248 | only `invert` changes |
| CrtAscii.CrtAsciiEffect.SetColorMode | src/lib/shaders/CrtAsciiEffect.js:250-251 | only `colorMode` changes |
| CrtAscii.CrtAsciiEffect.SetAsciiStyle | src/lib/shaders/CrtAsciiEffect.js:253-254 | only `asciiStyle` changes |

## Left out

- Floating point: every value is an exact real, so neither the exact bits of
  the hashes nor any rounding is modelled. Only the ranges that `fract`
  guarantees are used.
- `sin`, `cos` and `length` are uninterpreted. Properties that need sin or
  cos in [-1,1] say so with `TrigBounded`. No property depends on what
  `length` returns.
- The host framework is not part of this model. That covers the `Effect`
  base class, `BlendFunction`, the three.js `Uniform` and `Vector2` wrappers,
  the GPU, and the blending of the output over the scene.
- `mainImage`'s `inputColor` parameter is unused by both programs and is not
  modelled. The same goes for `update`'s `renderer` and `inputBuffer`
  arguments.
- The rest of the repository is not part of this model: the SVG morphing
  component, the RSVP server route, the browser test configuration and the
  vendored SVG library.
- The setters are typed: a numeric uniform takes a real, `invert` and
  `colorMode` take a bool, and `asciiStyle` takes an int. JavaScript would
  store any value. Option keys the constructors do not know are not modelled.
- The constructors' options map takes values only for the numeric options
  it names. A JavaScript `undefined` value, which also selects the default,
  is modelled as a missing key.
- ChromaticGlitch.MainImage: requires the vignette radius to be non-zero when the vignette is on, because `smoothstep` with equal edges is undefined in GLSL.
- CrtAscii.MainImage: for a pixel that is not discarded, requires a non-zero cell size and resolution, and a non-zero vignette radius when the vignette is on. The GLSL divisions by these values have no defined result otherwise.
- ChromaticGlitch.NoiseContinuousAcrossX: continuity of the noise is stated only across cell edges, not as continuity in general; the same holds for ChromaticGlitch.NoiseContinuousAcrossY.
- CrtAscii.GetChar: the glyph table's full pattern is stated only through its thresholds, the block style's properties and witnesses of position dependence for styles 0, 1 and 2, not cell by cell.
