/** The slice of GLSL that the two fragment shaders use: vector values,
    the built-in functions floor, fract, mix, clamp, smoothstep, dot and mod
    over exact reals, and the environment a fragment program runs in.

    sin, cos and length are left uninterpreted: they are fields of a
    `Builtins` value that every shader function receives, and a lemma that
    needs their range says so with `TrigBounded`. The input frame is a
    `Sampler`, the model of `texture2D(inputBuffer, uv)`. */
module Glsl {

  datatype Vec2 = Vec2(x: real, y: real) {
    function Add(o: Vec2): Vec2 { Vec2(x + o.x, y + o.y) }
    function Sub(o: Vec2): Vec2 { Vec2(x - o.x, y - o.y) }
    function Mul(o: Vec2): Vec2 { Vec2(x * o.x, y * o.y) }
    function Div(o: Vec2): Vec2
      requires o.x != 0.0 && o.y != 0.0
    {
      Vec2(x / o.x, y / o.y)
    }
    /** `v * s` with a scalar `s` */
    function Scale(s: real): Vec2 { Vec2(x * s, y * s) }
    /** `v + s` with a scalar `s` (GLSL adds it to every component) */
    function Shift(s: real): Vec2 { Vec2(x + s, y + s) }
  }

  datatype Vec3 = Vec3(r: real, g: real, b: real) {
    function Add(o: Vec3): Vec3 { Vec3(r + o.r, g + o.g, b + o.b) }
    function Scale(s: real): Vec3 { Vec3(r * s, g * s, b * s) }
    function Shift(s: real): Vec3 { Vec3(r + s, g + s, b + s) }
  }

  datatype Vec4 = Vec4(r: real, g: real, b: real, a: real) {
    function Rgb(): Vec3 { Vec3(r, g, b) }
  }

  /** `texture2D(inputBuffer, uv)`: the host's input frame */
  type Sampler = Vec2 -> Vec4

  /** The transcendental GLSL built-ins, uninterpreted */
  datatype Builtins = Builtins(sin: real -> real, cos: real -> real, length: Vec2 -> real)

  /** The optional range axiom for sin and cos */
  ghost predicate TrigBounded(m: Builtins) {
    (forall x :: -1.0 <= m.sin(x) <= 1.0) && (forall x :: -1.0 <= m.cos(x) <= 1.0)
  }

  predicate InUnit(x: real) { 0.0 <= x <= 1.0 }

  predicate InUnit3(c: Vec3) { InUnit(c.r) && InUnit(c.g) && InUnit(c.b) }

  predicate InUnit4(c: Vec4) { InUnit3(c.Rgb()) && InUnit(c.a) }

  /** A colour whose three channels are equal */
  predicate Grey(c: Vec3) { c.r == c.g == c.b }

  /** Scaling a colour by 1 leaves it alone, by 0 makes it black, and keeps a grey colour grey */
  lemma ScaleFacts(c: Vec3, s: real)
    ensures s == 1.0 ==> c.Scale(s) == c
    ensures s == 0.0 ==> c.Scale(s) == Vec3(0.0, 0.0, 0.0)
    ensures Grey(c) ==> Grey(c.Scale(s))
  {
  }

  function Abs(x: real): real { if x < 0.0 then -x else x }

  /** GLSL `floor`, which returns a float */
  function Floor(x: real): (r: real)
    ensures r <= x < r + 1.0
    ensures r == r.Floor as real
  {
    x.Floor as real
  }

  function Floor2(v: Vec2): Vec2 { Vec2(Floor(v.x), Floor(v.y)) }

  /** GLSL `fract`: the part of `x` above the integer below it */
  function Fract(x: real): (r: real)
    ensures 0.0 <= r < 1.0
    ensures x - r == (x - r).Floor as real
  {
    x - Floor(x)
  }

  function Fract2(v: Vec2): (r: Vec2)
    ensures 0.0 <= r.x < 1.0 && 0.0 <= r.y < 1.0
  {
    Vec2(Fract(v.x), Fract(v.y))
  }

  /** GLSL `mod(x, y) = x - y * floor(x / y)`: `x` less a whole multiple
      of `y`, landing on the side of zero that `y` is on. */
  function Mod(x: real, y: real): (r: real)
    requires y != 0.0
    ensures 0.0 < y ==> 0.0 <= r < y
    ensures y < 0.0 ==> y < r <= 0.0
    ensures (x - r) / y == ((x - r) / y).Floor as real
  {
    var q := Floor(x / y);
    var r := x - y * q;
    ModFacts(x, y, q, r);
    r
  }

  lemma ModFacts(x: real, y: real, q: real, r: real)
    requires y != 0.0 && q <= x / y < q + 1.0 && q == q.Floor as real
    requires r == x - y * q
    ensures 0.0 < y ==> 0.0 <= r < y
    ensures y < 0.0 ==> y < r <= 0.0
    ensures (x - r) / y == q
  {
    var f := x / y - q;
    assert x == y * (x / y);
    assert r == y * f;
    if 0.0 < y {
      MulNonneg(y, f);
      MulNonneg(y, 1.0 - f);
    } else if y < 0.0 {
      MulNonneg(-y, f);
      MulNonneg(-y, 1.0 - f);
    }
    assert x - r == y * q;
  }

  /** GLSL `mix`: linear interpolation from `x` (at `a = 0`) to `y` (at `a = 1`) */
  function Mix(x: real, y: real, a: real): (r: real)
    ensures a == 0.0 ==> r == x
    ensures a == 1.0 ==> r == y
    ensures x == y ==> r == x
    ensures 0.0 <= a <= 1.0 ==> (x <= r <= y || y <= r <= x)
  {
    var r := x * (1.0 - a) + y * a;
    MixFacts(x, y, a, r);
    r
  }

  lemma MixFacts(x: real, y: real, a: real, r: real)
    requires r == x * (1.0 - a) + y * a
    ensures a == 0.0 ==> r == x
    ensures a == 1.0 ==> r == y
    ensures x == y ==> r == x
    ensures 0.0 <= a <= 1.0 ==> (x <= r <= y || y <= r <= x)
  {
    if x == y {
      assert r == x * ((1.0 - a) + a);
    }
    if 0.0 <= a <= 1.0 {
      if x <= y {
        MixOrdered(x, y, a);
      } else {
        var b := 1.0 - a;
        MixOrdered(y, x, b);
        assert 1.0 - b == a;
        assert y * (1.0 - b) + x * b == r;
      }
    }
  }

  lemma MixOrdered(x: real, y: real, a: real)
    requires x <= y && 0.0 <= a <= 1.0
    ensures x <= x * (1.0 - a) + y * a <= y
  {
    MulNonneg(y - x, a);
    MulNonneg(y - x, 1.0 - a);
    assert x * (1.0 - a) + y * a - x == (y - x) * a;
    assert y - (x * (1.0 - a) + y * a) == (y - x) * (1.0 - a);
  }

  lemma MulNonneg(a: real, b: real)
    requires 0.0 <= a && 0.0 <= b
    ensures 0.0 <= a * b
  {
  }

  lemma SquareNonneg(x: real)
    ensures 0.0 <= x * x
  {
    if x < 0.0 {
      MulNonneg(-x, -x);
    } else {
      MulNonneg(x, x);
    }
  }

  function Mix3(x: Vec3, y: Vec3, a: real): Vec3 {
    Vec3(Mix(x.r, y.r, a), Mix(x.g, y.g, a), Mix(x.b, y.b, a))
  }

  /** GLSL `clamp(x, lo, hi) = min(max(x, lo), hi)` */
  function Clamp(x: real, lo: real, hi: real): (r: real)
    requires lo <= hi
    ensures lo <= r <= hi
    ensures lo <= x <= hi ==> r == x
    ensures x < lo ==> r == lo
    ensures x > hi ==> r == hi
  {
    var m := if x > lo then x else lo;
    if m < hi then m else hi
  }

  function Clamp3(c: Vec3): (r: Vec3)
    ensures InUnit3(r)
    ensures InUnit3(c) ==> r == c
  {
    Vec3(Clamp(c.r, 0.0, 1.0), Clamp(c.g, 0.0, 1.0), Clamp(c.b, 0.0, 1.0))
  }

  /** The cubic `t * t * (3 - 2t)` that smoothstep and the value noise use */
  function Hermite(t: real): (r: real)
    ensures t == 0.0 ==> r == 0.0
    ensures t == 1.0 ==> r == 1.0
    ensures 0.0 <= t <= 1.0 ==> 0.0 <= r <= 1.0
  {
    HermiteInUnit(t);
    t * t * (3.0 - 2.0 * t)
  }

  lemma HermiteInUnit(t: real)
    ensures 0.0 <= t <= 1.0 ==> 0.0 <= t * t * (3.0 - 2.0 * t) <= 1.0
  {
    if 0.0 <= t <= 1.0 {
      MulNonneg(t * t, 3.0 - 2.0 * t);
      MulNonneg((1.0 - t) * (1.0 - t), 1.0 + 2.0 * t);
      assert 1.0 - t * t * (3.0 - 2.0 * t) == (1.0 - t) * (1.0 - t) * (1.0 + 2.0 * t);
    }
  }

  /** GLSL `smoothstep(e0, e1, x)`, defined here whenever `e0 != e1` */
  function Smoothstep(e0: real, e1: real, x: real): (r: real)
    requires e0 != e1
    ensures 0.0 <= r <= 1.0
  {
    Hermite(Clamp((x - e0) / (e1 - e0), 0.0, 1.0))
  }

  function Dot2(a: Vec2, b: Vec2): real { a.x * b.x + a.y * b.y }

  function Dot3(a: Vec3, b: Vec3): real { a.r * b.r + a.g * b.g + a.b * b.b }

  /** Rec. 601 luma, `dot(c, vec3(0.299, 0.587, 0.114))`, used by both shaders */
  function Luma(c: Vec3): (r: real)
    ensures InUnit3(c) ==> InUnit(r)
    ensures c.r == c.g == c.b ==> r == c.r
  {
    Dot3(c, Vec3(0.299, 0.587, 0.114))
  }

  /** `mix(mix(a, b, w.x), mix(c, d, w.x), w.y)`: bilinear interpolation of four
      lattice values a (0,0), b (1,0), c (0,1), d (1,1) with weights `w` */
  function Bilinear(a: real, b: real, c: real, d: real, w: Vec2): (r: real)
    ensures w == Vec2(0.0, 0.0) ==> r == a
    ensures InUnit(a) && InUnit(b) && InUnit(c) && InUnit(d) && InUnit(w.x) && InUnit(w.y) ==>
              InUnit(r)
  {
    Mix(Mix(a, b, w.x), Mix(c, d, w.x), w.y)
  }
  /** A value in [-1,1] scaled by a non-negative factor stays within that factor */
  lemma UnitTimes(s: real, k: real)
    requires -1.0 <= s <= 1.0 && 0.0 <= k
    ensures -k <= s * k <= k
  {
    MulNonneg(1.0 - s, k);
    MulNonneg(1.0 + s, k);
    assert k - s * k == (1.0 - s) * k;
    assert k + s * k == (1.0 + s) * k;
  }

  /** A colour in the unit cube scaled by a weight in [0,1] stays in the cube */
  lemma ScaleInUnit(c: Vec3, s: real)
    requires InUnit3(c) && InUnit(s)
    ensures InUnit3(c.Scale(s))
  {
    MixOrdered(0.0, c.r, s);
    MixOrdered(0.0, c.g, s);
    MixOrdered(0.0, c.b, s);
  }
}
