/**
  The image-twinkle fragment shader: the photograph's own bright sky pixels
  are modulated over time, everything else passes through.

  The texture sample at `vUv` is the input `tex`; the uniform `uTime` is the
  input `time`. `sin`, `pow` and `distance` come from `Builtins`.
*/
module SkyOverlay {

  import opened Glsl

  // ---------------------------------------------------------------------------
  // hash

  const HashKey := Vec2(127.1, 311.7)
  const HashScale := 43758.5453123

  /** fract(sin(dot(p, (127.1, 311.7))) * 43758.5453123): a pseudo-random value in [0, 1). */
  function Hash(b: Builtins, p: Vec2): (h: real)
    ensures 0.0 <= h < 1.0
  {
    Fract(b.sin(Dot(p, HashKey)) * HashScale)
  }

  // ---------------------------------------------------------------------------
  // noise

  /** The cubic fade f * f * (3 - 2 f), applied to each coordinate. */
  function Fade(f: Vec2): Vec2 {
    Vec2(Hermite(f.x), Hermite(f.y))
  }

  /**
    The value noise inside the lattice cell with corner i at fade weights w:
    the bilinear blend of the hashes of the cell's four corners.
  */
  function CellNoise(b: Builtins, i: Vec2, w: Vec2): real {
    Mix(Mix(Hash(b, i), Hash(b, Add(i, Vec2(1.0, 0.0))), w.x),
        Mix(Hash(b, Add(i, Vec2(0.0, 1.0))), Hash(b, Add(i, Vec2(1.0, 1.0))), w.x),
        w.y)
  }

  /** Mixing two values below one with a weight in [0, 1] stays in [0, 1). */
  lemma MixOfUnitValues(x: real, y: real, a: real)
    requires 0.0 <= x < 1.0 && 0.0 <= y < 1.0 && 0.0 <= a <= 1.0
    ensures 0.0 <= Mix(x, y, a) < 1.0
  {
    if x <= y {
      assert x <= Mix(x, y, a) <= y;
    } else {
      assert y <= Mix(x, y, a) <= x;
    }
  }

  /** noise(p): value noise at p, in [0, 1) because it blends four hashes with weights in [0, 1]. */
  function Noise(b: Builtins, p: Vec2): (n: real)
    ensures 0.0 <= n < 1.0
  {
    var i := FloorVec(p);
    var w := Fade(FractVec(p));
    var a := Hash(b, i);
    var bb := Hash(b, Add(i, Vec2(1.0, 0.0)));
    var c := Hash(b, Add(i, Vec2(0.0, 1.0)));
    var d := Hash(b, Add(i, Vec2(1.0, 1.0)));
    MixOfUnitValues(a, bb, w.x);
    MixOfUnitValues(c, d, w.x);
    MixOfUnitValues(Mix(a, bb, w.x), Mix(c, d, w.x), w.y);
    CellNoise(b, i, w)
  }

  /** At a lattice point the noise is the hash of that point: the blend interpolates the corner values. */
  lemma NoiseAtLatticePoint(b: Builtins, m: int, n: int)
    ensures Noise(b, Vec2(m as real, n as real)) == Hash(b, Vec2(m as real, n as real))
  {
    var p := Vec2(m as real, n as real);
    assert FloorVec(p) == p;
    assert FractVec(p) == Vec2(0.0, 0.0);
  }

  /**
    The blends of two horizontally adjacent cells meet on their shared edge:
    cell i at fade weight 1 in x equals the cell to its right at weight 0.
  */
  lemma NoiseSeamAcrossX(b: Builtins, i: Vec2, wy: real)
    ensures CellNoise(b, i, Vec2(1.0, wy)) == CellNoise(b, Add(i, Vec2(1.0, 0.0)), Vec2(0.0, wy))
  {
    assert Add(Add(i, Vec2(1.0, 0.0)), Vec2(1.0, 0.0)) == Vec2(i.x + 2.0, i.y);
    assert Add(Add(i, Vec2(1.0, 0.0)), Vec2(0.0, 1.0)) == Add(i, Vec2(1.0, 1.0));
  }

  /**
    The blends of two vertically adjacent cells meet on their shared edge:
    cell i at fade weight 1 in y equals the cell above it at weight 0.
  */
  lemma NoiseSeamAcrossY(b: Builtins, i: Vec2, wx: real)
    ensures CellNoise(b, i, Vec2(wx, 1.0)) == CellNoise(b, Add(i, Vec2(0.0, 1.0)), Vec2(wx, 0.0))
  {
    assert Add(Add(i, Vec2(0.0, 1.0)), Vec2(1.0, 0.0)) == Add(i, Vec2(1.0, 1.0));
  }

  /**
    On a vertical lattice line x = m the noise is also the blend of the cell to
    the left, taken at its right edge: both cells that share the edge give the
    noise its value there.
  */
  lemma NoiseOnVerticalEdge(b: Builtins, m: int, y: real)
    ensures Noise(b, Vec2(m as real, y)) == CellNoise(b, Vec2(m as real - 1.0, Floor(y)), Vec2(1.0, Hermite(Fract(y))))
  {
    var i := Vec2(m as real - 1.0, Floor(y));
    assert FloorVec(Vec2(m as real, y)) == Add(i, Vec2(1.0, 0.0));
    assert Fract(m as real) == 0.0;
    NoiseSeamAcrossX(b, i, Hermite(Fract(y)));
  }

  /**
    On a horizontal lattice line y = n the noise is also the blend of the cell
    below, taken at its top edge.
  */
  lemma NoiseOnHorizontalEdge(b: Builtins, x: real, n: int)
    ensures Noise(b, Vec2(x, n as real)) == CellNoise(b, Vec2(Floor(x), n as real - 1.0), Vec2(Hermite(Fract(x)), 1.0))
  {
    var i := Vec2(Floor(x), n as real - 1.0);
    assert FloorVec(Vec2(x, n as real)) == Add(i, Vec2(0.0, 1.0));
    assert Fract(n as real) == 0.0;
    NoiseSeamAcrossY(b, i, Hermite(Fract(x)));
  }

  // ---------------------------------------------------------------------------
  // fbm

  const Octaves: nat := 4
  const FirstAmplitude := 0.5

  /**
    The last n octaves of the sum of `noise`, starting at point p with the
    given amplitude; each octave doubles the frequency and halves the
    amplitude. The octave sum is stated for any noise function; the shader's
    is `NoiseOf(b)`.
  */
  function FbmOctaves(noise: Vec2 -> real, p: Vec2, amplitude: real, n: nat): real
    decreases n
  {
    if n == 0 then 0.0
    else noise(p) * amplitude + FbmOctaves(noise, Scale(p, 2.0), amplitude * 0.5, n - 1)
  }

  /** The shader's noise as a function value. */
  function NoiseOf(b: Builtins): Vec2 -> real {
    q => Noise(b, q)
  }

  /** The sum of the amplitudes of n octaves starting at the given amplitude. */
  function OctaveWeight(amplitude: real, n: nat): real
    decreases n
  {
    if n == 0 then 0.0 else amplitude + OctaveWeight(amplitude * 0.5, n - 1)
  }

  lemma PositiveProduct(x: real, y: real)
    requires 0.0 < x && 0.0 < y
    ensures 0.0 < x * y
  {
  }

  /** A noise value weighted by a positive amplitude lies in [0, amplitude). */
  lemma WeightedNoise(v: real, amplitude: real)
    requires 0.0 <= v < 1.0 && 0.0 < amplitude
    ensures 0.0 <= v * amplitude < amplitude
  {
    NonnegativeProduct(v, amplitude);
    PositiveProduct(1.0 - v, amplitude);
    assert amplitude - v * amplitude == (1.0 - v) * amplitude;
  }

  /** One octave on top of the rest: the octave adds less than its amplitude. */
  lemma OctaveStep(v: real, amplitude: real, rest: real, w: real)
    requires 0.0 <= v < 1.0 && 0.0 < amplitude && 0.0 <= rest <= w
    ensures 0.0 <= v * amplitude + rest < amplitude + w
  {
    WeightedNoise(v, amplitude);
  }

  /** The noise function takes its values in [0, 1). */
  ghost predicate UnitNoise(noise: Vec2 -> real) {
    forall q :: 0.0 <= noise(q) < 1.0
  }

  /** Each octave contributes less than its amplitude, so n octaves stay below their total weight. */
  lemma {:induction false} FbmOctavesBounds(noise: Vec2 -> real, p: Vec2, amplitude: real, n: nat)
    requires UnitNoise(noise) && 0.0 < amplitude
    decreases n
    ensures 0.0 <= FbmOctaves(noise, p, amplitude, n)
    ensures n == 0 ==> FbmOctaves(noise, p, amplitude, n) == OctaveWeight(amplitude, n)
    ensures n > 0 ==> FbmOctaves(noise, p, amplitude, n) < OctaveWeight(amplitude, n)
  {
    if n > 0 {
      FbmOctavesBounds(noise, Scale(p, 2.0), amplitude * 0.5, n - 1);
      OctaveStep(noise(p), amplitude,
        FbmOctaves(noise, Scale(p, 2.0), amplitude * 0.5, n - 1), OctaveWeight(amplitude * 0.5, n - 1));
    }
  }

  /**
    fbm(p): four octaves of the shader's noise from amplitude 0.5. With
    amplitudes 0.5, 0.25, 0.125 and 0.0625 it lies in [0, 0.9375).
  */
  function Fbm(b: Builtins, p: Vec2): (f: real)
    ensures 0.0 <= f < 0.9375
  {
    assert UnitNoise(NoiseOf(b)) by {
      forall q ensures 0.0 <= NoiseOf(b)(q) < 1.0 {
        assert NoiseOf(b)(q) == Noise(b, q);
      }
    }
    FbmOctavesBounds(NoiseOf(b), p, FirstAmplitude, Octaves);
    assert OctaveWeight(FirstAmplitude, Octaves) == 0.9375;
    FbmOctaves(NoiseOf(b), p, FirstAmplitude, Octaves)
  }

  /**
    The shader's octave loop over a noise function: accumulates
    noise(p) * amplitude, doubling p and halving amplitude four times.
  */
  method ComputeFbm(noise: Vec2 -> real, p0: Vec2) returns (total: real)
    ensures total == FbmOctaves(noise, p0, FirstAmplitude, Octaves)
  {
    total := 0.0;
    var amplitude := FirstAmplitude;
    var p := p0;
    var i := 0;
    while i < Octaves
      invariant 0 <= i <= Octaves
      invariant total + FbmOctaves(noise, p, amplitude, Octaves - i) == FbmOctaves(noise, p0, FirstAmplitude, Octaves)
    {
      total := total + noise(p) * amplitude;
      p := Scale(p, 2.0);
      amplitude := amplitude * 0.5;
      i := i + 1;
    }
  }

  /** The loop run on the shader's noise computes fbm. */
  method ComputeShaderFbm(b: Builtins, p: Vec2) returns (total: real)
    ensures total == Fbm(b, p)
    ensures 0.0 <= total < 0.9375
  {
    total := ComputeFbm(NoiseOf(b), p);
  }

  // ---------------------------------------------------------------------------
  // Masks

  /** The luma coefficients of ITU-R BT.709, item 3.2. */
  const LumaWeights := Rgb(0.2126, 0.7152, 0.0722)

  predicate InUnitCube(c: Rgb) {
    0.0 <= c.r <= 1.0 && 0.0 <= c.g <= 1.0 && 0.0 <= c.b <= 1.0
  }

  /** dot(rgb, (0.2126, 0.7152, 0.0722)); the weights sum to one, so a colour in the unit cube has luminance in [0, 1]. */
  function Luminance(c: Rgb): (y: real)
    ensures InUnitCube(c) ==> 0.0 <= y <= 1.0
    ensures c.r == c.g == c.b ==> y == c.r
  {
    c.r * LumaWeights.r + c.g * LumaWeights.g + c.b * LumaWeights.b
  }

  /** Brightness at or below 0.30 is no star; at or above 0.60 fully a star. */
  function StarMask(brightness: real): (m: real)
    ensures 0.0 <= m <= 1.0
    ensures brightness <= 0.30 ==> m == 0.0
    ensures 0.60 <= brightness ==> m == 1.0
  {
    Smoothstep(0.30, 0.60, brightness)
  }

  /** Rows at or below v = 0.35 are ground; rows at or above 0.55 are sky (v is 1 at the top). */
  function SkyMask(uv: Vec2): (m: real)
    ensures 0.0 <= m <= 1.0
    ensures uv.y <= 0.35 ==> m == 0.0
    ensures 0.55 <= uv.y ==> m == 1.0
  {
    Smoothstep(0.35, 0.55, uv.y)
  }

  /** The approximate position of the silhouette's head in texture coordinates. */
  const PersonHead := Vec2(0.5, 0.42)

  /** Zero within 0.08 of the head, one from 0.20 on. */
  function PersonMask(b: Builtins, uv: Vec2): (m: real)
    ensures 0.0 <= m <= 1.0
    ensures b.distance(uv, PersonHead) <= 0.08 ==> m == 0.0
    ensures 0.20 <= b.distance(uv, PersonHead) ==> m == 1.0
  {
    Smoothstep(0.08, 0.20, b.distance(uv, PersonHead))
  }

  /** The three masks multiplied: in [0, 1], and zero as soon as any one of them is. */
  function FinalMask(b: Builtins, tex: Rgb, uv: Vec2): (m: real)
    ensures 0.0 <= m <= 1.0
    ensures StarMask(Luminance(tex)) == 0.0 || SkyMask(uv) == 0.0 || PersonMask(b, uv) == 0.0 ==> m == 0.0
    ensures StarMask(Luminance(tex)) == 1.0 && SkyMask(uv) == 1.0 && PersonMask(b, uv) == 1.0 ==> m == 1.0
  {
    var star := StarMask(Luminance(tex));
    var sky := SkyMask(uv);
    var person := PersonMask(b, uv);
    UnitProduct(star, sky, person);
    star * sky * person
  }

  // ---------------------------------------------------------------------------
  // Per-cell twinkle parameters

  const CellsPerSide := 500.0
  const TwoPi := 6.28318

  /** The 1/500-wide texture cell a coordinate falls in. */
  function StarId(uv: Vec2): Vec2 {
    FloorVec(Scale(uv, CellsPerSide))
  }

  function UniquePhase(b: Builtins, uv: Vec2): (phase: real)
    ensures 0.0 <= phase < TwoPi
  {
    Hash(b, StarId(uv)) * TwoPi
  }

  function UniqueSpeed(b: Builtins, uv: Vec2): (speed: real)
    ensures 0.8 <= speed < 2.3
  {
    Hash(b, AddScalar(StarId(uv), 100.0)) * 1.5 + 0.8
  }

  /** Coordinates in the same 500 x 500 cell twinkle with the same phase and speed. */
  lemma SameCellSameTwinkle(b: Builtins, u: Vec2, v: Vec2)
    requires Floor(u.x * CellsPerSide) == Floor(v.x * CellsPerSide)
    requires Floor(u.y * CellsPerSide) == Floor(v.y * CellsPerSide)
    ensures UniquePhase(b, u) == UniquePhase(b, v)
    ensures UniqueSpeed(b, u) == UniqueSpeed(b, v)
  {
    assert StarId(u) == StarId(v);
  }

  // ---------------------------------------------------------------------------
  // Twinkle and composition

  /** fbm over a 30x-scaled coordinate drifting with time, mapped into [0.5, 0.96875). */
  function SlowDrift(b: Builtins, uv: Vec2, time: real): (drift: real)
    ensures 0.5 <= drift < 0.96875
  {
    Fbm(b, AddScalar(Scale(uv, 30.0), time * 0.15)) * 0.5 + 0.5
  }

  /** sin(x) * 0.5 + 0.5, in [0, 1]. */
  function Wave(b: Builtins, x: real): (w: real)
    requires b.Valid()
    ensures 0.0 <= w <= 1.0
  {
    b.sin(x) * 0.5 + 0.5
  }

  function FastFlicker(b: Builtins, uv: Vec2, time: real): (f: real)
    requires b.Valid()
    ensures 0.0 <= f <= 1.0
  {
    Wave(b, time * UniqueSpeed(b, uv) * 8.0 + UniquePhase(b, uv))
  }

  function FastFlicker2(b: Builtins, uv: Vec2, time: real): (f: real)
    requires b.Valid()
    ensures 0.0 <= f <= 1.0
  {
    Wave(b, time * UniqueSpeed(b, uv) * 5.0 + UniquePhase(b, uv) * 1.7)
  }

  /** A product of three factors in [0, 1] lies in [0, 1]. */
  lemma UnitProduct(x: real, y: real, z: real)
    requires 0.0 <= x <= 1.0 && 0.0 <= y <= 1.0 && 0.0 <= z <= 1.0
    ensures 0.0 <= x * y * z <= 1.0
  {
    ScaleByFraction(x, y);
    ScaleByFraction(x * y, z);
  }

  /** pow(slowDrift * fastFlicker * fastFlicker2, 0.8): three factors in [0, 1], so in [0, 1]. */
  function Twinkle(b: Builtins, uv: Vec2, time: real): (t: real)
    requires b.Valid()
    ensures 0.0 <= t <= 1.0
  {
    var slow := SlowDrift(b, uv, time);
    var fast := FastFlicker(b, uv, time);
    var fast2 := FastFlicker2(b, uv, time);
    UnitProduct(slow, fast, fast2);
    b.pow(slow * fast * fast2, 0.8)
  }

  /** mix(0.3, 2.0, twinkle): stars dim to 30% and brighten to 200%. */
  function BrightnessMultiplier(twinkle: real): (m: real)
    ensures 0.0 <= twinkle <= 1.0 ==> 0.3 <= m <= 2.0
    ensures twinkle == 0.0 ==> m == 0.3
    ensures twinkle == 1.0 ==> m == 2.0
  {
    Mix(0.3, 2.0, twinkle)
  }

  /**
    One channel of mix(tex, tex * multiplier, mask): unchanged under a zero
    mask, fully scaled under a full mask, and for a non-negative channel
    always within [0.3 c, 2 c].
  */
  function BlendChannel(c: real, multiplier: real, mask: real): (r: real)
    ensures mask == 0.0 ==> r == c
    ensures mask == 1.0 ==> r == c * multiplier
    ensures 0.0 <= c && 0.3 <= multiplier <= 2.0 && 0.0 <= mask <= 1.0 ==> 0.3 * c <= r <= 2.0 * c
  {
    BlendedChannel(c, multiplier, mask);
    Mix(c, c * multiplier, mask)
  }

  /**
    mix(tex, tex * multiplier, mask) on the three channels: the texture colour
    under a zero mask, its fully scaled copy under a full mask.
  */
  function Compose(tex: Rgb, multiplier: real, mask: real): (c: Rgb)
    ensures mask == 0.0 ==> c == tex
    ensures mask == 1.0 ==> c == ScaleRgb(tex, multiplier)
    ensures InUnitCube(tex) && 0.3 <= multiplier <= 2.0 && 0.0 <= mask <= 1.0 ==>
      && 0.3 * tex.r <= c.r <= 2.0 * tex.r
      && 0.3 * tex.g <= c.g <= 2.0 * tex.g
      && 0.3 * tex.b <= c.b <= 2.0 * tex.b
  {
    Rgb(BlendChannel(tex.r, multiplier, mask), BlendChannel(tex.g, multiplier, mask),
        BlendChannel(tex.b, multiplier, mask))
  }

  /** gl_FragColor: the texture colour blended towards its scaled copy by the final mask, fully opaque. */
  function FragColor(b: Builtins, tex: Rgb, uv: Vec2, time: real): (out: Rgba)
    requires b.Valid()
    ensures out.a == 1.0
    ensures FinalMask(b, tex, uv) == 0.0 ==> out.rgb == tex
  {
    Rgba(Compose(tex, BrightnessMultiplier(Twinkle(b, uv, time)), FinalMask(b, tex, uv)), 1.0)
  }

  /** Pixels too dark to be stars come out unchanged. */
  lemma DarkPixelsUntouched(b: Builtins, tex: Rgb, uv: Vec2, time: real)
    requires b.Valid() && Luminance(tex) <= 0.30
    ensures FragColor(b, tex, uv, time).rgb == tex
  {
  }

  /** Pixels in the lower part of the image (ground, mountains, city lights) come out unchanged. */
  lemma GroundUntouched(b: Builtins, tex: Rgb, uv: Vec2, time: real)
    requires b.Valid() && uv.y <= 0.35
    ensures FragColor(b, tex, uv, time).rgb == tex
  {
  }

  /** Pixels within 0.08 of the silhouette's head come out unchanged. */
  lemma SilhouetteUntouched(b: Builtins, tex: Rgb, uv: Vec2, time: real)
    requires b.Valid() && b.distance(uv, PersonHead) <= 0.08
    ensures FragColor(b, tex, uv, time).rgb == tex
  {
  }

  /** A non-negative channel scaled by a multiplier in [0.3, 2] stays in [0.3 c, 2 c]. */
  lemma ScaledChannel(c: real, m: real)
    requires 0.0 <= c && 0.3 <= m <= 2.0
    ensures 0.3 * c <= c * m <= 2.0 * c
  {
    NonnegativeProduct(c, m - 0.3);
    NonnegativeProduct(c, 2.0 - m);
    assert c * (m - 0.3) == c * m - 0.3 * c;
    assert c * (2.0 - m) == 2.0 * c - c * m;
  }

  /** Blending a channel with its scaled copy keeps it within [0.3 c, 2 c]. */
  lemma BlendedChannel(c: real, m: real, mask: real)
    ensures 0.0 <= c && 0.3 <= m <= 2.0 && 0.0 <= mask <= 1.0 ==> 0.3 * c <= Mix(c, c * m, mask) <= 2.0 * c
  {
    if 0.0 <= c && 0.3 <= m <= 2.0 && 0.0 <= mask <= 1.0 {
      ScaledChannel(c, m);
      var scaled := c * m;
      if c <= scaled {
        assert c <= Mix(c, scaled, mask) <= scaled;
      } else {
        assert scaled <= Mix(c, scaled, mask) <= c;
      }
    }
  }

  /** Every output channel lies between 30% and 200% of the texture's channel. */
  lemma OutputWithinTwinkleRange(b: Builtins, tex: Rgb, uv: Vec2, time: real)
    requires b.Valid() && InUnitCube(tex)
    ensures 0.3 * tex.r <= FragColor(b, tex, uv, time).rgb.r <= 2.0 * tex.r
    ensures 0.3 * tex.g <= FragColor(b, tex, uv, time).rgb.g <= 2.0 * tex.g
    ensures 0.3 * tex.b <= FragColor(b, tex, uv, time).rgb.b <= 2.0 * tex.b
  {
  }

}
