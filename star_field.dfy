/**
  The particle star field: how many stars a viewport gets, how each star's
  seven attributes are drawn from the random stream and written into the
  attribute buffers, the vertex shader's twinkle alpha and the fragment
  shader's round, soft sprite.

  `Math.random()` is the sequence `random` of draws, consumed in source order,
  nine per star. The shaders' `sin`, `pow` and `length` come from `Builtins`.
*/
module StarField {

  import opened Glsl
  import opened Wrappers

  // ---------------------------------------------------------------------------
  // Star count

  const PixelsPerStar: nat := 1500
  const MinStars: nat := 800
  const MaxStars: nat := 3000

  /**
    One star per 1500 square pixels of viewport, rounded down and clamped to
    [800, 3000]; the viewport sides are whole CSS pixels.
  */
  function StarCount(width: nat, height: nat): (n: nat)
    ensures MinStars <= n <= MaxStars
    ensures MinStars <= width * height / PixelsPerStar <= MaxStars ==> n == width * height / PixelsPerStar
    ensures width * height / PixelsPerStar < MinStars ==> n == MinStars
    ensures MaxStars < width * height / PixelsPerStar ==> n == MaxStars
  {
    var density := width * height / PixelsPerStar;
    var atLeast := if density < MinStars then MinStars else density;
    if MaxStars < atLeast then MaxStars else atLeast
  }

  lemma StarCountExamples()
    ensures StarCount(1920, 1080) == 1382
    ensures StarCount(100, 100) == 800
    ensures StarCount(3840, 2160) == 3000
  {
  }

  // ---------------------------------------------------------------------------
  // Colour palette

  datatype PaletteEntry = PaletteEntry(color: Rgb, weight: real)

  /** White/silver, blue-white and warm yellow, weighted 0.7, 0.2 and 0.1. */
  const Palette: seq<PaletteEntry> := [
    PaletteEntry(Rgb(220.0 / 255.0, 235.0 / 255.0, 255.0 / 255.0), 0.7),
    PaletteEntry(Rgb(150.0 / 255.0, 180.0 / 255.0, 255.0 / 255.0), 0.2),
    PaletteEntry(Rgb(255.0 / 255.0, 240.0 / 255.0, 200.0 / 255.0), 0.1)
  ]

  /** The palette index a uniform draw selects: the first entry whose running weight exceeds it. */
  function PickColor(rand: real): (k: nat)
    ensures k < |Palette|
    ensures k == 0 <==> rand < 0.7
    ensures k == 1 <==> 0.7 <= rand < 0.9
    ensures k == 2 <==> 0.9 <= rand
  {
    if rand < Palette[0].weight then 0
    else if rand < Palette[0].weight + Palette[1].weight then 1
    else 2
  }

  /** The sum of the weights of the entries before index k. */
  function CumulativeWeight(k: nat): real
    requires k <= |Palette|
  {
    if k == 0 then 0.0 else CumulativeWeight(k - 1) + Palette[k - 1].weight
  }

  /**
    The weights are relative frequencies: a draw in [0, 1) selects entry k
    exactly when it falls in a band of width Palette[k].weight, and the bands
    tile [0, 1).
  */
  lemma PaletteBands(rand: real, k: nat)
    requires 0.0 <= rand < 1.0 && k < |Palette|
    ensures CumulativeWeight(k + 1) - CumulativeWeight(k) == Palette[k].weight
    ensures PickColor(rand) == k <==> CumulativeWeight(k) <= rand < CumulativeWeight(k + 1)
    ensures CumulativeWeight(|Palette|) == 1.0
  {
    assert CumulativeWeight(1) == 0.7 by {
      assert CumulativeWeight(0) == 0.0;
    }
    assert CumulativeWeight(2) == 0.9;
    assert CumulativeWeight(3) == 1.0;
  }

  // ---------------------------------------------------------------------------
  // Per-star attributes

  datatype Star = Star(
    position: Vec3,
    color: Rgb,
    size: real,
    seed: real,
    speed: real,
    minAlpha: real,
    maxAlpha: real)

  /** Draws per star: x, y, z, palette choice, size, seed, speed, minAlpha, maxAlpha. */
  const DrawsPerStar: nat := 9

  predicate IsUniformDraw(d: seq<real>) {
    forall j :: 0 <= j < |d| ==> 0.0 <= d[j] < 1.0
  }

  /** The ranges each attribute is drawn from. */
  predicate InConfiguredRanges(s: Star) {
    && -2.0 <= s.position.x < 2.0
    && -1.5 <= s.position.y < 1.5
    && -1.5 <= s.position.z < 0.5
    && (exists k :: 0 <= k < |Palette| && s.color == Palette[k].color)
    && 0.3 <= s.size < 1.2
    && 0.0 <= s.seed < 1.0
    && 0.3 <= s.speed < 2.0
    && 0.05 <= s.minAlpha < 0.2
    && 0.3 <= s.maxAlpha < 0.6
  }

  /** The star that nine consecutive draws produce. */
  function DrawStar(d: seq<real>): (s: Star)
    requires |d| == DrawsPerStar
    ensures IsUniformDraw(d) ==> InConfiguredRanges(s)
    ensures IsUniformDraw(d) ==> s.minAlpha < s.maxAlpha
  {
    Star(
      Vec3((d[0] - 0.5) * 4.0, (d[1] - 0.5) * 3.0, (d[2] - 0.5) * 2.0 - 0.5),
      Palette[PickColor(d[3])].color,
      d[4] * 0.9 + 0.3,
      d[5],
      d[6] * 1.7 + 0.3,
      d[7] * 0.15 + 0.05,
      d[8] * 0.3 + 0.3)
  }

  /** The draws that belong to star i. */
  function Draws(random: seq<real>, i: nat): (d: seq<real>)
    requires DrawsPerStar * i + DrawsPerStar <= |random|
    ensures |d| == DrawsPerStar
  {
    random[DrawsPerStar * i .. DrawsPerStar * i + DrawsPerStar]
  }

  /** Slot i of each of the seven buffers holds the matching attribute of star s. */
  ghost predicate StoredAt(
    positions: array<real>, colors: array<real>, sizes: array<real>, seeds: array<real>,
    speeds: array<real>, minAlphas: array<real>, maxAlphas: array<real>, i: nat, s: Star)
    reads positions, colors, sizes, seeds, speeds, minAlphas, maxAlphas
  {
    && 3 * i + 2 < positions.Length
    && positions[3 * i] == s.position.x
    && positions[3 * i + 1] == s.position.y
    && positions[3 * i + 2] == s.position.z
    && 3 * i + 2 < colors.Length
    && colors[3 * i] == s.color.r
    && colors[3 * i + 1] == s.color.g
    && colors[3 * i + 2] == s.color.b
    && i < sizes.Length && sizes[i] == s.size
    && i < seeds.Length && seeds[i] == s.seed
    && i < speeds.Length && speeds[i] == s.speed
    && i < minAlphas.Length && minAlphas[i] == s.minAlpha
    && i < maxAlphas.Length && maxAlphas[i] == s.maxAlpha
  }

  /**
    The stars that the first n groups of nine draws produce, in order: star k
    is the star drawn from the k-th group of nine draws.
  */
  function Stars(random: seq<real>, n: nat): (stars: seq<Star>)
    requires DrawsPerStar * n <= |random|
    ensures |stars| == n
    ensures forall k :: 0 <= k < n ==> stars[k] == DrawStar(Draws(random, k))
  {
    if n == 0 then [] else Stars(random, n - 1) + [DrawStar(Draws(random, n - 1))]
  }

  /** With uniform draws every generated star has its attributes in the configured ranges. */
  lemma StarsInConfiguredRanges(random: seq<real>, n: nat)
    requires DrawsPerStar * n <= |random| && IsUniformDraw(random)
    ensures forall k :: 0 <= k < n ==> InConfiguredRanges(Stars(random, n)[k])
    ensures forall k :: 0 <= k < n ==> Stars(random, n)[k].minAlpha < Stars(random, n)[k].maxAlpha
  {
    forall k | 0 <= k < n
      ensures InConfiguredRanges(Stars(random, n)[k])
      ensures Stars(random, n)[k].minAlpha < Stars(random, n)[k].maxAlpha
    {
      var d := Draws(random, k);
      assert forall j :: 0 <= j < |d| ==> d[j] == random[DrawsPerStar * k + j];
    }
  }

  /** The seven attribute buffers are seven different arrays. */
  predicate Distinct(
    positions: array<real>, colors: array<real>, sizes: array<real>, seeds: array<real>,
    speeds: array<real>, minAlphas: array<real>, maxAlphas: array<real>)
  {
    && positions != colors && positions != sizes && positions != seeds && positions != speeds
    && positions != minAlphas && positions != maxAlphas
    && colors != sizes && colors != seeds && colors != speeds && colors != minAlphas && colors != maxAlphas
    && sizes != seeds && sizes != speeds && sizes != minAlphas && sizes != maxAlphas
    && seeds != speeds && seeds != minAlphas && seeds != maxAlphas
    && speeds != minAlphas && speeds != maxAlphas
    && minAlphas != maxAlphas
  }

  /**
    The body of the generation loop: writes star s into slot i of every buffer
    and leaves every other slot as it was.
  */
  method StoreStar(
    positions: array<real>, colors: array<real>, sizes: array<real>, seeds: array<real>,
    speeds: array<real>, minAlphas: array<real>, maxAlphas: array<real>, i: nat, s: Star)
    requires Distinct(positions, colors, sizes, seeds, speeds, minAlphas, maxAlphas)
    requires 3 * i + 2 < positions.Length && 3 * i + 2 < colors.Length
    requires i < sizes.Length && i < seeds.Length && i < speeds.Length
    requires i < minAlphas.Length && i < maxAlphas.Length
    modifies positions, colors, sizes, seeds, speeds, minAlphas, maxAlphas
    ensures StoredAt(positions, colors, sizes, seeds, speeds, minAlphas, maxAlphas, i, s)
    ensures forall j :: 0 <= j < 3 * i ==> positions[j] == old(positions[j]) && colors[j] == old(colors[j])
    ensures forall j :: 0 <= j < i ==>
      && sizes[j] == old(sizes[j]) && seeds[j] == old(seeds[j]) && speeds[j] == old(speeds[j])
      && minAlphas[j] == old(minAlphas[j]) && maxAlphas[j] == old(maxAlphas[j])
    ensures forall j :: 3 * i + 2 < j < positions.Length ==> positions[j] == old(positions[j])
    ensures forall j :: 3 * i + 2 < j < colors.Length ==> colors[j] == old(colors[j])
    ensures forall j :: i < j < sizes.Length ==> sizes[j] == old(sizes[j])
    ensures forall j :: i < j < seeds.Length ==> seeds[j] == old(seeds[j])
    ensures forall j :: i < j < speeds.Length ==> speeds[j] == old(speeds[j])
    ensures forall j :: i < j < minAlphas.Length ==> minAlphas[j] == old(minAlphas[j])
    ensures forall j :: i < j < maxAlphas.Length ==> maxAlphas[j] == old(maxAlphas[j])
  {
    positions[3 * i] := s.position.x;
    positions[3 * i + 1] := s.position.y;
    positions[3 * i + 2] := s.position.z;
    colors[3 * i] := s.color.r;
    colors[3 * i + 1] := s.color.g;
    colors[3 * i + 2] := s.color.b;
    sizes[i] := s.size;
    seeds[i] := s.seed;
    speeds[i] := s.speed;
    minAlphas[i] := s.minAlpha;
    maxAlphas[i] := s.maxAlpha;
  }

  /**
    Allocates the seven attribute buffers (zero-filled, three slots per star
    for position and colour, one for each scalar) and fills slot i of every
    buffer from star i's draws.
  */
  method GenerateStars(starCount: nat, random: seq<real>)
    returns (positions: array<real>, colors: array<real>, sizes: array<real>, seeds: array<real>,
             speeds: array<real>, minAlphas: array<real>, maxAlphas: array<real>)
    requires DrawsPerStar * starCount <= |random|
    ensures fresh(positions) && fresh(colors) && fresh(sizes) && fresh(seeds)
    ensures fresh(speeds) && fresh(minAlphas) && fresh(maxAlphas)
    ensures positions.Length == 3 * starCount && colors.Length == 3 * starCount
    ensures sizes.Length == starCount && seeds.Length == starCount && speeds.Length == starCount
    ensures minAlphas.Length == starCount && maxAlphas.Length == starCount
    ensures forall i :: 0 <= i < starCount ==>
      StoredAt(positions, colors, sizes, seeds, speeds, minAlphas, maxAlphas, i, Stars(random, starCount)[i])
  {
    positions := new real[3 * starCount];
    colors := new real[3 * starCount];
    sizes := new real[starCount];
    seeds := new real[starCount];
    speeds := new real[starCount];
    minAlphas := new real[starCount];
    maxAlphas := new real[starCount];

    ghost var stars := Stars(random, starCount);
    var i := 0;
    while i < starCount
      invariant 0 <= i <= starCount
      invariant Distinct(positions, colors, sizes, seeds, speeds, minAlphas, maxAlphas)
      invariant forall k :: 0 <= k < i ==>
        StoredAt(positions, colors, sizes, seeds, speeds, minAlphas, maxAlphas, k, stars[k])
    {
      var star := DrawStar(Draws(random, i));
      StoreStar(positions, colors, sizes, seeds, speeds, minAlphas, maxAlphas, i, star);
      i := i + 1;
    }
  }

  // ---------------------------------------------------------------------------
  // Vertex shader: twinkle

  /**
    The uniform the host sets from the reduced-motion media query; the vertex
    shader's test `uReducedMotion > 0.5` recovers the query's answer.
  */
  function ReducedMotionUniform(prefersReducedMotion: bool): (u: real)
    ensures u > 0.5 <==> prefersReducedMotion
  {
    if prefersReducedMotion then 1.0 else 0.0
  }

  /** sin(time * speed + seed * 6.2831) * 0.5 + 0.5, a value in [0, 1]. */
  function Flicker(b: Builtins, time: real, s: Star): (f: real)
    requires b.Valid()
    ensures 0.0 <= f <= 1.0
  {
    b.sin(time * s.speed + s.seed * 6.2831) * 0.5 + 0.5
  }

  /** The alpha the vertex shader hands to the fragment shader. */
  function VertexAlpha(b: Builtins, s: Star, time: real, reducedMotion: real): (alpha: real)
    requires b.Valid()
    ensures s.minAlpha <= s.maxAlpha ==> s.minAlpha <= alpha <= s.maxAlpha
  {
    if reducedMotion > 0.5 then Mix(s.minAlpha, s.maxAlpha, 0.7)
    else Mix(s.minAlpha, s.maxAlpha, Flicker(b, time, s))
  }

  /**
    Under reduced motion the alpha is the fixed blend 0.3 * minAlpha + 0.7 *
    maxAlpha, whatever the time.
  */
  lemma ReducedMotionIsSteady(b: Builtins, s: Star, t1: real, t2: real)
    requires b.Valid()
    ensures VertexAlpha(b, s, t1, ReducedMotionUniform(true)) == VertexAlpha(b, s, t2, ReducedMotionUniform(true))
    ensures VertexAlpha(b, s, t1, ReducedMotionUniform(true)) == 0.3 * s.minAlpha + 0.7 * s.maxAlpha
  {
  }

  /** Without reduced motion, the alpha is the flicker's blend between the star's bounds. */
  lemma TwinkleStaysInStarBounds(b: Builtins, s: Star, time: real)
    requires b.Valid() && InConfiguredRanges(s)
    ensures s.minAlpha <= VertexAlpha(b, s, time, ReducedMotionUniform(false)) <= s.maxAlpha
    ensures VertexAlpha(b, s, time, ReducedMotionUniform(false)) == Mix(s.minAlpha, s.maxAlpha, Flicker(b, time, s))
  {
  }

  // ---------------------------------------------------------------------------
  // Fragment shader: round sprite with soft falloff

  const SpriteCenter := Vec2(0.5, 0.5)

  /** (1 - 2 dist) ^ 2.5, in [0, 1] inside the sprite's radius. */
  function Falloff(b: Builtins, dist: real): (strength: real)
    requires b.Valid() && 0.0 <= dist <= 0.5
    ensures 0.0 <= strength <= 1.0
  {
    b.pow(1.0 - dist * 2.0, 2.5)
  }

  /**
    The sprite fragment at a point coordinate: discarded (None) beyond radius
    0.5 from the centre, otherwise the star colour with its alpha scaled by
    the falloff, so never brighter than the vertex alpha. The centre distance
    is `length(gl_PointCoord - vec2(0.5))`, which is `distance` to the centre.
  */
  function SpriteFragment(b: Builtins, pointCoord: Vec2, vColor: Rgb, vAlpha: real): (frag: Option<Rgba>)
    requires b.Valid()
    ensures frag.None? <==> b.distance(pointCoord, SpriteCenter) > 0.5
    ensures frag.Some? ==> frag.value.rgb == vColor
    ensures frag.Some? && 0.0 <= vAlpha ==> 0.0 <= frag.value.a <= vAlpha
  {
    var dist := b.distance(pointCoord, SpriteCenter);
    if dist > 0.5 then None
    else
      var strength := Falloff(b, dist);
      ScaleByFraction(vAlpha, strength);
      Some(Rgba(vColor, vAlpha * strength))
  }

}
