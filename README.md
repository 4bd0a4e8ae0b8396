# Constellation link page — a Dafny model

The site is a one-page link directory drawn as a night sky. Its parts:

- a WebGL star field: a few thousand point sprites that twinkle;
- a shader over the hero photograph that makes the stars in the photo twinkle;
- four constellations, each drawn as a small SVG star pattern, which open the links they group.

Two offline Node scripts prepare the assets:

- one finds star candidates in the sky photograph;
- one keys the light background out of the silhouette photograph.

This project models the computational core of those parts. Each source file becomes one Dafny module:

| module | file | what it models |
|---|---|---|
| `Glsl` | `glsl.dfy` | The GLSL ES built-ins the shaders use: `mix`, `clamp`, `smoothstep`, `fract`, `floor`. It follows section 8.3 of the OpenGL ES Shading Language 1.00 specification. `sin`, `pow` and `distance` are carried as function values in a `Builtins` record. Its `Valid()` predicate states only the ranges the proofs need. |
| `StarField` | `star_field.dfy` | How many stars fit the viewport. The generation loop that fills seven attribute buffers from a stream of random draws, written as a method over arrays and proved against a specification sequence of stars. The colour palette. The vertex shader's twinkle and the fragment shader's round, soft-edged sprite. |
| `SkyOverlay` | `sky_overlay.dfy` | The overlay fragment shader, step by step: the hash, the value noise, the four-octave fbm with its loop, the luminance, sky and person masks, and the per-cell twinkle. Then the brightness multiplier and the final blend. |
| `StarExtraction` | `extract_stars.dfy` | The star finder over an RGBA bitmap. It scans on a 4-pixel grid above the horizon and applies the brightness threshold and the colour test: blue at least 0.9 times red (`b >= r * 0.9`). It assigns the size class, samples the 5×5 neighbourhood for the Milky Way flag, then sorts by brightness and keeps the brightest 1500. Its loops are methods proved equal to recursive specifications. |
| `RgbaBuffer` | `rgba_buffer.dfy` | The byte layout both scripts read: four bytes per pixel, rows top to bottom, and the offset of a pixel's first byte. |
| `SilhouetteKeying` | `process_images.dfy` | The in-place alpha keying of light pixels, as a method over a byte array proved equal to a pure keyed-buffer function. |
| `ConstellationLines` | `constellation_lines.dfy` | The four star patterns and the lookup by constellation id. The scaling from the 130×90 design box to the SVG size, and the lines and pulsing circles that are drawn. |
| `ConstellationData` | `constellation_data.dfy` | The constellation table with its links and modal links, and the modal's choice of which list to show. |
| `Wrappers` | `wrappers.dfy` | `Option`, for the "nothing" results: an unknown pattern, a discarded fragment, a pixel that is not a star. |

Randomness, time, the window size and the decoded images are all parameters. The random numbers are a sequence of draws in `[0, 1)`, consumed in the order the loop calls the generator. Time is a real. The window size and the images are values.

## Model

| member | source | states |
|---|---|---|
| Glsl.Mix | src/components/DynamicSkyOverlay.tsx:109-112 | For a weight in [0, 1] the result lies between the two ends. Weight 0 gives the first end and weight 1 gives the second. |
| Glsl.MixMatchesDefinition | src/components/DynamicSkyOverlay.tsx:50 | The model's mix equals the GLSL definition x·(1 − a) + y·a for every input. |
| Glsl.Clamp | src/components/DynamicSkyOverlay.tsx:73 | The result lies in [lo, hi]. It is the input inside the interval, lo below it and hi above it. |
| Glsl.Hermite | src/components/DynamicSkyOverlay.tsx:43 | The fade curve t²(3 − 2t) maps [0, 1] into [0, 1] and fixes 0 and 1. |
| Glsl.Smoothstep | src/components/DynamicSkyOverlay.tsx:73-85 | The result lies in [0, 1]. It is exactly 0 at or below edge0 and exactly 1 at or above edge1. |
| Glsl.Fract | src/components/DynamicSkyOverlay.tsx:36 | fract(x) lies in [0, 1) and x = floor(x) + fract(x). |
| StarField.StarCount | src/components/StarField.tsx:29-32 | The count lies in [800, 3000]. It is floor(width·height / 1500) when that lies in range, and otherwise the bound it crosses. |
| StarField.StarCountExamples | src/components/StarField.tsx:29-32 | A 1920×1080 window gets 1382 stars, a 100×100 window 800 and a 3840×2160 window 3000. |
| StarField.PickColor | src/components/StarField.tsx:56-64 | White exactly for draws below 0.7. Blue-white exactly for draws in [0.7, 0.9). Warm yellow exactly from 0.9. |
| StarField.PaletteBands | src/components/StarField.tsx:43-64 | Palette entry k is chosen exactly on a band of draws whose width is its weight. The weights sum to 1. |
| StarField.DrawStar | src/components/StarField.tsx:51-74 | With draws in [0, 1), every attribute lies in its configured range and minAlpha < maxAlpha. |
| StarField.Stars | src/components/StarField.tsx:49-75 | One star per loop iteration, n in all. Star k is the star built from draws 9k … 9k+8. |
| StarField.StarsInConfiguredRanges | src/components/StarField.tsx:49-75 | With a uniform draw stream, every generated star lies in the configured ranges. |
| StarField.StoreStar | src/components/StarField.tsx:51-74 | It writes one star into slot i of each of the seven buffers and leaves every other slot of every buffer unchanged. |
| StarField.GenerateStars | src/components/StarField.tsx:35-75 | It returns fresh buffers of 3n and n entries. Slot i of every buffer holds the attributes of star i of the specification sequence. |
| StarField.ReducedMotionUniform | src/components/StarField.tsx:91 | The vertex shader's test `uReducedMotion > 0.5` holds exactly when the user prefers reduced motion. |
| StarField.Flicker | src/components/StarField.tsx:115 | The flicker factor lies in [0, 1]. |
| StarField.VertexAlpha | src/components/StarField.tsx:112-117 | For a star with minAlpha ≤ maxAlpha, the vertex alpha lies between them, with or without reduced motion. |
| StarField.ReducedMotionIsSteady | src/components/StarField.tsx:112-113 | With reduced motion on, the alpha does not depend on time. It equals 0.3·minAlpha + 0.7·maxAlpha. |
| StarField.TwinkleStaysInStarBounds | src/components/StarField.tsx:114-117 | Without reduced motion, the alpha is the flicker's blend of the star's bounds and stays within them. |
| StarField.Falloff | src/components/StarField.tsx:133-135 | The radial falloff lies in [0, 1]. |
| StarField.SpriteFragment | src/components/StarField.tsx:129-137 | A fragment is discarded exactly when it lies more than 0.5 from the sprite centre. A kept fragment has the star's colour and an alpha in [0, vAlpha]. |
| SkyOverlay.Hash | src/components/DynamicSkyOverlay.tsx:34-37 | The hash lies in [0, 1). |
| SkyOverlay.Noise | src/components/DynamicSkyOverlay.tsx:40-51 | Value noise lies in [0, 1). |
| SkyOverlay.NoiseAtLatticePoint | src/components/DynamicSkyOverlay.tsx:40-51 | At an integer point the noise equals the hash of that point. |
| SkyOverlay.NoiseSeamAcrossX | src/components/DynamicSkyOverlay.tsx:40-51 | The blend of a cell's four corner hashes at fade weight 1 in x equals the blend of the cell to its right at weight 0. |
| SkyOverlay.NoiseSeamAcrossY | src/components/DynamicSkyOverlay.tsx:40-51 | The blend of a cell at fade weight 1 in y equals the blend of the cell above it at weight 0. |
| SkyOverlay.NoiseOnVerticalEdge | src/components/DynamicSkyOverlay.tsx:40-51 | On a vertical lattice line, the noise equals the blend of the cell to the left taken at its right edge. Both cells sharing the edge give the same value there. |
| SkyOverlay.NoiseOnHorizontalEdge | src/components/DynamicSkyOverlay.tsx:40-51 | On a horizontal lattice line, the noise equals the blend of the cell below taken at its top edge. |
| SkyOverlay.FbmOctavesBounds | src/components/DynamicSkyOverlay.tsx:54-63 | For any noise function with values in [0, 1), n octaves are non-negative and lie strictly below the sum of their amplitudes. |
| SkyOverlay.Fbm | src/components/DynamicSkyOverlay.tsx:54-63 | Four octaves of the shader's noise from amplitude 0.5 lie in [0, 0.9375). |
| SkyOverlay.ComputeFbm | src/components/DynamicSkyOverlay.tsx:54-63 | The octave loop computes the recursive four-octave sum from amplitude 0.5. |
| SkyOverlay.ComputeShaderFbm | src/components/DynamicSkyOverlay.tsx:54-63 | The loop over the shader's noise equals fbm and lies in [0, 0.9375). |
| SkyOverlay.Luminance | src/components/DynamicSkyOverlay.tsx:69 | For a colour in the unit cube the luminance lies in [0, 1]. A grey colour has its own level as luminance. |
| SkyOverlay.StarMask | src/components/DynamicSkyOverlay.tsx:73 | The mask lies in [0, 1]. It is 0 for brightness up to 0.30 and 1 from 0.60. |
| SkyOverlay.SkyMask | src/components/DynamicSkyOverlay.tsx:77 | The mask lies in [0, 1]. It is 0 for the ground up to height 0.35 and 1 from 0.55. |
| SkyOverlay.PersonMask | src/components/DynamicSkyOverlay.tsx:82-85 | The mask lies in [0, 1]. It is 0 within 0.08 of the head at (0.5, 0.42) and 1 beyond 0.20. |
| SkyOverlay.FinalMask | src/components/DynamicSkyOverlay.tsx:88 | The product mask lies in [0, 1]. It is 0 when any mask is 0 and 1 when all three are 1. |
| SkyOverlay.UniquePhase | src/components/DynamicSkyOverlay.tsx:91-92 | The twinkle phase lies in [0, 2π). |
| SkyOverlay.UniqueSpeed | src/components/DynamicSkyOverlay.tsx:93 | The twinkle speed lies in [0.8, 2.3). |
| SkyOverlay.SameCellSameTwinkle | src/components/DynamicSkyOverlay.tsx:91-93 | Two points in the same cell of the 500×500 grid share phase and speed. |
| SkyOverlay.SlowDrift | src/components/DynamicSkyOverlay.tsx:96 | The slow drift lies in [0.5, 0.96875). |
| SkyOverlay.FastFlicker | src/components/DynamicSkyOverlay.tsx:99 | The first flicker lies in [0, 1]. |
| SkyOverlay.FastFlicker2 | src/components/DynamicSkyOverlay.tsx:100 | The second flicker lies in [0, 1]. |
| SkyOverlay.Twinkle | src/components/DynamicSkyOverlay.tsx:103-106 | The combined twinkle lies in [0, 1]. |
| SkyOverlay.BrightnessMultiplier | src/components/DynamicSkyOverlay.tsx:109 | The multiplier lies in [0.3, 2.0]. It is 0.3 at twinkle 0 and 2.0 at twinkle 1. |
| SkyOverlay.BlendChannel | src/components/DynamicSkyOverlay.tsx:112 | Mask 0 keeps the channel and mask 1 scales it by the multiplier. For a non-negative channel c, a multiplier in [0.3, 2.0] and a mask in [0, 1], the result lies in [0.3·c, 2·c]. |
| SkyOverlay.Compose | src/components/DynamicSkyOverlay.tsx:112 | Mask 0 gives the texture colour and mask 1 its copy scaled by the multiplier. For a colour in the unit cube, a multiplier in [0.3, 2.0] and a mask in [0, 1], each channel c of the result lies in [0.3·c, 2·c]. |
| SkyOverlay.FragColor | src/components/DynamicSkyOverlay.tsx:65-115 | The output is opaque. Where the final mask is 0, it is the photograph's own colour. |
| SkyOverlay.DarkPixelsUntouched | src/components/DynamicSkyOverlay.tsx:71-73 | A pixel of luminance at most 0.30 is passed through unchanged. |
| SkyOverlay.GroundUntouched | src/components/DynamicSkyOverlay.tsx:75-77 | A pixel at height at most 0.35 is passed through unchanged. |
| SkyOverlay.SilhouetteUntouched | src/components/DynamicSkyOverlay.tsx:79-85 | A pixel within 0.08 of the head is passed through unchanged. |
| SkyOverlay.OutputWithinTwinkleRange | src/components/DynamicSkyOverlay.tsx:108-112 | Each output channel lies between 0.3 and 2.0 times the photograph's channel. |
| RgbaBuffer.PixelOffsetInBounds | extract_stars.js:25-28 | For a pixel inside the image, all four bytes it reads lie inside the 4·width·height buffer. |
| StarExtraction.ToInt32 | extract_stars.js:25 | ECMA-262's ToInt32 lands in [−2³¹, 2³¹). It is congruent to its input modulo 2³² and is the identity inside that range. |
| StarExtraction.JsShiftLeft2 | extract_stars.js:25 | ECMA-262's `<< 2` on a number gives a signed 32-bit integer congruent to four times it modulo 2³². |
| StarExtraction.ShiftIndexAgrees | extract_stars.js:25 | Below 2³¹ bytes, the `<< 2` byte index equals 4·(width·y + x). |
| StarExtraction.ShiftIndexWraps | extract_stars.js:25 | At pixel index 2²⁹ the `<< 2` index wraps to −2³¹. |
| StarExtraction.PixelBrightness | extract_stars.js:31 | The mean of the three channels lies in [0, 255]. |
| StarExtraction.BelowHorizon | extract_stars.js:23 | A row is skipped exactly when 4·y > 3·height, that is, when it lies below three quarters of the height. |
| StarExtraction.IsStarPixel | extract_stars.js:34 | A pixel is a star pixel exactly when r + g + b > 540 and 10·b ≥ 9·r: mean above 180 and blue at least 0.9 times red. |
| StarExtraction.SizeClass | extract_stars.js:38 | The size is 2.5 exactly above brightness 230, 1.5 exactly in (200, 230] and 1.0 exactly at or below 200. |
| StarExtraction.GridSampleCount | extract_stars.js:53-61 | The rows sampled so far count at most five pixels each. Once the centre row is included, an in-bounds centre makes the count at least 1. |
| StarExtraction.NeighbourhoodCount | extract_stars.js:50-61 | Between 1 and 25 neighbours are sampled, so the average is defined. |
| StarExtraction.GridSampleSum | extract_stars.js:53-61 | The sampled sum lies between 0 and 255 times the count. |
| StarExtraction.BackgroundBrightness | extract_stars.js:50-62 | The neighbourhood average, sum over count, lies in [0, 255]. |
| StarExtraction.SampleRow | extract_stars.js:54-60 | The inner dx loop adds exactly one row of the neighbourhood specification to the running sum and count. |
| StarExtraction.SampleBackground | extract_stars.js:50-61 | The nested loops compute exactly the 5×5 neighbourhood sample. |
| StarExtraction.Examine | extract_stars.js:25-73 | A pixel yields a record exactly when it is a star pixel: mean brightness above 180 and blue at least 0.9 times red. |
| StarExtraction.ExamineRecord | extract_stars.js:35-73 | A star pixel's record has centred coordinates in [−0.5, 0.5) and (−0.5, 0.5]. Its brightness is the pixel mean over 255, in (180/255, 1]. Its size is the size class. Its Milky Way flag is 1 exactly when the neighbourhood average exceeds 50, and 0 otherwise. |
| StarExtraction.PointCandidates | extract_stars.js:23-34 | A grid point emits at most one record. It emits one exactly when it is above the horizon and a star pixel, and that record is the one Examine gives. |
| StarExtraction.Candidates | extract_stars.js:20-76 | The scan's records in scan order. Each was emitted at a grid point above the horizon whose Examine gives it. |
| StarExtraction.CandidatesComplete | extract_stars.js:20-76 | The converse: every star pixel on the stride-4 grid above the horizon has its Examine record among the candidates. |
| StarExtraction.CandidatesInRecordRange | extract_stars.js:20-76 | Every candidate is within the record ranges. |
| StarExtraction.Insert | extract_stars.js:79 | Insertion keeps the length and the multiset. The head is the new record or the old head. |
| StarExtraction.InsertKeepsSorted | extract_stars.js:79 | Insertion into a list sorted by brightness, brightest first, keeps it sorted. |
| StarExtraction.SortByBrightness | extract_stars.js:79 | The result is a permutation of the input, sorted by brightness, brightest first. |
| StarExtraction.InsertIsStable | extract_stars.js:79 | Insertion puts the new record ahead of the records as bright as it and keeps their order. |
| StarExtraction.SortIsStable | extract_stars.js:79 | The sort is stable: for every brightness, the records of that brightness come out in scan order. |
| StarExtraction.TopStars | extract_stars.js:79-80 | The result is the first min(n, 1500) records of the sorted list. It is sorted and is a sub-multiset of the candidates. |
| StarExtraction.TopStarsAreTheBrightest | extract_stars.js:78-80 | A kept star is at least as bright as any candidate that was cut. |
| StarExtraction.ExaminePixel | extract_stars.js:25-73 | The per-pixel method returns exactly what the specification Examine gives. |
| StarExtraction.ScanRow | extract_stars.js:21-75 | The x loop appends exactly one row of candidates, skipping rows below the horizon. |
| StarExtraction.ScanCandidates | extract_stars.js:20-76 | The nested scan computes exactly the candidate list of the specification. |
| StarExtraction.ExtractStars | extract_stars.js:11-80 | The script's result is the top stars of the candidates. It holds at most 1500 records, each within the record ranges. |
| SilhouetteKeying.KeyedByte | process_images.js:21-22 | A byte is either kept or cleared to 0, and a colour byte is always kept. |
| SilhouetteKeying.Keyed | process_images.js:15-27 | The keyed buffer has the same length, and every byte is either kept or cleared to 0. |
| SilhouetteKeying.LightPixelBecomesTransparent | process_images.js:21-22 | A pixel whose three channels all exceed 80 gets alpha 0. |
| SilhouetteKeying.OtherPixelUnchanged | process_images.js:15-27 | Any other pixel keeps all four bytes. |
| SilhouetteKeying.ColoursUnchanged | process_images.js:15-27 | Colour bytes never change. |
| SilhouetteKeying.KeyingOnlyClearsAlpha | process_images.js:15-27 | No byte increases. A byte that changes is an alpha byte and becomes 0. |
| SilhouetteKeying.KeyingIdempotent | process_images.js:15-27 | Keying an already keyed buffer changes nothing. |
| SilhouetteKeying.KeyPixelStep | process_images.js:16-22 | Handling one pixel extends the keyed prefix of the buffer by four bytes. |
| SilhouetteKeying.KeyAlpha | process_images.js:15-27 | After the in-place scan, the buffer is the keyed image of its old contents. |
| ConstellationLines.PatternsDrawable | src/components/ConstellationLines.tsx:10-61 | Every pattern's edges name existing dots, and every dot lies in the 130×90 design box. |
| ConstellationLines.Lookup | src/components/ConstellationLines.tsx:64-65 | A pattern comes back exactly for the four known ids. It is that id's table entry, and it is drawable. |
| ConstellationLines.ScaleDots | src/components/ConstellationLines.tsx:68-71 | The count and order are kept. Each dot is scaled by width/130 and height/90. |
| ConstellationLines.ScaledDotsFit | src/components/ConstellationLines.tsx:67-71 | For a non-negative size, dots inside the design box land inside the SVG. |
| ConstellationLines.ScalingRoundTrip | src/components/ConstellationLines.tsx:68-71 | For a positive size, scaling back by 130/width and 90/height recovers every dot. |
| ConstellationLines.PulseDuration | src/components/ConstellationLines.tsx:107 | Every pulse period is at least 2 seconds. |
| ConstellationLines.PulseDurationIncreasing | src/components/ConstellationLines.tsx:107 | Later dots pulse strictly more slowly. |
| ConstellationLines.DrawLines | src/components/ConstellationLines.tsx:83-93 | There is one segment per edge, joining the two dots the edge names. |
| ConstellationLines.DrawCircles | src/components/ConstellationLines.tsx:95-111 | There is one circle per dot, centred on it, with period 2 + 0.3·i. |
| ConstellationLines.RenderPattern | src/components/ConstellationLines.tsx:73-113 | There is one line per edge and one circle per dot. Circles sit at the scaled dots. Every line joins the centres of two drawn circles. Pulse periods strictly increase. |
| ConstellationLines.Render | src/components/ConstellationLines.tsx:63-113 | It returns nothing exactly for an unknown id. Otherwise it renders that id's pattern at the given size. |
| ConstellationLines.RenderedCirclesFit | src/components/ConstellationLines.tsx:67-71 | For a known id and a non-negative size, every drawn circle lies inside the SVG. |
| ConstellationData.LinksToShow | src/components/LinkModal.tsx:51 | The modal shows the modal links when they are present, and the constellation's own links otherwise. |
| ConstellationData.ConstellationsConsistent | src/data/constellations.ts:3-50 | Every constellation has a star pattern and distinct link ids, and its modal links are distinct too. One with an `openModal` link has a non-empty modal list. The modal never shows an empty list. |
| ConstellationData.ConstellationIdsDistinct | src/data/constellations.ts:3-50 | Constellation ids are pairwise distinct. |
| ConstellationData.EveryConstellationRenders | src/data/constellations.ts:3-50 | The star pattern of every constellation in the table renders. |

## Left out

- Number formats: all arithmetic is over exact reals.
  - This covers JavaScript doubles, the `Float32Array` buffers and GLSL `highp`/`mediump` floats.
  - Rounding is not modelled. For example, the palette edge at `0.7 + 0.2` is not exactly 0.9, and the colour test `b >= r * 0.9` is not rounded either.
- `Math.random`: the model takes a sequence of draws. Only each draw's range, [0, 1), is assumed. The distribution is not modelled.
- `sin`, `pow` and `distance`: these are function values that satisfy only their range facts. Their exact values are not modelled.
- GPU texture sampling: the photograph's colour at a fragment is an input.
- The THREE.js plumbing is not part of this model:
  - the scene, camera, renderer and geometry disposal;
  - the resize handler and the animation loop;
  - the `uPixelRatio` uniform and `gl_PointSize` (StarField.tsx line 120);
  - the overlay's texture loading and canvas sizing.
  - These set up and drive THREE.js. The point size the vertex shader computes depends on THREE's model-view matrix (`mvPosition`) and the device pixel ratio, neither of which is modelled.
- The React wrappers of both components, and the star field's `prefers-reduced-motion` media query (StarField.tsx line 15): the query's result is a parameter of `ReducedMotionUniform`. The overlay has no such query.
- I/O in the two scripts is not modelled, because it is file and console I/O:
  - reading the JPEG and writing the JSON and PNG;
  - copying the background file;
  - the progress and Milky Way count logs.
- The image format: a decoded image is its width, height and RGBA byte buffer.
- Examine: the byte offset is modelled as 4·(width·y + x). The script's `(width*y + x) << 2` agrees with it only for buffers below 2³¹ bytes (`ShiftIndexAgrees`). At pixel index 2²⁹ the shift wraps (`ShiftIndexWraps`). Images that large are outside the model.
- KeyAlpha: the same 4·(width·y + x) offset stands for the index the image library's scan passes to its callback. That library is not part of this model.
- The library sort is modelled as an insertion sort on brightness, brightest first. Both sorts are stable (`SortIsStable` for the model), so the order of equally bright stars, and which of them survive the 1500 cut, are the script's.
- NoiseSeamAcrossX: the lemma equates the two cells' blends on their shared edge, at fade weight exactly 1. Noise itself never evaluates weight 1, because fract stays below 1. The limit argument (the fade tends to 1 as fract tends to 1), which would give continuity of the noise, is not modelled.
- NoiseSeamAcrossY: likewise across a horizontal edge; continuity of the noise in the limit is not modelled.
- Lookup: a JavaScript object lookup also finds inherited property names, such as `constructor`. The model looks up only the table's own four keys.
- Render: only the geometry is modelled.
  - The SVG's fixed presentation attributes are not modelled: stroke and fill colours, stroke width, circle radius 2.5, opacity values and React keys.
  - The period is kept as a real number. Its formatting as a duration string is not modelled.
- The user interface is not part of this model, because it is presentation only:
  - the rest of the link modal (focus handling, keyboard, close button);
  - the constellation group's hover and positioning;
  - the page and layout components;
  - `optimize_assets.js`;
  - the TypeScript type declarations, which appear here as datatypes.
- ConstellationData: `label` is a Dafny keyword, so the link and constellation `label` fields are named `caption`. An absent `openModal` is modelled as `false`.
