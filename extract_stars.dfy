/**
  The offline star extraction over the background photograph's RGBA bitmap:
  a stride-4 grid scan of the top three quarters of the image that keeps
  bright, bluish pixels, classifies their size, flags those on a bright
  (Milky Way) background, then sorts the records by brightness, brightest
  first, and keeps the first 1500.

  The decoded bitmap is the input; reading the file and writing the JSON are
  not part of this model.
*/
module StarExtraction {

  import opened Wrappers
  import opened RgbaBuffer

  /** A decoded image: `width * height` pixels of four bytes (R, G, B, A), row by row. */
  datatype Bitmap = Bitmap(width: nat, height: nat, data: seq<byte>)

  predicate Valid(img: Bitmap) {
    |img.data| == 4 * img.width * img.height
  }

  // ---------------------------------------------------------------------------
  // Pixel addressing

  lemma PixelInBuffer(img: Bitmap, x: nat, y: nat)
    requires Valid(img) && x < img.width && y < img.height
    ensures PixelOffset(img.width, x, y) + 3 < |img.data|
  {
    PixelOffsetInBounds(img.width, img.height, x, y);
  }

  /** Byte k (0 red, 1 green, 2 blue) of an in-bounds pixel. */
  function Channel(img: Bitmap, x: nat, y: nat, k: nat): byte
    requires Valid(img) && x < img.width && y < img.height && k < 3
  {
    PixelInBuffer(img, x, y);
    img.data[PixelOffset(img.width, x, y) + k]
  }

  /** (r + g + b) / 3, in [0, 255]. */
  function PixelBrightness(img: Bitmap, x: nat, y: nat): (v: real)
    requires Valid(img) && x < img.width && y < img.height
    ensures 0.0 <= v <= 255.0
  {
    (Channel(img, x, y, 0) + Channel(img, x, y, 1) + Channel(img, x, y, 2)) as real / 3.0
  }

  // ---------------------------------------------------------------------------
  // The `<< 2` index arithmetic

  const TwoTo31: int := 0x8000_0000
  const TwoTo32: int := 0x1_0000_0000

  /** ToInt32: reduce modulo 2^32 into [-2^31, 2^31). */
  function ToInt32(n: int): (r: int)
    ensures -TwoTo31 <= r < TwoTo31
    ensures (r - n) % TwoTo32 == 0
    ensures -TwoTo31 <= n < TwoTo31 ==> r == n
  {
    var m := n % TwoTo32;
    if m >= TwoTo31 then m - TwoTo32 else m
  }

  /**
    n << 2 as the ECMAScript left-shift operator computes it (ECMA-262, 2022
    edition, section 13.9.1): the left operand converted by ToInt32, shifted
    by two bits, and the 32-bit result read back as a signed integer.
  */
  function JsShiftLeft2(n: int): (r: int)
    ensures -TwoTo31 <= r < TwoTo31
    ensures (r - 4 * n) % TwoTo32 == 0
  {
    var m := ToInt32(n);
    var r := ToInt32(m * 4);
    CongruentSum(r - m * 4, m - n);
    assert r - 4 * n == (r - m * 4) + 4 * (m - n);
    r
  }

  /** A multiple of 2^32 plus four times another is a multiple of 2^32. */
  lemma CongruentSum(a: int, b: int)
    requires a % TwoTo32 == 0 && b % TwoTo32 == 0
    ensures (a + 4 * b) % TwoTo32 == 0
  {
    var p := a / TwoTo32;
    var q := b / TwoTo32;
    assert a == TwoTo32 * p;
    assert b == TwoTo32 * q;
    assert a + 4 * b == TwoTo32 * (p + 4 * q);
  }

  /** Below 2^31 bytes the shift is multiplication by four, i.e. the byte offset PixelOffset. */
  lemma ShiftIndexAgrees(width: nat, x: nat, y: nat)
    requires PixelOffset(width, x, y) < TwoTo31
    ensures JsShiftLeft2(width * y + x) == PixelOffset(width, x, y)
  {
  }

  /** At 2^29 pixels the shifted index wraps to a negative number. */
  lemma ShiftIndexWraps()
    ensures JsShiftLeft2(0x2000_0000) == -TwoTo31
    ensures PixelOffset(0x2000_0000, 0, 1) == TwoTo31
  {
  }

  // ---------------------------------------------------------------------------
  // Selection and classification of one grid point

  const Step: nat := 4
  const StarThreshold := 180.0
  const MilkyWayThreshold := 50.0

  /** The `continue`: rows below three quarters of the height are never examined. */
  predicate BelowHorizon(img: Bitmap, y: nat)
    ensures BelowHorizon(img, y) <==> 4 * y > 3 * img.height
  {
    y as real > img.height as real * 0.75
  }

  /** Bright (average above 180) and bluish or white (blue at least 90% of red). */
  predicate IsStarPixel(img: Bitmap, x: nat, y: nat)
    requires Valid(img) && x < img.width && y < img.height
    ensures IsStarPixel(img, x, y) <==>
      && Channel(img, x, y, 0) + Channel(img, x, y, 1) + Channel(img, x, y, 2) > 540
      && 10 * Channel(img, x, y, 2) >= 9 * Channel(img, x, y, 0)
  {
    PixelBrightness(img, x, y) > StarThreshold && Channel(img, x, y, 2) as real >= Channel(img, x, y, 0) as real * 0.9
  }

  /** The sprite size class: 2.5 above 230, 1.5 above 200, otherwise 1.0. */
  function SizeClass(brightness: real): (s: real)
    ensures s == 2.5 <==> brightness > 230.0
    ensures s == 1.5 <==> 200.0 < brightness <= 230.0
    ensures s == 1.0 <==> brightness <= 200.0
  {
    if brightness > 230.0 then 2.5 else if brightness > 200.0 then 1.5 else 1.0
  }

  /** A star record as written to the JSON: centred coordinates, brightness, size and Milky Way flag. */
  datatype StarRecord = StarRecord(x: real, y: real, b: real, s: real, mw: int)

  /** The bounds every emitted record satisfies. */
  predicate InRecordRange(r: StarRecord) {
    && -0.5 <= r.x < 0.5
    && -0.5 < r.y <= 0.5
    && StarThreshold / 255.0 < r.b <= 1.0
    && (r.s == 1.0 || r.s == 1.5 || r.s == 2.5)
    && (r.mw == 0 || r.mw == 1)
  }

  // ---------------------------------------------------------------------------
  // Neighbourhood of a star

  /** A running sum of brightness and the number of pixels summed. */
  datatype Sample = Sample(sum: real, count: nat)

  function Plus(s: Sample, t: Sample): Sample {
    Sample(s.sum + t.sum, s.count + t.count)
  }

  const Reach: int := 10
  const Stride: int := 5

  predicate InBounds(img: Bitmap, x: int, y: int) {
    0 <= x < img.width && 0 <= y < img.height
  }

  /** Offsets -10, -5, ... below dxEnd along row yy, centred on column x: in-bounds pixels only. */
  function RowSample(img: Bitmap, x: int, yy: int, dxEnd: int): Sample
    requires Valid(img)
    decreases dxEnd + Reach
  {
    if dxEnd <= -Reach then Sample(0.0, 0)
    else
      var prev := RowSample(img, x, yy, dxEnd - Stride);
      var dx := dxEnd - Stride;
      if InBounds(img, x + dx, yy) then Sample(prev.sum + PixelBrightness(img, x + dx, yy), prev.count + 1)
      else prev
  }

  /** Rows -10, -5, ... below dyEnd around (x, y), each sampled at the five column offsets. */
  function GridSample(img: Bitmap, x: int, y: int, dyEnd: int): Sample
    requires Valid(img)
    decreases dyEnd + Reach
  {
    if dyEnd <= -Reach then Sample(0.0, 0)
    else Plus(GridSample(img, x, y, dyEnd - Stride), RowSample(img, x, y + dyEnd - Stride, Reach + Stride))
  }

  /** The 5 x 5 neighbourhood at offsets -10, -5, 0, 5, 10 in both directions. */
  function Neighbourhood(img: Bitmap, x: nat, y: nat): Sample
    requires Valid(img)
  {
    GridSample(img, x, y, Reach + Stride)
  }

  /** A row of the neighbourhood samples at most one pixel per offset, and the centre when it is included. */
  lemma {:induction false} RowSampleCount(img: Bitmap, x: int, yy: int, dxEnd: int)
    requires Valid(img) && -Reach <= dxEnd && (dxEnd + Reach) % Stride == 0
    decreases dxEnd + Reach
    ensures RowSample(img, x, yy, dxEnd).count <= (dxEnd + Reach) / Stride
    ensures 0 < dxEnd && InBounds(img, x, yy) ==> 1 <= RowSample(img, x, yy, dxEnd).count
  {
    if dxEnd > -Reach {
      RowSampleCount(img, x, yy, dxEnd - Stride);
    }
  }

  /** The neighbourhood samples at most five pixels per row, and the centre row when it is included. */
  lemma {:induction false} GridSampleCount(img: Bitmap, x: int, y: int, dyEnd: int)
    requires Valid(img) && -Reach <= dyEnd && (dyEnd + Reach) % Stride == 0
    decreases dyEnd + Reach
    ensures GridSample(img, x, y, dyEnd).count <= 5 * ((dyEnd + Reach) / Stride)
    ensures 0 < dyEnd && InBounds(img, x, y) ==> 1 <= GridSample(img, x, y, dyEnd).count
  {
    if dyEnd > -Reach {
      GridSampleCount(img, x, y, dyEnd - Stride);
      RowSampleCount(img, x, y + dyEnd - Stride, Reach + Stride);
    }
  }

  /** Around an in-bounds pixel between 1 and 25 pixels are sampled, so the average is defined. */
  lemma NeighbourhoodCount(img: Bitmap, x: nat, y: nat)
    requires Valid(img) && x < img.width && y < img.height
    ensures 1 <= Neighbourhood(img, x, y).count <= 25
  {
    GridSampleCount(img, x, y, Reach + Stride);
  }

  /** The neighbourhood samples only in-bounds pixels, so its average brightness is within [0, 255]. */
  lemma {:induction false} RowSampleSum(img: Bitmap, x: int, yy: int, dxEnd: int)
    requires Valid(img)
    decreases dxEnd + Reach
    ensures 0.0 <= RowSample(img, x, yy, dxEnd).sum <= 255.0 * RowSample(img, x, yy, dxEnd).count as real
  {
    if dxEnd > -Reach {
      RowSampleSum(img, x, yy, dxEnd - Stride);
    }
  }

  lemma {:induction false} GridSampleSum(img: Bitmap, x: int, y: int, dyEnd: int)
    requires Valid(img)
    decreases dyEnd + Reach
    ensures 0.0 <= GridSample(img, x, y, dyEnd).sum <= 255.0 * GridSample(img, x, y, dyEnd).count as real
  {
    if dyEnd > -Reach {
      GridSampleSum(img, x, y, dyEnd - Stride);
      RowSampleSum(img, x, y + dyEnd - Stride, Reach + Stride);
    }
  }

  /** The average brightness around an in-bounds pixel: a brightness, within [0, 255]. */
  function BackgroundBrightness(img: Bitmap, x: nat, y: nat): (v: real)
    requires Valid(img) && x < img.width && y < img.height
    ensures 0.0 <= v <= 255.0
  {
    NeighbourhoodCount(img, x, y);
    GridSampleSum(img, x, y, Reach + Stride);
    AverageBounds(Neighbourhood(img, x, y).sum, Neighbourhood(img, x, y).count as real);
    Neighbourhood(img, x, y).sum / Neighbourhood(img, x, y).count as real
  }

  lemma AverageBounds(sum: real, count: real)
    requires 1.0 <= count && 0.0 <= sum <= 255.0 * count
    ensures 0.0 <= sum / count <= 255.0
  {
  }

  /** The script's inner dx loop over one row yy of the neighbourhood, adding to the running sum and count. */
  method SampleRow(img: Bitmap, x: nat, yy: int, sum0: real, count0: nat) returns (bgBrightness: real, count: nat)
    requires Valid(img)
    ensures Sample(bgBrightness, count) == Plus(Sample(sum0, count0), RowSample(img, x, yy, Reach + Stride))
  {
    bgBrightness := sum0;
    count := count0;
    var dx := -Reach;
    while dx <= Reach
      invariant -Reach <= dx <= Reach + Stride && (dx + Reach) % Stride == 0
      invariant Sample(bgBrightness, count) == Plus(Sample(sum0, count0), RowSample(img, x, yy, dx))
    {
      if 0 <= x + dx < img.width && 0 <= yy < img.height {
        bgBrightness := bgBrightness + PixelBrightness(img, x + dx, yy);
        count := count + 1;
      }
      dx := dx + Stride;
    }
  }

  /**
    The script's nested dy/dx loop around pixel (x, y): sums the brightness of
    each in-bounds neighbour at offsets -10..10 step 5 and counts them.
  */
  method SampleBackground(img: Bitmap, x: nat, y: nat) returns (bgBrightness: real, count: nat)
    requires Valid(img)
    ensures Sample(bgBrightness, count) == Neighbourhood(img, x, y)
  {
    bgBrightness := 0.0;
    count := 0;
    var dy := -Reach;
    while dy <= Reach
      invariant -Reach <= dy <= Reach + Stride && (dy + Reach) % Stride == 0
      invariant Sample(bgBrightness, count) == GridSample(img, x, y, dy)
    {
      bgBrightness, count := SampleRow(img, x, y + dy, bgBrightness, count);
      dy := dy + Stride;
    }
  }

  // ---------------------------------------------------------------------------
  // One grid point

  lemma UnitQuotient(n: nat, d: nat)
    requires n < d
    ensures 0.0 <= n as real / d as real < 1.0
  {
  }

  /**
    The record for the in-bounds pixel (x, y), or None when it is not a star
    pixel. Coordinates are centred: x / width - 0.5 and 0.5 - y / height.
  */
  function Examine(img: Bitmap, x: nat, y: nat): (r: Option<StarRecord>)
    requires Valid(img) && x < img.width && y < img.height
    ensures r.Some? <==> IsStarPixel(img, x, y)
  {
    var brightness := PixelBrightness(img, x, y);
    if IsStarPixel(img, x, y) then
      var nx := x as real / img.width as real - 0.5;
      var ny := -(y as real / img.height as real) + 0.5;
      var isMilkyWay := BackgroundBrightness(img, x, y) > MilkyWayThreshold;
      Some(StarRecord(nx, ny, brightness / 255.0, SizeClass(brightness), if isMilkyWay then 1 else 0))
    else
      None
  }

  /**
    A star pixel's record: within the record bounds, its brightness scaled to
    (180/255, 1], its size class, and the Milky Way flag set exactly when the
    neighbourhood averages above 50.
  */
  lemma ExamineRecord(img: Bitmap, x: nat, y: nat)
    requires Valid(img) && x < img.width && y < img.height && IsStarPixel(img, x, y)
    ensures InRecordRange(Examine(img, x, y).value)
    ensures Examine(img, x, y).value.b == PixelBrightness(img, x, y) / 255.0
    ensures Examine(img, x, y).value.s == SizeClass(PixelBrightness(img, x, y))
    ensures Examine(img, x, y).value.mw == 1 <==> BackgroundBrightness(img, x, y) > MilkyWayThreshold
  {
    UnitQuotient(x, img.width);
    UnitQuotient(y, img.height);
  }

  /** What the grid point (x, y) contributes to the list: nothing below the horizon or for a non-star. */
  function PointCandidates(img: Bitmap, x: nat, y: nat): (c: seq<StarRecord>)
    requires Valid(img) && x < img.width && y < img.height
    ensures |c| <= 1
    ensures |c| == 1 <==> !BelowHorizon(img, y) && IsStarPixel(img, x, y)
    ensures |c| == 1 ==> Examine(img, x, y) == Some(c[0])
  {
    if BelowHorizon(img, y) then []
    else match Examine(img, x, y)
      case None => []
      case Some(r) => [r]
  }

  // ---------------------------------------------------------------------------
  // The scan

  /** Grid columns x, x + 4, x + 8, ... of row y up to the right edge, in scan order. */
  function RowFrom(img: Bitmap, y: nat, x: nat): seq<StarRecord>
    requires Valid(img) && y < img.height
    decreases img.width - x
  {
    if x >= img.width then []
    else PointCandidates(img, x, y) + RowFrom(img, y, x + Step)
  }

  /** Grid rows y, y + 4, y + 8, ... down to the bottom edge, each scanned left to right. */
  function RowsFrom(img: Bitmap, y: nat): seq<StarRecord>
    requires Valid(img)
    decreases img.height - y
  {
    if y >= img.height then []
    else RowFrom(img, y, 0) + RowsFrom(img, y + Step)
  }

  lemma RowFromStep(img: Bitmap, y: nat, x: nat)
    requires Valid(img) && y < img.height && x < img.width
    ensures RowFrom(img, y, x) == PointCandidates(img, x, y) + RowFrom(img, y, x + Step)
  {
  }

  lemma RowsFromStep(img: Bitmap, y: nat)
    requires Valid(img) && y < img.height
    ensures RowsFrom(img, y) == RowFrom(img, y, 0) + RowsFrom(img, y + Step)
  {
  }

  /** Every record the scan emits, in scan order; each was emitted at some grid point. */
  function Candidates(img: Bitmap): (c: seq<StarRecord>)
    requires Valid(img)
    ensures forall r :: r in c ==> exists x, y :: EmittedAt(img, r, x, y)
  {
    RowsProvenance(img, 0);
    RowsFrom(img, 0)
  }

  /** A record that came from examining grid point (x, y) above the horizon. */
  ghost predicate EmittedAt(img: Bitmap, r: StarRecord, x: nat, y: nat)
    requires Valid(img)
  {
    && x < img.width && y < img.height
    && x % Step == 0 && y % Step == 0
    && !BelowHorizon(img, y)
    && Examine(img, x, y) == Some(r)
  }

  lemma {:induction false} RowProvenance(img: Bitmap, y: nat, x: nat)
    requires Valid(img) && y < img.height && y % Step == 0 && x % Step == 0
    decreases img.width - x
    ensures forall r :: r in RowFrom(img, y, x) ==> exists x' :: EmittedAt(img, r, x', y)
  {
    if x < img.width {
      RowProvenance(img, y, x + Step);
      var point := PointCandidates(img, x, y);
      forall r | r in point
        ensures EmittedAt(img, r, x, y)
      {
      }
    }
  }

  lemma {:induction false} RowsProvenance(img: Bitmap, y: nat)
    requires Valid(img) && y % Step == 0
    decreases img.height - y
    ensures forall r :: r in RowsFrom(img, y) ==> exists x', y' :: EmittedAt(img, r, x', y')
  {
    if y < img.height {
      RowsProvenance(img, y + Step);
      RowProvenance(img, y, 0);
    }
  }

  /** A record of the point k steps right of column x is in the row's records from x on. */
  lemma {:induction false} RowContains(img: Bitmap, y: nat, x: nat, k: nat, r: StarRecord)
    requires Valid(img) && y < img.height && x + Step * k < img.width
    requires r in PointCandidates(img, x + Step * k, y)
    decreases k
    ensures r in RowFrom(img, y, x)
  {
    RowFromStep(img, y, x);
    if k > 0 {
      RowContains(img, y, x + Step, k - 1, r);
    }
  }

  /** A record of the row k steps below row y is in the records from row y on. */
  lemma {:induction false} RowsContain(img: Bitmap, y: nat, k: nat, r: StarRecord)
    requires Valid(img) && y + Step * k < img.height
    requires r in RowFrom(img, y + Step * k, 0)
    decreases k
    ensures r in RowsFrom(img, y)
  {
    RowsFromStep(img, y);
    if k > 0 {
      RowsContain(img, y + Step, k - 1, r);
    }
  }

  /**
    The converse of the provenance in `Candidates`: every grid-point star
    pixel above the horizon has its record among the candidates.
  */
  lemma CandidatesComplete(img: Bitmap, x: nat, y: nat)
    requires Valid(img) && x < img.width && y < img.height
    requires x % Step == 0 && y % Step == 0
    requires !BelowHorizon(img, y) && IsStarPixel(img, x, y)
    ensures Examine(img, x, y).value in Candidates(img)
  {
    var r := Examine(img, x, y).value;
    assert r in PointCandidates(img, x, y);
    RowContains(img, y, 0, x / Step, r);
    RowsContain(img, 0, y / Step, r);
  }

  /** Every candidate satisfies the record bounds. */
  lemma CandidatesInRecordRange(img: Bitmap)
    requires Valid(img)
    ensures forall r :: r in Candidates(img) ==> InRecordRange(r)
  {
    forall r | r in Candidates(img)
      ensures InRecordRange(r)
    {
      var x, y :| EmittedAt(img, r, x, y);
      ExamineRecord(img, x, y);
    }
  }

  // ---------------------------------------------------------------------------
  // Sort and truncate

  const MaxStars: nat := 1500

  predicate SortedByBrightness(s: seq<StarRecord>) {
    forall i, j :: 0 <= i < j < |s| ==> s[i].b >= s[j].b
  }

  /** Places r before the first record no brighter than it: the step of a stable descending sort. */
  function Insert(r: StarRecord, s: seq<StarRecord>): (t: seq<StarRecord>)
    ensures |t| == |s| + 1
    ensures multiset(t) == multiset(s) + multiset{r}
    ensures t[0] == r || (0 < |s| && t[0] == s[0])
  {
    if |s| == 0 || s[0].b <= r.b then
      [r] + s
    else
      assert s == [s[0]] + s[1..];
      [s[0]] + Insert(r, s[1..])
  }

  /** Inserting into a sorted list keeps it sorted. */
  lemma {:induction false} InsertKeepsSorted(r: StarRecord, s: seq<StarRecord>)
    requires SortedByBrightness(s)
    ensures SortedByBrightness(Insert(r, s))
  {
    if |s| > 0 && s[0].b > r.b {
      var rest := Insert(r, s[1..]);
      InsertKeepsSorted(r, s[1..]);
      assert Insert(r, s) == [s[0]] + rest;
      forall i, j | 0 <= i < j < |rest| + 1
        ensures ([s[0]] + rest)[i].b >= ([s[0]] + rest)[j].b
      {
        if i == 0 {
          assert rest[0].b >= rest[j - 1].b;
        }
      }
    }
  }

  /**
    The comparator sort `(a, b) => b.b - a.b`: records by brightness, brightest
    first, a permutation of the input. The library sort is stable, and so is
    this insertion sort: equal records keep their scan order.
  */
  function SortByBrightness(s: seq<StarRecord>): (t: seq<StarRecord>)
    ensures |t| == |s|
    ensures multiset(t) == multiset(s)
    ensures SortedByBrightness(t)
  {
    if |s| == 0 then []
    else
      assert s == [s[0]] + s[1..];
      InsertKeepsSorted(s[0], SortByBrightness(s[1..]));
      Insert(s[0], SortByBrightness(s[1..]))
  }

  /** The records of brightness v, in their order in s. */
  function WithBrightness(s: seq<StarRecord>, v: real): (t: seq<StarRecord>)
    ensures forall r :: r in t ==> r in s && r.b == v
  {
    if |s| == 0 then []
    else (if s[0].b == v then [s[0]] else []) + WithBrightness(s[1..], v)
  }

  /** Filtering a list with one record in front. */
  lemma WithBrightnessCons(r: StarRecord, s: seq<StarRecord>, v: real)
    ensures WithBrightness([r] + s, v) == (if r.b == v then [r] else []) + WithBrightness(s, v)
  {
    assert ([r] + s)[0] == r && ([r] + s)[1..] == s;
  }

  /** r goes in front of a list whose head is no brighter than it. */
  lemma InsertInFront(r: StarRecord, s: seq<StarRecord>)
    requires |s| == 0 || s[0].b <= r.b
    ensures Insert(r, s) == [r] + s
  {
  }

  /** r goes past a head brighter than it. */
  lemma InsertPastHead(r: StarRecord, s: seq<StarRecord>)
    requires |s| > 0 && s[0].b > r.b
    ensures Insert(r, s) == [s[0]] + Insert(r, s[1..])
  {
  }

  /** Insertion keeps the order of each brightness class, with r ahead of the records as bright as it. */
  lemma {:induction false} InsertIsStable(r: StarRecord, s: seq<StarRecord>, v: real)
    ensures WithBrightness(Insert(r, s), v) == (if r.b == v then [r] else []) + WithBrightness(s, v)
  {
    if |s| == 0 || s[0].b <= r.b {
      InsertInFront(r, s);
      WithBrightnessCons(r, s, v);
    } else {
      var head, tail := s[0], s[1..];
      InsertPastHead(r, s);
      InsertIsStable(r, tail, v);
      WithBrightnessCons(head, Insert(r, tail), v);
      WithBrightnessCons(head, tail, v);
      assert [head] + tail == s;
      assert head.b == v ==> r.b != v;
    }
  }

  /**
    The sort is stable: for every brightness, the records of that brightness
    come out in the order the scan produced them.
  */
  lemma {:induction false} SortIsStable(s: seq<StarRecord>, v: real)
    ensures WithBrightness(SortByBrightness(s), v) == WithBrightness(s, v)
  {
    if |s| > 0 {
      SortIsStable(s[1..], v);
      InsertIsStable(s[0], SortByBrightness(s[1..]), v);
    }
  }

  function Min(a: nat, b: nat): nat {
    if a < b then a else b
  }

  /** The saved stars: the sorted candidates cut to at most 1500. */
  function TopStars(candidates: seq<StarRecord>): (top: seq<StarRecord>)
    ensures |top| == Min(|candidates|, MaxStars)
    ensures top == SortByBrightness(candidates)[..|top|]
    ensures SortedByBrightness(top)
    ensures multiset(top) <= multiset(candidates)
  {
    var sorted := SortByBrightness(candidates);
    var top := sorted[..Min(|candidates|, MaxStars)];
    assert sorted == top + sorted[|top|..];
    top
  }

  /** Every candidate that is cut is no brighter than any star that is kept. */
  lemma TopStarsAreTheBrightest(candidates: seq<StarRecord>, i: nat, j: nat)
    requires i < |TopStars(candidates)| <= j < |candidates|
    ensures TopStars(candidates)[i].b >= SortByBrightness(candidates)[j].b
  {
  }

  /** The script's body for one pixel above the horizon: the star test, coordinates, size and neighbourhood. */
  method ExaminePixel(img: Bitmap, x: nat, y: nat) returns (star: Option<StarRecord>)
    requires Valid(img) && x < img.width && y < img.height
    ensures star == Examine(img, x, y)
  {
    var brightness := PixelBrightness(img, x, y);
    if brightness > StarThreshold && Channel(img, x, y, 2) as real >= Channel(img, x, y, 0) as real * 0.9 {
      var nx := x as real / img.width as real - 0.5;
      var ny := -(y as real / img.height as real) + 0.5;
      var size := SizeClass(brightness);
      var bgBrightness, count := SampleBackground(img, x, y);
      NeighbourhoodCount(img, x, y);
      bgBrightness := bgBrightness / count as real;
      var isMilkyWay := bgBrightness > MilkyWayThreshold;
      star := Some(StarRecord(nx, ny, brightness / 255.0, size, if isMilkyWay then 1 else 0));
    } else {
      star := None;
    }
  }

  /** The inner loop over one grid row: pushes the record of every star pixel, skipping rows below the horizon. */
  method ScanRow(img: Bitmap, y: nat, stars0: seq<StarRecord>) returns (stars: seq<StarRecord>)
    requires Valid(img) && y < img.height
    ensures stars == stars0 + RowFrom(img, y, 0)
  {
    stars := stars0;
    var x := 0;
    while x < img.width
      invariant stars + RowFrom(img, y, x) == stars0 + RowFrom(img, y, 0)
    {
      if BelowHorizon(img, y) {
        RowFromStep(img, y, x);
        x := x + Step;
        continue;
      }
      var star := ExaminePixel(img, x, y);
      ghost var before := stars;
      if star.Some? {
        stars := stars + [star.value];
      }
      RowFromStep(img, y, x);
      assert stars + RowFrom(img, y, x + Step) == before + RowFrom(img, y, x);
      x := x + Step;
    }
  }

  lemma ScanStep(img: Bitmap, y: nat, before: seq<StarRecord>, after: seq<StarRecord>)
    requires Valid(img) && y < img.height
    requires before + RowsFrom(img, y) == Candidates(img)
    requires after == before + RowFrom(img, y, 0)
    ensures after + RowsFrom(img, y + Step) == Candidates(img)
  {
    RowsFromStep(img, y);
    assert after + RowsFrom(img, y + Step) == before + (RowFrom(img, y, 0) + RowsFrom(img, y + Step));
  }

  /** The outer loop over grid rows: every candidate record in scan order. */
  method ScanCandidates(img: Bitmap) returns (stars: seq<StarRecord>)
    requires Valid(img)
    ensures stars == Candidates(img)
  {
    stars := [];
    var y := 0;
    while y < img.height
      invariant stars + RowsFrom(img, y) == Candidates(img)
    {
      ghost var before := stars;
      stars := ScanRow(img, y, stars);
      ScanStep(img, y, before, stars);
      y := y + Step;
    }
    assert RowsFrom(img, y) == [];
  }

  /** The whole extraction: the scan, then the sort and the 1500-star cut. */
  method ExtractStars(img: Bitmap) returns (topStars: seq<StarRecord>)
    requires Valid(img)
    ensures topStars == TopStars(Candidates(img))
    ensures |topStars| <= MaxStars
    ensures forall r :: r in topStars ==> InRecordRange(r)
  {
    var stars := ScanCandidates(img);
    var sorted := SortByBrightness(stars);
    topStars := sorted[..Min(|sorted|, MaxStars)];
    CandidatesInRecordRange(img);
    forall r | r in topStars
      ensures InRecordRange(r)
    {
      assert r in multiset(topStars);
      assert r in multiset(Candidates(img));
    }
  }

}
