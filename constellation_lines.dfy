/**
  The decorative star pattern drawn behind each constellation's links: a
  constant table of dots (in a 130 x 90 design box) and the lines joining
  them, looked up by constellation id and scaled to the SVG's size, one line
  element per edge and one pulsing circle per dot.
*/
module ConstellationLines {

  import opened Wrappers

  datatype Dot = Dot(x: real, y: real)

  /** A line between the dots at two indices of the pattern's dot list. */
  datatype Edge = Edge(from: nat, to: nat)

  datatype Pattern = Pattern(dots: seq<Dot>, lines: seq<Edge>)

  /** The coordinate box the patterns were drawn in. */
  const DesignWidth := 130.0
  const DesignHeight := 90.0

  /** Social: a diamond or oval. */
  const Social := Pattern(
    [ Dot(30.0, 10.0), Dot(70.0, 5.0), Dot(110.0, 15.0),
      Dot(15.0, 40.0), Dot(55.0, 50.0), Dot(95.0, 45.0),
      Dot(40.0, 75.0), Dot(80.0, 70.0) ],
    [ Edge(0, 1), Edge(1, 2), Edge(0, 3), Edge(1, 4), Edge(2, 5),
      Edge(3, 4), Edge(4, 5), Edge(3, 6), Edge(4, 6), Edge(4, 7), Edge(5, 7) ])

  /** Portfolio: a house or pentagon. */
  const Portfolio := Pattern(
    [ Dot(50.0, 5.0), Dot(15.0, 30.0), Dot(85.0, 30.0),
      Dot(10.0, 65.0), Dot(50.0, 50.0), Dot(90.0, 65.0),
      Dot(30.0, 80.0), Dot(70.0, 80.0) ],
    [ Edge(0, 1), Edge(0, 2), Edge(1, 3), Edge(2, 5),
      Edge(1, 4), Edge(2, 4), Edge(3, 6), Edge(4, 6), Edge(4, 7), Edge(5, 7) ])

  /** Projects: a horizontal arch. */
  const Projects := Pattern(
    [ Dot(10.0, 30.0), Dot(45.0, 8.0), Dot(85.0, 12.0), Dot(120.0, 35.0),
      Dot(25.0, 55.0), Dot(60.0, 45.0), Dot(95.0, 50.0),
      Dot(45.0, 75.0), Dot(80.0, 72.0) ],
    [ Edge(0, 1), Edge(1, 2), Edge(2, 3), Edge(0, 4), Edge(1, 5),
      Edge(2, 6), Edge(3, 6), Edge(4, 5), Edge(5, 6),
      Edge(4, 7), Edge(5, 7), Edge(5, 8), Edge(6, 8) ])

  /** Knowledge: an angular W. */
  const Knowledge := Pattern(
    [ Dot(10.0, 15.0), Dot(45.0, 35.0), Dot(75.0, 10.0), Dot(110.0, 30.0),
      Dot(25.0, 55.0), Dot(55.0, 60.0), Dot(90.0, 55.0),
      Dot(40.0, 80.0), Dot(75.0, 75.0) ],
    [ Edge(0, 1), Edge(1, 2), Edge(2, 3), Edge(0, 4), Edge(1, 4),
      Edge(1, 5), Edge(2, 5), Edge(2, 6), Edge(3, 6),
      Edge(4, 7), Edge(5, 7), Edge(5, 8), Edge(6, 8) ])

  /** The pattern table, keyed by constellation id. */
  const Patterns: map<string, Pattern> :=
    map["social" := Social, "portfolio" := Portfolio, "projects" := Projects, "knowledge" := Knowledge]

  /** Every line endpoint indexes a dot of the same pattern. */
  predicate WellFormed(p: Pattern) {
    forall k :: 0 <= k < |p.lines| ==> p.lines[k].from < |p.dots| && p.lines[k].to < |p.dots|
  }

  /** Every dot lies in the 130 x 90 design box. */
  predicate InDesignBox(dots: seq<Dot>) {
    forall k :: 0 <= k < |dots| ==> 0.0 <= dots[k].x <= DesignWidth && 0.0 <= dots[k].y <= DesignHeight
  }

  predicate Drawable(p: Pattern) {
    WellFormed(p) && InDesignBox(p.dots)
  }

  lemma SocialDrawable() ensures Drawable(Social) { }
  lemma PortfolioDrawable() ensures Drawable(Portfolio) { }
  lemma ProjectsDrawable() ensures Drawable(Projects) { }
  lemma KnowledgeDrawable() ensures Drawable(Knowledge) { }

  /** The table's four patterns are well formed and drawn inside the design box. */
  lemma PatternsDrawable()
    ensures forall id :: id in Patterns ==> Drawable(Patterns[id])
  {
    SocialDrawable();
    PortfolioDrawable();
    ProjectsDrawable();
    KnowledgeDrawable();
  }

  /** The pattern for an id, or None for an id the table does not know (the component then renders nothing). */
  function Lookup(id: string): (p: Option<Pattern>)
    ensures p.Some? <==> id in Patterns
    ensures p.Some? ==> p.value == Patterns[id] && Drawable(p.value)
  {
    PatternsDrawable();
    if id in Patterns then Some(Patterns[id]) else None
  }

  // ---------------------------------------------------------------------------
  // Scaling

  function ScaleDot(d: Dot, scaleX: real, scaleY: real): Dot {
    Dot(d.x * scaleX, d.y * scaleY)
  }

  /** Each dot scaled by width / 130 and height / 90, keeping count and order. */
  function ScaleDots(dots: seq<Dot>, width: real, height: real): (scaled: seq<Dot>)
    ensures |scaled| == |dots|
    ensures forall i :: 0 <= i < |dots| ==> scaled[i] == ScaleDot(dots[i], width / DesignWidth, height / DesignHeight)
  {
    seq(|dots|, i requires 0 <= i < |dots| => ScaleDot(dots[i], width / DesignWidth, height / DesignHeight))
  }

  lemma ScaleWithinBound(v: real, bound: real, size: real)
    requires 0.0 <= v <= bound && 0.0 < bound && 0.0 <= size
    ensures 0.0 <= v * (size / bound) <= size
  {
    var s := size / bound;
    assert s * bound == size;
    assert 0.0 <= s;
    assert v * s <= bound * s;
  }

  /** Dots inside the design box land inside the width x height SVG. */
  lemma ScaledDotsFit(dots: seq<Dot>, width: real, height: real)
    requires InDesignBox(dots) && 0.0 <= width && 0.0 <= height
    ensures forall i :: 0 <= i < |dots| ==>
      0.0 <= ScaleDots(dots, width, height)[i].x <= width && 0.0 <= ScaleDots(dots, width, height)[i].y <= height
  {
    forall i | 0 <= i < |dots|
      ensures 0.0 <= ScaleDots(dots, width, height)[i].x <= width
      ensures 0.0 <= ScaleDots(dots, width, height)[i].y <= height
    {
      ScaleWithinBound(dots[i].x, DesignWidth, width);
      ScaleWithinBound(dots[i].y, DesignHeight, height);
    }
  }

  lemma UnscaleCoordinate(v: real, bound: real, size: real)
    requires 0.0 < bound && 0.0 < size
    ensures v * (size / bound) * bound / size == v
  {
    var s := size / bound;
    assert s * bound == size;
    assert v * s * bound == v * size;
  }

  /** For a non-empty SVG, scaling loses nothing: multiplying back by 130 / width and 90 / height recovers each dot. */
  lemma ScalingRoundTrip(dots: seq<Dot>, width: real, height: real)
    requires 0.0 < width && 0.0 < height
    ensures forall i :: 0 <= i < |dots| ==>
      ScaleDots(dots, width, height)[i].x * DesignWidth / width == dots[i].x
      && ScaleDots(dots, width, height)[i].y * DesignHeight / height == dots[i].y
  {
    forall i | 0 <= i < |dots|
      ensures ScaleDots(dots, width, height)[i].x * DesignWidth / width == dots[i].x
      ensures ScaleDots(dots, width, height)[i].y * DesignHeight / height == dots[i].y
    {
      UnscaleCoordinate(dots[i].x, DesignWidth, width);
      UnscaleCoordinate(dots[i].y, DesignHeight, height);
    }
  }

  // ---------------------------------------------------------------------------
  // The rendered SVG

  datatype Segment = Segment(x1: real, y1: real, x2: real, y2: real)

  /** A dot's circle and the period of its opacity pulse, in seconds. */
  datatype Circle = Circle(cx: real, cy: real, duration: real)

  datatype Svg = Svg(width: real, height: real, lines: seq<Segment>, circles: seq<Circle>)

  /** Dot i pulses with a period of 2 + 0.3 i seconds. */
  function PulseDuration(i: nat): (seconds: real)
    ensures 2.0 <= seconds
  {
    2.0 + i as real * 0.3
  }

  /** Later dots pulse more slowly. */
  lemma PulseDurationIncreasing(i: nat, j: nat)
    requires i < j
    ensures PulseDuration(i) < PulseDuration(j)
  {
  }

  /** One segment per edge, joining the two dots the edge names. */
  function DrawLines(dots: seq<Dot>, lines: seq<Edge>): (segments: seq<Segment>)
    requires forall k :: 0 <= k < |lines| ==> lines[k].from < |dots| && lines[k].to < |dots|
    ensures |segments| == |lines|
    ensures forall k :: 0 <= k < |lines| ==>
      segments[k] == Segment(dots[lines[k].from].x, dots[lines[k].from].y, dots[lines[k].to].x, dots[lines[k].to].y)
  {
    seq(|lines|, k requires 0 <= k < |lines| =>
      Segment(dots[lines[k].from].x, dots[lines[k].from].y, dots[lines[k].to].x, dots[lines[k].to].y))
  }

  /** One circle per dot, centred on it, with its pulse period. */
  function DrawCircles(dots: seq<Dot>): (circles: seq<Circle>)
    ensures |circles| == |dots|
    ensures forall i :: 0 <= i < |dots| ==> circles[i] == Circle(dots[i].x, dots[i].y, PulseDuration(i))
  {
    seq(|dots|, i requires 0 <= i < |dots| => Circle(dots[i].x, dots[i].y, PulseDuration(i)))
  }

  /**
    A drawable pattern at a given size: one line per edge, each joining the
    centres of two of the drawn circles, and one circle per dot at its scaled
    position, with pulse periods strictly increasing along the dot list.
  */
  function RenderPattern(p: Pattern, width: real, height: real): (svg: Svg)
    requires WellFormed(p)
    ensures |svg.lines| == |p.lines| && |svg.circles| == |p.dots|
    ensures forall i :: 0 <= i < |svg.circles| ==>
      svg.circles[i].cx == p.dots[i].x * (width / DesignWidth) && svg.circles[i].cy == p.dots[i].y * (height / DesignHeight)
    ensures forall k :: 0 <= k < |svg.lines| ==>
      svg.lines[k] == Segment(svg.circles[p.lines[k].from].cx, svg.circles[p.lines[k].from].cy,
                              svg.circles[p.lines[k].to].cx, svg.circles[p.lines[k].to].cy)
    ensures forall i, j :: 0 <= i < j < |svg.circles| ==> svg.circles[i].duration < svg.circles[j].duration
  {
    var scaled := ScaleDots(p.dots, width, height);
    Svg(width, height, DrawLines(scaled, p.lines), DrawCircles(scaled))
  }

  /** The component: nothing for an id the table does not know, otherwise its pattern rendered at the given size. */
  function Render(id: string, width: real, height: real): (svg: Option<Svg>)
    ensures svg.Some? <==> id in Patterns
    ensures svg.Some? ==> Drawable(Patterns[id]) && svg.value == RenderPattern(Patterns[id], width, height)
  {
    match Lookup(id)
    case None => None
    case Some(pattern) => Some(RenderPattern(pattern, width, height))
  }

  /** With a non-negative size every drawn circle lies inside the SVG. */
  lemma RenderedCirclesFit(id: string, width: real, height: real)
    requires id in Patterns && 0.0 <= width && 0.0 <= height
    ensures forall c :: c in Render(id, width, height).value.circles ==> 0.0 <= c.cx <= width && 0.0 <= c.cy <= height
  {
    PatternsDrawable();
    var p := Patterns[id];
    ScaledDotsFit(p.dots, width, height);
    var circles := Render(id, width, height).value.circles;
    forall c | c in circles
      ensures 0.0 <= c.cx <= width && 0.0 <= c.cy <= height
    {
      var i :| 0 <= i < |circles| && circles[i] == c;
    }
  }

}
