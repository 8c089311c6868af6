/** The GrainyColorCircle component: an absolutely positioned square `svg`
    holding a circle filled with a radial gradient of one colour and textured
    by a noise filter. Each element's filter and gradient carry ids derived
    from the circle's index. */
module GrainyColorCircle {
  import opened Layout
  import Text

  /** The `svg` element's inline style. Lengths are in pixels. */
  datatype Style = Style(position: string, top: real, left: real, width: real, height: real)

  /** One `<stop>` of the radial gradient: offset in percent, colour, opacity. */
  datatype GradientStop = GradientStop(offset: real, stopColor: string, stopOpacity: real)

  /** The `<circle>`: centre, radius, and its `fill` and `filter` references. */
  datatype SvgCircle = SvgCircle(cx: real, cy: real, r: real, fill: string, filter: string)

  /** The rendered element: the `svg`, the ids of its `<filter>` and
      `<radialGradient>` definitions, the gradient's stops and the circle. */
  datatype Svg = Svg(
    key: nat,
    className: string,
    style: Style,
    filterId: string,
    gradientId: string,
    gradient: seq<GradientStop>,
    circle: SvgCircle)

  /** The id of a circle's noise filter: "noise-" followed by the index in
      decimal, which reads back from the id. */
  function FilterId(index: nat): (id: string)
    ensures |id| > 6 && id[..6] == "noise-"
    ensures Text.AllDigits(id[6..]) && Text.ParseDecimal(id[6..]) == index
  {
    var id := "noise-" + Text.Decimal(index);
    assert id[6..] == Text.Decimal(index);
    Text.ParseDecimalOfDecimal(index);
    id
  }

  /** The id of a circle's radial gradient: "gradient-" followed by the index
      in decimal, which reads back from the id. */
  function GradientId(index: nat): (id: string)
    ensures |id| > 9 && id[..9] == "gradient-"
    ensures Text.AllDigits(id[9..]) && Text.ParseDecimal(id[9..]) == index
  {
    var id := "gradient-" + Text.Decimal(index);
    assert id[9..] == Text.Decimal(index);
    Text.ParseDecimalOfDecimal(index);
    id
  }

  /** A CSS reference to the definition with the given id: the id wrapped in
      "url(#" and ")", from which it can be cut out again. */
  function UrlRef(id: string): (r: string)
    ensures |r| == |id| + 6
    ensures r[..5] == "url(#" && r[|r| - 1] == ')'
    ensures r[5..|r| - 1] == id
  {
    "url(#" + id + ")"
  }

  /** A reference names exactly one id. */
  lemma UrlRefInjective(a: string, b: string)
    ensures UrlRef(a) == UrlRef(b) <==> a == b
  {
    if UrlRef(a) == UrlRef(b) {
      assert a == UrlRef(a)[5..|UrlRef(a)| - 1];
      assert b == UrlRef(b)[5..|UrlRef(b)| - 1];
    }
  }

  /** Ids never clash: circles with different indices get different filter
      ids and different gradient ids, and no filter id is a gradient id. */
  lemma IdsInjective(i: nat, j: nat)
    ensures FilterId(i) == FilterId(j) <==> i == j
    ensures GradientId(i) == GradientId(j) <==> i == j
    ensures FilterId(i) != GradientId(j)
  {
    Text.NumberedNameInjective("noise-", i, j);
    Text.NumberedNameInjective("gradient-", i, j);
    assert FilterId(i)[0] != GradientId(j)[0];
  }

  /** The three stops of the radial gradient: full colour at the centre,
      0.74 opacity at 83% of the radius, transparent at the rim. */
  function RadialStops(color: string): (s: seq<GradientStop>)
    ensures |s| == 3
    ensures s[0].offset == 0.0 && s[2].offset == 100.0
    ensures s[0].stopOpacity == 1.0 && s[2].stopOpacity == 0.0
    ensures forall i, j :: 0 <= i < j < |s| ==>
      s[i].offset < s[j].offset && s[i].stopOpacity >= s[j].stopOpacity
    ensures forall i :: 0 <= i < |s| ==> s[i].stopColor == color
  {
    [ GradientStop(0.0, color, 1.0),
      GradientStop(83.0, color, 0.74),
      GradientStop(100.0, color, 0.0) ]
  }

  /** The element for the given props: the same box as ColorCircle (square of
      side `radius`, centred on (x, y)), a circle inscribed in it (centre in
      the middle of the box, radius half the side, touching all four sides),
      filled with this index's gradient and filtered by this index's noise. */
  function Render(p: CircleProps): (s: Svg)
    ensures s.key == p.index && s.className == "fade-in" && s.style.position == "absolute"
    ensures s.style.width == p.radius && s.style.height == p.radius
    ensures s.style.left + s.style.width / 2.0 == p.x && s.style.top + s.style.height / 2.0 == p.y
    ensures s.circle.cx - s.circle.r == 0.0 && s.circle.cx + s.circle.r == s.style.width
    ensures s.circle.cy - s.circle.r == 0.0 && s.circle.cy + s.circle.r == s.style.height
    ensures s.filterId == FilterId(p.index) && s.gradientId == GradientId(p.index)
    ensures s.circle.fill == UrlRef(s.gradientId) && s.circle.filter == UrlRef(s.filterId)
    ensures s.gradient == RadialStops(p.color)
  {
    var box := CentredSquare(p.radius, p.x, p.y);
    var half := p.radius / 2.0;
    Svg(p.index, "fade-in",
      Style("absolute", box.top, box.left, box.width, box.height),
      FilterId(p.index), GradientId(p.index), RadialStops(p.color),
      SvgCircle(half, half, half, UrlRef(GradientId(p.index)), UrlRef(FilterId(p.index))))
  }

  /** With a non-negative radius prop the circle lies within the box: its
      leftmost, rightmost, top and bottom points are on the box's edges. */
  lemma CircleInsideBox(p: CircleProps)
    requires 0.0 <= p.radius
    ensures var s := Render(p);
      0.0 <= s.circle.r && 0.0 <= s.circle.cx - s.circle.r && s.circle.cx + s.circle.r <= s.style.width
      && 0.0 <= s.circle.cy - s.circle.r && s.circle.cy + s.circle.r <= s.style.height
  {
  }

  /** Two circles with different indices refer to different definitions, so
      one circle's fill or filter can never pick up another's. */
  lemma ReferencesDistinct(p: CircleProps, q: CircleProps)
    requires p.index != q.index
    ensures Render(p).circle.fill != Render(q).circle.fill
    ensures Render(p).circle.filter != Render(q).circle.filter
  {
    IdsInjective(p.index, q.index);
    UrlRefInjective(GradientId(p.index), GradientId(q.index));
    UrlRefInjective(FilterId(p.index), FilterId(q.index));
  }
}
