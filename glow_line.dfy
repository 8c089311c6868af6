/** The GlowLine component: a horizontal line whose background becomes a
    six-stop `linear-gradient()` (CSS Images Module Level 3, section 3.1)
    with a highlighted band under the pointer, and goes back to a solid
    main colour when the pointer leaves. */
module GlowLine {
  import opened Options
  import opened Layout

  /** The optional `settings` prop; each field may be missing. */
  datatype Settings = Settings(
    mainColor: Option<string>,
    highlightColor: Option<string>,
    glowRadius: Option<real>,
    lineThickness: Option<real>)

  /** The settings after defaults have been applied. */
  datatype Config = Config(mainColor: string, highlightColor: string, glowRadius: real, lineThickness: real)

  const DefaultMainColor: string := "rgb(0,0,0)"
  const DefaultHighlightColor: string := "rgb(255,255,255)"
  const DefaultGlowRadius: real := 1.0
  const DefaultLineThickness: real := 4.0

  /** The settings object the component reads: the one passed, or, when
      none is passed, one in which every field is missing. */
  function SettingsOf(props: Option<Settings>): (s: Settings)
    ensures props.Some? ==> s == props.value
    ensures props.None? ==>
      s.mainColor.None? && s.highlightColor.None? && s.glowRadius.None? && s.lineThickness.None?
  {
    props.GetOr(Settings(None, None, None, None))
  }

  /** A string setting is truthy when it is present and not empty. */
  predicate SuppliedText(v: Option<string>) {
    v.Some? && v.value != ""
  }

  /** A number setting is truthy when it is present and not zero. */
  predicate SuppliedNumber(v: Option<real>) {
    v.Some? && v.value != 0.0
  }

  function TextOr(v: Option<string>, default: string): string {
    if SuppliedText(v) then v.value else default
  }

  function NumberOr(v: Option<real>, default: real): real {
    if SuppliedNumber(v) then v.value else default
  }

  /** The settings the component works with: each truthy setting is kept,
      every missing or falsy one ("" or 0) gives way to its default, so no
      resolved setting is falsy. */
  function Resolve(props: Option<Settings>): (c: Config)
    ensures c.mainColor != "" && c.highlightColor != ""
    ensures c.glowRadius != 0.0 && c.lineThickness != 0.0
    ensures props.None? ==>
      c == Config(DefaultMainColor, DefaultHighlightColor, DefaultGlowRadius, DefaultLineThickness)
    ensures var s := SettingsOf(props);
      && (SuppliedText(s.mainColor) ==> c.mainColor == s.mainColor.value)
      && (!SuppliedText(s.mainColor) ==> c.mainColor == DefaultMainColor)
      && (SuppliedText(s.highlightColor) ==> c.highlightColor == s.highlightColor.value)
      && (!SuppliedText(s.highlightColor) ==> c.highlightColor == DefaultHighlightColor)
      && (SuppliedNumber(s.glowRadius) ==> c.glowRadius == s.glowRadius.value)
      && (!SuppliedNumber(s.glowRadius) ==> c.glowRadius == DefaultGlowRadius)
      && (SuppliedNumber(s.lineThickness) ==> c.lineThickness == s.lineThickness.value)
      && (!SuppliedNumber(s.lineThickness) ==> c.lineThickness == DefaultLineThickness)
  {
    var s := SettingsOf(props);
    Config(
      TextOr(s.mainColor, DefaultMainColor),
      TextOr(s.highlightColor, DefaultHighlightColor),
      NumberOr(s.glowRadius, DefaultGlowRadius),
      NumberOr(s.lineThickness, DefaultLineThickness))
  }

  /** Every setting given explicitly. */
  function Explicit(c: Config): Settings {
    Settings(Some(c.mainColor), Some(c.highlightColor), Some(c.glowRadius), Some(c.lineThickness))
  }

  /** Resolving is idempotent: passing the resolved settings back in as
      explicit settings changes nothing. */
  lemma ResolveIdempotent(props: Option<Settings>)
    ensures Resolve(Some(Explicit(Resolve(props)))) == Resolve(props)
  {
  }

  /** The pointer's position along the container as a fraction of its width:
      its offset from the left edge divided by the width, with no clamping.
      It lies in [0, 1] exactly when the pointer is over the container, and
      goes below 0 or above 1 outside it. */
  function PointerFraction(clientX: real, container: Rect): (p: real)
    requires container.width > 0.0
    ensures 0.0 <= p <==> container.left <= clientX
    ensures p <= 1.0 <==> clientX <= container.left + container.width
    ensures container.left + p * container.width == clientX
  {
    var p := (clientX - container.left) / container.width;
    assert (p - 1.0) * container.width == clientX - (container.left + container.width);
    PositiveScaleKeepsSign(p - 1.0, container.width);
    p
  }

  lemma PositiveScaleKeepsSign(a: real, w: real)
    requires w > 0.0
    ensures a * w <= 0.0 <==> a <= 0.0
  {
  }

  /** The larger of 0 and `v`: the least number that is at least both. */
  function Max0(v: real): (m: real)
    ensures 0.0 <= m && v <= m
    ensures m == 0.0 || m == v
  {
    if 0.0 < v then v else 0.0
  }

  /** The four boundaries (percent of the line's width) of the glow around
      the pointer fraction `p`: main colour up to leftStart, fading to the
      highlight at leftEnd, highlight up to rightStart, fading back to the
      main colour at rightEnd. */
  datatype Bands = Bands(leftStart: real, leftEnd: real, rightStart: real, rightEnd: real)

  /** The bands for pointer fraction `p` and glow radius `g`. Each boundary is
      cut off at 0 but none at 100, and for a non-negative glow radius they
      come in order. */
  function BandsAt(p: real, g: real): (b: Bands)
    ensures 0.0 <= b.leftStart && 0.0 <= b.leftEnd && 0.0 <= b.rightStart && 0.0 <= b.rightEnd
    ensures 0.0 <= g ==> b.leftStart <= b.leftEnd <= b.rightStart <= b.rightEnd
  {
    Bands(
      Max0(p - 0.01 * g) * 100.0,
      Max0(p - 0.002 * g) * 100.0,
      Max0(p + 0.002 * g) * 100.0,
      Max0(p + 0.01 * g) * 100.0)
  }

  /** Away from the left edge (p at least g/100) nothing is cut off: the glow
      reaches g percent either side of the pointer, the full highlight 0.2·g
      percent either side, and both are centred on the pointer. */
  lemma BandsCentredOnPointer(p: real, g: real)
    requires 0.0 <= g && 0.01 * g <= p
    ensures var b := BandsAt(p, g);
      && p * 100.0 - b.leftStart == g && b.rightEnd - p * 100.0 == g
      && p * 100.0 - b.leftEnd == 0.2 * g && b.rightStart - p * 100.0 == 0.2 * g
  {
  }

  /** Nothing caps the bands at 100: near or past the right edge the glow's
      right boundary lies beyond the end of the line. */
  lemma BandsNotCappedAt100(p: real, g: real)
    requires 0.0 < g && 1.0 - 0.01 * g < p
    ensures BandsAt(p, g).rightEnd > 100.0
  {
  }

  /** Pointer in the middle of the line, default glow radius: the bands are
      49%, 49.8%, 50.2% and 51%. */
  lemma BandsAtMiddle()
    ensures BandsAt(0.5, DefaultGlowRadius) == Bands(49.0, 49.8, 50.2, 51.0)
  {
  }

  /** One colour stop of a linear gradient, its position in percent. */
  datatype Stop = Stop(offset: real, color: string)

  /** The line element's background style. */
  datatype Background = Solid(color: string) | LinearGradient(stops: seq<Stop>)

  /** The gradient set on a move: six stops, in the order main at 0%, main
      at leftStart, highlight at leftEnd, highlight at rightStart, main at
      rightEnd, main at 100%. */
  function GlowStops(c: Config, b: Bands): (s: seq<Stop>)
    ensures |s| == 6
    ensures s[0].offset == 0.0 && s[5].offset == 100.0
    ensures s[1].offset == b.leftStart && s[2].offset == b.leftEnd
    ensures s[3].offset == b.rightStart && s[4].offset == b.rightEnd
    ensures forall i :: 0 <= i < 6 ==>
      s[i].color == if i == 2 || i == 3 then c.highlightColor else c.mainColor
  {
    [ Stop(0.0, c.mainColor),
      Stop(b.leftStart, c.mainColor),
      Stop(b.leftEnd, c.highlightColor),
      Stop(b.rightStart, c.highlightColor),
      Stop(b.rightEnd, c.mainColor),
      Stop(100.0, c.mainColor) ]
  }

  /** The background a move over `container` at `clientX` gives the line:
      a six-stop gradient from 0% to 100% in the main colour, highlighted
      between the inner bands around the pointer's fraction of the width. */
  function MoveBackground(c: Config, clientX: real, container: Rect): (bg: Background)
    requires container.width > 0.0
    ensures bg.LinearGradient? && |bg.stops| == 6
    ensures var b := BandsAt((clientX - container.left) / container.width, c.glowRadius);
      && bg.stops[0] == Stop(0.0, c.mainColor) && bg.stops[5] == Stop(100.0, c.mainColor)
      && bg.stops[1] == Stop(b.leftStart, c.mainColor) && bg.stops[4] == Stop(b.rightEnd, c.mainColor)
      && bg.stops[2] == Stop(b.leftEnd, c.highlightColor) && bg.stops[3] == Stop(b.rightStart, c.highlightColor)
  {
    LinearGradient(GlowStops(c, BandsAt(PointerFraction(clientX, container), c.glowRadius)))
  }

  /** While the whole glow fits on the line, the six stops are in
      non-decreasing order from 0% to 100%. */
  lemma GlowStopsOrdered(c: Config, p: real)
    requires 0.0 <= c.glowRadius && p + 0.01 * c.glowRadius <= 1.0
    ensures var s := GlowStops(c, BandsAt(p, c.glowRadius));
      forall i, j :: 0 <= i <= j < |s| ==> s[i].offset <= s[j].offset
  {
  }

  /** The line's mutable style. Constructing it models mounting, whose effect
      paints the line in the main colour. */
  class Line {
    const config: Config
    var background: Background

    constructor (props: Option<Settings>)
      ensures config == Resolve(props)
      ensures background == Solid(config.mainColor)
    {
      config := Resolve(props);
      background := Solid(Resolve(props).mainColor);
    }

    /** `handleMouseMove`: `container` is None when the container ref is
        empty, `lineMounted` false when the line ref is; either way the
        handler returns without touching the background. */
    method HandleMouseMove(clientX: real, container: Option<Rect>, lineMounted: bool)
      requires container.Some? && lineMounted ==> container.value.width > 0.0
      modifies this
      ensures container.Some? && lineMounted ==>
        background == MoveBackground(config, clientX, container.value)
      ensures !(container.Some? && lineMounted) ==> background == old(background)
    {
      if container.None? || !lineMounted {
        return;
      }
      var p := PointerFraction(clientX, container.value);
      background := LinearGradient(GlowStops(config, BandsAt(p, config.glowRadius)));
    }

    /** `handleMouseLeave`, through `setSolidRedBackground`: the main colour,
        whatever the background was before, unless the line ref is empty. */
    method HandleMouseLeave(lineMounted: bool)
      modifies this
      ensures lineMounted ==> background == Solid(config.mainColor)
      ensures !lineMounted ==> background == old(background)
    {
      if !lineMounted {
        return;
      }
      background := Solid(config.mainColor);
    }
  }

  /** A pointer that moves over a mounted line through any positions and then
      leaves it: the line ends with exactly the background it had when it was
      mounted, a solid fill in the resolved main colour. */
  method HoverThenLeave(props: Option<Settings>, container: Rect, pointerXs: seq<real>)
    returns (onMount: Background, afterLeave: Background)
    requires container.width > 0.0
    ensures afterLeave == onMount
    ensures onMount == Solid(Resolve(props).mainColor)
  {
    var line := new Line(props);
    onMount := line.background;
    for i := 0 to |pointerXs| {
      line.HandleMouseMove(pointerXs[i], Some(container), true);
    }
    line.HandleMouseLeave(true);
    afterLeave := line.background;
  }
}
