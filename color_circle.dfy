/** The ColorCircle component: a flat-coloured circle drawn as an absolutely
    positioned square `div` with `border-radius: 50%`. */
module ColorCircle {
  import opened Layout

  /** The element's inline style. Lengths are in pixels. */
  datatype Style = Style(
    position: string,
    top: real,
    left: real,
    width: real,
    height: real,
    borderRadius: string,
    backgroundColor: string,
    overflow: string)

  /** The `div` the component renders. */
  datatype Div = Div(key: nat, className: string, style: Style)

  /** The diameter of the circle a square box of the given side draws with
      `border-radius: 50%`: the circle fills the box, so it is the side. */
  function DrawnDiameter(s: Style): real
    requires s.borderRadius == "50%" && s.width == s.height
  {
    s.width
  }

  /** The element for the given props: a square box of side `radius` centred
      on (x, y), rounded into a circle of colour `color`, fading in, keyed by
      `index`. The circle drawn has diameter `radius` (the prop's name
      notwithstanding). */
  function Render(p: CircleProps): (d: Div)
    ensures d.key == p.index && d.className == "fade-in"
    ensures d.style.position == "absolute" && d.style.overflow == "hidden"
    ensures d.style.width == p.radius && d.style.height == p.radius
    ensures d.style.left + d.style.width / 2.0 == p.x && d.style.top + d.style.height / 2.0 == p.y
    ensures d.style.borderRadius == "50%" && DrawnDiameter(d.style) == p.radius
    ensures d.style.backgroundColor == p.color
  {
    var box := CentredSquare(p.radius, p.x, p.y);
    Div(p.index, "fade-in",
      Style("absolute", box.top, box.left, box.width, box.height, "50%", p.color, "hidden"))
  }

  /** The element depends on the position only through its box: moving the
      centre by (dx, dy) moves the box by (dx, dy) and leaves the rest as it
      was. */
  lemma RenderTranslates(p: CircleProps, dx: real, dy: real)
    ensures var d := Render(p);
      var e := Render(p.(x := p.x + dx, y := p.y + dy));
      e.style == d.style.(left := d.style.left + dx, top := d.style.top + dy) && e.key == d.key
  {
  }
}
