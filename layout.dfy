/** Geometry shared by the components: bounding rectangles (as
    `getBoundingClientRect` reports them, or as an absolutely positioned
    element's style places it) and the props every circle receives. */
module Layout {

  /** A box in pixels: its left and top edges, its width and height. */
  datatype Rect = Rect(left: real, top: real, width: real, height: real)

  /** The smaller of two numbers. */
  function Min(a: real, b: real): (m: real)
    ensures m <= a && m <= b
    ensures m == a || m == b
  {
    if a <= b then a else b
  }

  /** The box both circle components give their element: a square of the
      given side, its top-left corner half a side up and left of the point
      (x, y), so that (x, y) is its centre. */
  function CentredSquare(side: real, x: real, y: real): (b: Rect)
    ensures b.width == side && b.height == side
    ensures b.left + b.width / 2.0 == x && b.top + b.height / 2.0 == y
  {
    Rect(x - side / 2.0, y - side / 2.0, side, side)
  }

  /** The props of ColorCircle and GrainyColorCircle. `radius` is in pixels
      and, despite its name, is used as the side of the circle's box. */
  datatype CircleProps = CircleProps(radius: real, x: real, y: real, index: nat, color: string)
}
