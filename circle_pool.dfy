/** The CirclePool component: every click on the pool adds a circle of a
    randomly chosen size and colour, centred on the click, to an append-only
    list. `Math.random()` is not called here: each click carries the two
    numbers in [0, 1) it would have returned, first for the radius, then for
    the colour. */
module CirclePool {
  import opened Options
  import opened Layout
  import Text
  import ColorCircle
  import GrainyColorCircle

  /** The random integer the pool draws for a range from min to max, given
      the random draw `r` in [0, 1): the draw scaled to the range's size,
      rounded down and shifted by min. For min <= max it is an integer in
      [min, max]; for the empty range (max = min - 1) it is min. */
  function RandomIndex(min: int, max: int, r: real): (k: int)
    requires 0.0 <= r < 1.0
    ensures min <= max ==> min <= k <= max
    ensures max - min + 1 == 0 ==> k == min
  {
    var n := max - min + 1;
    if n > 0 then
      ScaledDrawBelow(r, n);
      (r * n as real).Floor + min
    else
      (r * n as real).Floor + min
  }

  lemma ScaledDrawBelow(r: real, n: int)
    requires 0.0 <= r < 1.0 && n > 0
    ensures 0.0 <= r * n as real < n as real
  {
  }

  /** Each index of [0, n) is drawn by exactly the draws in an interval of
      width 1/n: index k comes out exactly when k/n <= r < (k+1)/n. This is
      what makes the choice uniform over positions, so that a value listed
      twice is twice as likely. */
  lemma RandomIndexInterval(n: nat, k: nat, r: real)
    requires 0.0 <= r < 1.0 && k < n
    ensures RandomIndex(0, n - 1, r) == k <==>
      (k as real) / (n as real) <= r < ((k + 1) as real) / (n as real)
  {
    var x := r * n as real;
    assert RandomIndex(0, n - 1, r) == x.Floor;
    FloorIsUnique(x, k);
    QuotientAtMost(k as real, n as real, r);
    QuotientAtMost((k + 1) as real, n as real, r);
  }

  lemma FloorIsUnique(x: real, k: int)
    ensures x.Floor == k <==> k as real <= x < (k + 1) as real
  {
  }

  lemma QuotientAtMost(a: real, n: real, r: real)
    requires n > 0.0
    ensures a / n <= r <==> a <= r * n
  {
    if a / n <= r {
      assert (r - a / n) * n >= 0.0;
    } else {
      assert (a / n - r) * n > 0.0;
    }
  }

  lemma ScaleIsMonotone(a: real, b: real, n: real)
    requires n >= 0.0
    ensures a >= b ==> a * n >= b * n
    ensures n > 0.0 ==> (a * n >= b * n <==> a >= b)
  {
  }

  /** The list's element at a random position from 0 to its last: an
      element of the list, or undefined (None) exactly when the list is
      empty. */
  function Choose<T>(list: seq<T>, r: real): (o: Option<T>)
    requires 0.0 <= r < 1.0
    ensures o.Some? <==> list != []
    ensures o.Some? ==> o.value in list
    ensures |list| == 1 ==> o == Some(list[0])
  {
    var i := RandomIndex(0, |list| - 1, r);
    if 0 <= i < |list| then Some(list[i]) else None
  }

  /** Every position of a non-empty list can be chosen: the draw k/n picks
      position k. */
  lemma ChooseReachesEveryPosition<T>(list: seq<T>, k: nat)
    requires k < |list|
    ensures var r := (k as real) / (|list| as real);
      0.0 <= r < 1.0 && Choose(list, r) == Some(list[k])
  {
    var n := |list|;
    var r := (k as real) / (n as real);
    assert r * (n as real) == k as real;
    ScaleIsMonotone(1.0, r, n as real);
    RandomIndexInterval(n, k, r);
  }

  /** Where a click lands in the pool's local coordinates, and the smaller
      side of the pool, which scales the radius fractions. */
  datatype Placement = Placement(x: real, y: real, scale: real)

  /** The click relative to the pool's top-left corner (no clamping: a point
      outside the pool keeps its offset) and the smaller of the pool's width
      and height. */
  function MapClick(clientX: real, clientY: real, pool: Rect): (p: Placement)
    ensures pool.left + p.x == clientX && pool.top + p.y == clientY
    ensures p.scale <= pool.width && p.scale <= pool.height
    ensures p.scale == pool.width || p.scale == pool.height
  {
    Placement(clientX - pool.left, clientY - pool.top, Min(pool.width, pool.height))
  }

  /** The two kinds of circle the pool can hold. */
  datatype Variant = Solid | Grainy

  /** The circle type "grainy" picks the grainy circle; any other value, a
      missing one included, the solid one. */
  function VariantOf(circleType: Option<string>): (v: Variant)
    ensures v == Grainy <==> circleType == Some("grainy")
  {
    if circleType == Some("grainy") then Grainy else Solid
  }

  /** The start of a key, naming the variant. */
  function KeyPrefix(v: Variant): string {
    match v
    case Grainy => "grainy_"
    case Solid => "color_"
  }

  /** The React key of a circle: the variant's prefix followed by the index
      in decimal. Both can be read back from the key. */
  function KeyOf(v: Variant, index: nat): (key: string)
    ensures |KeyPrefix(v)| < |key| && key[..|KeyPrefix(v)|] == KeyPrefix(v)
    ensures Text.AllDigits(key[|KeyPrefix(v)|..]) && Text.ParseDecimal(key[|KeyPrefix(v)|..]) == index
  {
    var key := KeyPrefix(v) + Text.Decimal(index);
    assert key[|KeyPrefix(v)|..] == Text.Decimal(index);
    Text.ParseDecimalOfDecimal(index);
    key
  }

  /** Keys name their circle: two keys agree only for the same variant and
      the same index. */
  lemma {:induction false} KeyInjective(v: Variant, i: nat, w: Variant, j: nat)
    ensures KeyOf(v, i) == KeyOf(w, j) <==> v == w && i == j
  {
    if v == w {
      Text.NumberedNameInjective(KeyPrefix(v), i, j);
    } else {
      assert KeyOf(v, i)[0] != KeyOf(w, j)[0];
    }
  }

  /** One placed circle: the props passed to ColorCircle or
      GrainyColorCircle, which of the two, and its key. */
  datatype Circle = Circle(variant: Variant, props: CircleProps, key: string)

  /** What the pool renders for a circle: a ColorCircle `div` or a
      GrainyColorCircle `svg`. */
  datatype Element = Plain(div: ColorCircle.Div) | Textured(svg: GrainyColorCircle.Svg)

  /** The element for a placed circle: the component its variant names,
      given its props, so its box is a square of side `radius` centred on
      the circle's position and keyed by its index. */
  function Draw(c: Circle): (e: Element)
    ensures e.Textured? <==> c.variant == Grainy
    ensures e.Plain? ==> e.div == ColorCircle.Render(c.props)
    ensures e.Textured? ==> e.svg == GrainyColorCircle.Render(c.props)
  {
    match c.variant
    case Grainy => Textured(GrainyColorCircle.Render(c.props))
    case Solid => Plain(ColorCircle.Render(c.props))
  }

  /** The element drawn for a click is centred on the click, in the pool's
      coordinates, whichever variant the pool uses. */
  lemma DrawnCentredOnClick(cfg: Config, index: nat, click: Click)
    requires Usable(cfg) && ValidDraws(click)
    ensures var c := NewCircle(cfg, index, click);
      var local := MapClick(click.clientX, click.clientY, click.pool);
      match Draw(c)
      case Plain(d) =>
        d.style.left + d.style.width / 2.0 == local.x && d.style.top + d.style.height / 2.0 == local.y
      case Textured(s) =>
        s.style.left + s.style.width / 2.0 == local.x && s.style.top + s.style.height / 2.0 == local.y
  {
  }

  /** The props of a CirclePool. */
  datatype Config = Config(circleType: Option<string>, possibleRadii: seq<real>, possibleColors: seq<string>)

  /** Both lists have something to choose from. The draws pick an element
      of each list; from an empty one they read `undefined`, and the circle
      would get a NaN radius or no colour. */
  predicate Usable(cfg: Config) {
    cfg.possibleRadii != [] && cfg.possibleColors != []
  }

  /** A click: where it happened, the pool's bounding rectangle at that
      moment, and the two random draws (radius first, colour second). */
  datatype Click = Click(clientX: real, clientY: real, pool: Rect, radiusDraw: real, colorDraw: real)

  predicate ValidDraws(click: Click) {
    0.0 <= click.radiusDraw < 1.0 && 0.0 <= click.colorDraw < 1.0
  }

  /** `radius` is one of the `fractions` times `scale`. */
  predicate ScaledFrom(radius: real, fractions: seq<real>, scale: real) {
    exists f :: f in fractions && radius == f * scale
  }

  /** The circle that click number `index` creates. */
  function NewCircle(cfg: Config, index: nat, click: Click): Circle
    requires Usable(cfg) && ValidDraws(click)
  {
    var at := MapClick(click.clientX, click.clientY, click.pool);
    var radius := Choose(cfg.possibleRadii, click.radiusDraw).value * at.scale;
    var color := Choose(cfg.possibleColors, click.colorDraw).value;
    var v := VariantOf(cfg.circleType);
    Circle(v, CircleProps(radius, at.x, at.y, index, color), KeyOf(v, index))
  }

  /** The circle click number `index` creates is centred on the click in
      pool coordinates, has a radius that is one of the configured fractions
      times the pool's smaller side and one of the configured colours, the
      given index, the variant `circleType` selects and the matching key. */
  lemma NewCircleSpec(cfg: Config, index: nat, click: Click)
    requires Usable(cfg) && ValidDraws(click)
    ensures var c := NewCircle(cfg, index, click);
      var at := MapClick(click.clientX, click.clientY, click.pool);
      && c.props.x == at.x && c.props.y == at.y
      && ScaledFrom(c.props.radius, cfg.possibleRadii, at.scale)
      && c.props.color in cfg.possibleColors
      && c.props.index == index
      && c.variant == VariantOf(cfg.circleType)
      && c.key == KeyOf(c.variant, index)
  {
  }

  /** With every radius fraction in [0, 1], as documented, and a pool of
      non-negative size, a circle's radius lies between 0 and the pool's
      smaller side. */
  lemma NewCircleRadiusBounded(cfg: Config, index: nat, click: Click)
    requires Usable(cfg) && ValidDraws(click)
    requires forall f :: f in cfg.possibleRadii ==> 0.0 <= f <= 1.0
    requires 0.0 <= click.pool.width && 0.0 <= click.pool.height
    ensures var scale := Min(click.pool.width, click.pool.height);
      0.0 <= NewCircle(cfg, index, click).props.radius <= scale
  {
    var c := NewCircle(cfg, index, click);
    var scale := MapClick(click.clientX, click.clientY, click.pool).scale;
    NewCircleSpec(cfg, index, click);
    var f :| f in cfg.possibleRadii && c.props.radius == f * scale;
    ScaleIsMonotone(f, 0.0, scale);
    ScaleIsMonotone(1.0, f, scale);
  }

  /** The list a click leaves: a new list holding the old one unchanged,
      followed by the new circle, whose index is the old length. */
  function Append(cfg: Config, circles: seq<Circle>, click: Click): (r: seq<Circle>)
    requires Usable(cfg) && ValidDraws(click)
    ensures |r| == |circles| + 1
    ensures r[..|circles|] == circles
    ensures r[|circles|] == NewCircle(cfg, |circles|, click)
    ensures r[|circles|].props.index == |circles|
  {
    circles + [NewCircle(cfg, |circles|, click)]
  }

  /** Circles numbered by position, each with the key of its own variant and
      index: what the pool holds at every moment. The variants may differ
      from circle to circle, since each click reads the props of the latest
      render. */
  ghost predicate Numbered(circles: seq<Circle>) {
    forall i :: 0 <= i < |circles| ==>
      && circles[i].props.index == i
      && circles[i].key == KeyOf(circles[i].variant, i)
  }

  /** Appending keeps the numbering, whatever props the click reads. */
  lemma AppendKeepsNumbered(cfg: Config, circles: seq<Circle>, click: Click)
    requires Usable(cfg) && ValidDraws(click) && Numbered(circles)
    ensures Numbered(Append(cfg, circles, click))
  {
  }

  /** In a numbered list no two circles share a React key, even when their
      variants differ. */
  lemma NumberedKeysUnique(circles: seq<Circle>)
    requires Numbered(circles)
    ensures forall i, j :: 0 <= i < j < |circles| ==> circles[i].key != circles[j].key
  {
    forall i, j | 0 <= i < j < |circles|
      ensures circles[i].key != circles[j].key
    {
      KeyInjective(circles[i].variant, i, circles[j].variant, j);
    }
  }

  predicate AllValidDraws(clicks: seq<Click>) {
    forall i :: 0 <= i < |clicks| ==> ValidDraws(clicks[i])
  }

  /** The pool's list after a mount and the first `n` of the given clicks,
      in order. */
  function Replay(cfg: Config, clicks: seq<Click>, n: nat): (circles: seq<Circle>)
    requires Usable(cfg) && AllValidDraws(clicks) && n <= |clicks|
    ensures |circles| == n
  {
    if n == 0 then [] else Append(cfg, Replay(cfg, clicks, n - 1), clicks[n - 1])
  }

  /** The i-th circle after a run of clicks is the one click i created. */
  lemma {:induction false} ReplayAt(cfg: Config, clicks: seq<Click>, n: nat, i: nat)
    requires Usable(cfg) && AllValidDraws(clicks) && i < n <= |clicks|
    ensures Replay(cfg, clicks, n)[i] == NewCircle(cfg, i, clicks[i])
  {
    if i < n - 1 {
      ReplayAt(cfg, clicks, n - 1, i);
      var before := Replay(cfg, clicks, n - 1);
      assert Replay(cfg, clicks, n)[..n - 1] == before;
      assert Replay(cfg, clicks, n)[i] == Replay(cfg, clicks, n)[..n - 1][i];
    }
  }

  /** After n clicks the pool holds n circles, the i-th made by click i, so
      with index i: the indices are 0, 1, ..., n-1 in insertion order. */
  lemma ReplayMadeByClicks(cfg: Config, clicks: seq<Click>)
    requires Usable(cfg) && AllValidDraws(clicks)
    ensures var circles := Replay(cfg, clicks, |clicks|);
      |circles| == |clicks| &&
      forall i :: 0 <= i < |clicks| ==>
        circles[i] == NewCircle(cfg, i, clicks[i]) && circles[i].props.index == i
  {
    forall i | 0 <= i < |clicks|
      ensures Replay(cfg, clicks, |clicks|)[i] == NewCircle(cfg, i, clicks[i])
    {
      ReplayAt(cfg, clicks, |clicks|, i);
    }
  }

  /** Later clicks never change earlier circles: the list after the first k
      clicks is a prefix of the list after any later click. */
  lemma ReplayExtends(cfg: Config, clicks: seq<Click>, k: nat, n: nat)
    requires Usable(cfg) && AllValidDraws(clicks) && k <= n <= |clicks|
    ensures Replay(cfg, clicks, k) == Replay(cfg, clicks, n)[..k]
  {
    var early, late := Replay(cfg, clicks, k), Replay(cfg, clicks, n);
    forall i | 0 <= i < k
      ensures early[i] == late[i]
    {
      ReplayAt(cfg, clicks, k, i);
      ReplayAt(cfg, clicks, n, i);
    }
  }

  /** A click on the pool at (150, 80) whose rectangle starts at (100, 50)
      and measures 300 by 200 lands at (50, 30) and scales radii by 200. */
  lemma MapClickExample()
    ensures MapClick(150.0, 80.0, Rect(100.0, 50.0, 300.0, 200.0)) == Placement(50.0, 30.0, 200.0)
  {
  }

  /** Radii [0.2, 0.2, 0.8] and the single colour "blue", three clicks on a
      400 by 200 pool: three circles numbered 0, 1, 2, all blue, each of
      radius 40 or 160, whatever the draws. */
  lemma ThreeClicksScenario(circleType: Option<string>, clicks: seq<Click>)
    requires |clicks| == 3 && AllValidDraws(clicks)
    requires forall i :: 0 <= i < 3 ==> clicks[i].pool.width == 400.0 && clicks[i].pool.height == 200.0
    ensures var circles := Replay(Config(circleType, [0.2, 0.2, 0.8], ["blue"]), clicks, 3);
      |circles| == 3 &&
      forall i :: 0 <= i < 3 ==>
        circles[i].props.index == i && circles[i].props.color == "blue" &&
        (circles[i].props.radius == 40.0 || circles[i].props.radius == 160.0)
  {
    var cfg := Config(circleType, [0.2, 0.2, 0.8], ["blue"]);
    ReplayMadeByClicks(cfg, clicks);
    forall i | 0 <= i < 3
      ensures var c := NewCircle(cfg, i, clicks[i]);
        c.props.color == "blue" && (c.props.radius == 40.0 || c.props.radius == 160.0)
    {
      BlueCircleOnWidePool(circleType, i, clicks[i]);
    }
  }

  lemma BlueCircleOnWidePool(circleType: Option<string>, index: nat, click: Click)
    requires ValidDraws(click) && click.pool.width == 400.0 && click.pool.height == 200.0
    ensures var c := NewCircle(Config(circleType, [0.2, 0.2, 0.8], ["blue"]), index, click);
      c.props.color == "blue" && (c.props.radius == 40.0 || c.props.radius == 160.0)
  {
    var cfg := Config(circleType, [0.2, 0.2, 0.8], ["blue"]);
    NewCircleSpec(cfg, index, click);
    var c := NewCircle(cfg, index, click);
    var f :| f in cfg.possibleRadii && c.props.radius == f * 200.0;
    assert f == 0.2 || f == 0.8;
  }

  /** The pool's state: the `circles` list that each click replaces with a
      longer copy. Constructing it models mounting, when the list is empty.
      The props are not stored: the click handler is re-created on every
      render, so each click reads the props of the latest render, passed to
      `AddCircle`. */
  class Pool {
    var circles: seq<Circle>

    ghost predicate Valid()
      reads this
    {
      Numbered(circles)
    }

    constructor ()
      ensures circles == [] && Valid()
    {
      circles := [];
    }

    /** A click under the props `cfg`: the list becomes the old list followed
        by the circle this click creates; nothing else changes. */
    method AddCircle(cfg: Config, click: Click)
      requires Valid() && Usable(cfg) && ValidDraws(click)
      modifies this
      ensures circles == Append(cfg, old(circles), click)
      ensures Valid()
    {
      var circle := NewCircle(cfg, |circles|, click);
      AppendKeepsNumbered(cfg, circles, click);
      circles := circles + [circle];
    }
  }

  /** Clicking a freshly mounted pool n times, with the props unchanged
      between clicks, leaves the list the replay of those clicks describes, so its circles are numbered 0 to n-1 and carry
      distinct keys. */
  method ClickMany(cfg: Config, clicks: seq<Click>) returns (circles: seq<Circle>)
    requires Usable(cfg) && AllValidDraws(clicks)
    ensures circles == Replay(cfg, clicks, |clicks|)
    ensures |circles| == |clicks|
    ensures forall i :: 0 <= i < |circles| ==> circles[i].props.index == i
    ensures forall i, j :: 0 <= i < j < |circles| ==> circles[i].key != circles[j].key
  {
    var pool := new Pool();
    for k := 0 to |clicks|
      invariant pool.Valid()
      invariant pool.circles == Replay(cfg, clicks, k)
    {
      pool.AddCircle(cfg, clicks[k]);
    }
    circles := pool.circles;
    ReplayMadeByClicks(cfg, clicks);
    NumberedKeysUnique(circles);
  }
}
