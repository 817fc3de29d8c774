/** A rounded rectangle whose four corners have independent radii, its inset
    variant, and the rectangle inset helper they use
    (Sources/KYSwiftUI/Shape/UnevenRoundedRectangle.swift).

    The three shape types are Swift structs, so they are values here. A
    `mutating` member or a property setter becomes a method on the datatype
    that receives the current value and returns the updated one, assigning
    the fields one at a time as the source does. */
module Shape {
  import opened Platform

  datatype Corner = TopLeading | BottomLeading | BottomTrailing | TopTrailing

  /** `RectangleCornerRadii.AnimatableData`: the four radii as nested pairs,
      ((topLeading, bottomLeading), (bottomTrailing, topTrailing)). */
  type RadiiData = AnimatablePair<AnimatablePair<real, real>, AnimatablePair<real, real>>

  /** `RectangleCornerRadii`; every radius defaults to 0. */
  datatype RectangleCornerRadii = RectangleCornerRadii(
    topLeading: real := 0.0,
    bottomLeading: real := 0.0,
    bottomTrailing: real := 0.0,
    topTrailing: real := 0.0)
  {
    function Radius(c: Corner): real
    {
      match c
      case TopLeading => topLeading
      case BottomLeading => bottomLeading
      case BottomTrailing => bottomTrailing
      case TopTrailing => topTrailing
    }

    predicate NonNegative()
    {
      forall c :: Radius(c) >= 0.0
    }

    /** The `animatableData` getter. */
    function AnimatableData(): RadiiData
    {
      AnimatablePair(AnimatablePair(topLeading, bottomLeading), AnimatablePair(bottomTrailing, topTrailing))
    }

    /** The `animatableData` setter: reading after a set gives back exactly
        what was set, and setting what was just read changes nothing. */
    method SetAnimatableData(newValue: RadiiData) returns (r: RectangleCornerRadii)
      ensures r.AnimatableData() == newValue
      ensures newValue == AnimatableData() ==> r == this
    {
      r := this;
      r := r.(topLeading := newValue.first.first);
      r := r.(bottomLeading := newValue.first.second);
      r := r.(bottomTrailing := newValue.second.first);
      r := r.(topTrailing := newValue.second.second);
    }

    /** The radii that `Inset(amount)` leaves behind. */
    function Shrunk(amount: real): RectangleCornerRadii
    {
      RectangleCornerRadii(
        Max(0.0, topLeading - amount), Max(0.0, bottomLeading - amount),
        Max(0.0, bottomTrailing - amount), Max(0.0, topTrailing - amount))
    }

    /** `inset(amount:)`: every radius shrinks by `amount` and is floored
        at zero; radii are not clamped against each other. */
    method Inset(amount: real) returns (r: RectangleCornerRadii)
      ensures r == Shrunk(amount)
      ensures forall c :: r.Radius(c) == Max(0.0, Radius(c) - amount)
      ensures r.NonNegative()
    {
      r := this;
      r := r.(topLeading := Max(0.0, r.topLeading - amount));
      r := r.(bottomLeading := Max(0.0, r.bottomLeading - amount));
      r := r.(bottomTrailing := Max(0.0, r.bottomTrailing - amount));
      r := r.(topTrailing := Max(0.0, r.topTrailing - amount));
      ShrunkRadii(this, amount);
    }
  }

  /** The packed order is topLeading, bottomLeading, bottomTrailing,
      topTrailing, and no two different radii records pack alike. */
  lemma AnimatableDataOrder(radii: RectangleCornerRadii, other: RectangleCornerRadii)
    ensures var d := radii.AnimatableData();
      [d.first.first, d.first.second, d.second.first, d.second.second]
      == [radii.Radius(TopLeading), radii.Radius(BottomLeading), radii.Radius(BottomTrailing), radii.Radius(TopTrailing)]
    ensures radii.AnimatableData() == other.AnimatableData() <==> radii == other
  {
  }

  /** Each shrunk radius is `max(0, radius - amount)`, hence never negative. */
  lemma ShrunkRadii(radii: RectangleCornerRadii, amount: real)
    ensures forall c :: radii.Shrunk(amount).Radius(c) == Max(0.0, radii.Radius(c) - amount)
    ensures radii.Shrunk(amount).NonNegative()
  {
  }

  /** Shrinking by 0 leaves non-negative radii alone, and shrinking by `a`
      then by a non-negative `b` is shrinking once by `a + b`. */
  lemma ShrunkTwice(radii: RectangleCornerRadii, a: real, b: real)
    requires b >= 0.0
    ensures radii.Shrunk(a).Shrunk(b) == radii.Shrunk(a + b)
    ensures radii.NonNegative() ==> radii.Shrunk(0.0) == radii
  {
    if radii.NonNegative() {
      assert radii.Radius(TopLeading) >= 0.0 && radii.Radius(BottomLeading) >= 0.0;
      assert radii.Radius(BottomTrailing) >= 0.0 && radii.Radius(TopTrailing) >= 0.0;
    }
  }

  /** `RoundedCornerStyle`: carried by the shape, never read when drawing. */
  datatype RoundedCornerStyle = Circular | Continuous

  /** `UnevenRoundedRectangle`; the style defaults to `.continuous`. */
  datatype UnevenRoundedRectangle = UnevenRoundedRectangle(
    cornerRadii: RectangleCornerRadii,
    style: RoundedCornerStyle := Continuous)
  {
    /** The convenience initialiser taking one radius per corner, each
        defaulting to 0. */
    static function WithRadii(
      topLeadingRadius: real := 0.0, bottomLeadingRadius: real := 0.0,
      bottomTrailingRadius: real := 0.0, topTrailingRadius: real := 0.0,
      style: RoundedCornerStyle := Continuous): (s: UnevenRoundedRectangle)
      ensures s.cornerRadii.Radius(TopLeading) == topLeadingRadius
      ensures s.cornerRadii.Radius(BottomLeading) == bottomLeadingRadius
      ensures s.cornerRadii.Radius(BottomTrailing) == bottomTrailingRadius
      ensures s.cornerRadii.Radius(TopTrailing) == topTrailingRadius
      ensures s.style == style
    {
      UnevenRoundedRectangle(
        RectangleCornerRadii(
          topLeading := topLeadingRadius, bottomLeading := bottomLeadingRadius,
          bottomTrailing := bottomTrailingRadius, topTrailing := topTrailingRadius),
        style)
    }

    /** `path(in:)`: moves to the top edge, then for each corner, clockwise
        from the top-trailing one, draws a line along a side and a quarter
        arc round the corner, and closes the subpath. The result is the
        reference outline of the rectangle and radii. */
    method Path(rect: Rect) returns (path: seq<PathCommand>)
      requires rect.Rect?
      ensures path == Outline(rect, cornerRadii)
    {
      path := [];
      var width := rect.Width();
      var height := rect.Height();
      var tl := cornerRadii.topLeading;
      var tr := cornerRadii.topTrailing;
      var bl := cornerRadii.bottomLeading;
      var br := cornerRadii.bottomTrailing;
      path := path + [Move(Point(rect.x + tl, rect.y))];
      path := path + [Line(Point(rect.x + width - tr, rect.y))];
      path := path + [Arc(Point(rect.x + width - tr, rect.y + tr), tr, 270, 360, false)];
      path := path + [Line(Point(rect.x + width, rect.y + height - br))];
      path := path + [Arc(Point(rect.x + width - br, rect.y + height - br), br, 0, 90, false)];
      path := path + [Line(Point(rect.x + bl, rect.y + height))];
      path := path + [Arc(Point(rect.x + bl, rect.y + height - bl), bl, 90, 180, false)];
      path := path + [Line(Point(rect.x, rect.y + tl))];
      path := path + [Arc(Point(rect.x + tl, rect.y + tl), tl, 180, 270, false)];
      path := path + [Close];
      OutlineUnfolded(rect, cornerRadii);
    }

    /** The shape's `animatableData` getter: that of its radii. */
    function AnimatableData(): RadiiData
    {
      cornerRadii.AnimatableData()
    }

    /** The shape's `animatableData` setter: it sets the radii' data and
        keeps the style. */
    method SetAnimatableData(newValue: RadiiData) returns (r: UnevenRoundedRectangle)
      ensures r.AnimatableData() == newValue && r.style == style
      ensures newValue == AnimatableData() ==> r == this
    {
      var radii := cornerRadii.SetAnimatableData(newValue);
      r := this.(cornerRadii := radii);
    }

    /** `inset(by:)`: wraps the shape with the inset amount. */
    function InsetBy(amount: real): (s: InsetShape)
      ensures s.base == this && s.amount == amount
    {
      InsetShape(this, amount)
    }
  }

  /** `UnevenRoundedRectangle._Inset`: a shape together with the total
      amount by which it has been inset. */
  datatype InsetShape = InsetShape(base: UnevenRoundedRectangle, amount: real)
  {
    /** `path(in:)`: shrinks a copy of the radii by `amount` and draws them,
        in the base's style, in `rect` inset by `amount` on all four sides.
        When that frame is the null rectangle the result is `None`. */
    method Path(rect: Rect) returns (path: Option<seq<PathCommand>>)
      ensures path == DrawInset(base.cornerRadii, amount, rect)
    {
      var cornerRadii := base.cornerRadii;
      cornerRadii := cornerRadii.Inset(amount);
      var shape := UnevenRoundedRectangle(cornerRadii, base.style);
      var frame := InsetRect(rect, EdgeInsets(top := amount, leading := amount, bottom := amount, trailing := amount));
      if frame.Null? {
        path := None;
      } else {
        var outline := shape.Path(frame);
        path := Some(outline);
      }
    }

    /** The `animatableData` getter: the base's data paired with `amount`. */
    function AnimatableData(): AnimatablePair<RadiiData, real>
    {
      AnimatablePair(base.AnimatableData(), amount)
    }

    /** The `animatableData` setter: round-trips in both directions and
        keeps the base's style. */
    method SetAnimatableData(newValue: AnimatablePair<RadiiData, real>) returns (r: InsetShape)
      ensures r.AnimatableData() == newValue && r.base.style == base.style
      ensures newValue == AnimatableData() ==> r == this
    {
      r := this;
      var b := r.base.SetAnimatableData(newValue.first);
      r := r.(base := b);
      r := r.(amount := newValue.second);
    }

    /** `inset(by:)`: a copy whose amount grows by `amount`, which is the
        base inset once by the total. */
    method InsetBy(amount: real) returns (copy: InsetShape)
      ensures copy == base.InsetBy(this.amount + amount)
    {
      copy := this;
      copy := copy.(amount := copy.amount + amount);
    }
  }

  /** What `InsetShape.Path` draws: the radii shrunk by `amount`, in `rect`
      inset by `amount` on every side, or nothing when that frame is null. */
  function DrawInset(radii: RectangleCornerRadii, amount: real, rect: Rect): Option<seq<PathCommand>>
  {
    var frame := InsetRect(rect, EdgeInsets(amount, amount, amount, amount));
    if frame.Null? then None else Some(Outline(frame, radii.Shrunk(amount)))
  }

  /** `CGRect.inset(by:)`: the null rectangle stays null; otherwise each side
      of the standardised rectangle moves inward by its inset, and the result
      is null when the width or height would become negative. */
  function InsetRect(rect: Rect, insets: EdgeInsets): (r: Rect)
    ensures rect.Null? ==> r.Null?
    ensures rect.Rect? ==>
      (r.Null? <==> rect.Width() < insets.leading + insets.trailing || rect.Height() < insets.top + insets.bottom)
    ensures r.Rect? ==> r.width >= 0.0 && r.height >= 0.0
    ensures r.Rect? ==> r.MinX() == rect.MinX() + insets.leading && r.MaxX() == rect.MaxX() - insets.trailing
    ensures r.Rect? ==> r.MinY() == rect.MinY() + insets.top && r.MaxY() == rect.MaxY() - insets.bottom
  {
    if rect.Null? then rect
    else
      var result := rect.Standardized();
      var width := result.width - insets.leading - insets.trailing;
      if width < 0.0 then Null
      else
        var height := result.height - insets.top - insets.bottom;
        if height < 0.0 then Null
        else Rect(result.x + insets.leading, result.y + insets.top, width, height)
  }

  /** Insetting by `a` on every side and then by a non-negative `b` is
      insetting once by `a + b`. */
  lemma InsetRectTwice(rect: Rect, a: real, b: real)
    requires b >= 0.0
    ensures InsetRect(InsetRect(rect, EdgeInsets(a, a, a, a)), EdgeInsets(b, b, b, b))
         == InsetRect(rect, EdgeInsets(a + b, a + b, a + b, a + b))
  {
  }

  // ---------------------------------------------------------------------
  // The reference outline

  /** The corners in the order the outline goes round them: clockwise on
      screen, from the top-trailing corner. */
  const DrawingOrder: seq<Corner> := [TopTrailing, BottomTrailing, BottomLeading, TopLeading]

  /** The corner point `path(in:)` uses: the stored origin, offset by
      CoreGraphics' width and height, which are magnitudes. */
  function CornerPoint(rect: Rect, c: Corner): Point
    requires rect.Rect?
  {
    match c
    case TopLeading => Point(rect.x, rect.y)
    case TopTrailing => Point(rect.x + rect.Width(), rect.y)
    case BottomTrailing => Point(rect.x + rect.Width(), rect.y + rect.Height())
    case BottomLeading => Point(rect.x, rect.y + rect.Height())
  }

  /** The diagonal step from a corner towards the inside of the rectangle. */
  function Inward(c: Corner): Point
  {
    match c
    case TopLeading => Point(1.0, 1.0)
    case TopTrailing => Point(-1.0, 1.0)
    case BottomTrailing => Point(-1.0, -1.0)
    case BottomLeading => Point(1.0, -1.0)
  }

  /** The bearing at which the quarter arc round a corner starts: the
      outward normal of the side that leads into the corner. */
  function StartDegrees(c: Corner): int
  {
    match c
    case TopTrailing => 270
    case BottomTrailing => 0
    case BottomLeading => 90
    case TopLeading => 180
  }

  /** The counter-clockwise-flagged quarter arc round corner `c`: centred
      one radius inward from the corner on both axes. */
  function CornerArc(rect: Rect, radii: RectangleCornerRadii, c: Corner): (arc: PathCommand)
    requires rect.Rect?
    ensures arc.QuarterArc()
  {
    var r := radii.Radius(c);
    Arc(Offset(CornerPoint(rect, c), r, Inward(c)), r, StartDegrees(c), StartDegrees(c) + 90, false)
  }

  /** For each corner in turn, a line to the start of its arc, then the arc. */
  function Sides(rect: Rect, radii: RectangleCornerRadii, corners: seq<Corner>): seq<PathCommand>
    requires rect.Rect?
  {
    if corners == [] then []
    else
      var arc := CornerArc(rect, radii, corners[0]);
      [Line(arc.Start()), arc] + Sides(rect, radii, corners[1..])
  }

  /** The outline: start where the last arc ends, go round the four corners,
      close. */
  function Outline(rect: Rect, radii: RectangleCornerRadii): seq<PathCommand>
    requires rect.Rect?
  {
    [Move(CornerArc(rect, radii, DrawingOrder[3]).End())] + Sides(rect, radii, DrawingOrder) + [Close]
  }

  lemma {:induction false} SidesAt(rect: Rect, radii: RectangleCornerRadii, corners: seq<Corner>, i: nat)
    requires rect.Rect? && i < |corners|
    ensures |Sides(rect, radii, corners)| == 2 * |corners|
    ensures Sides(rect, radii, corners)[2 * i] == Line(CornerArc(rect, radii, corners[i]).Start())
    ensures Sides(rect, radii, corners)[2 * i + 1] == CornerArc(rect, radii, corners[i])
  {
    if i > 0 {
      SidesAt(rect, radii, corners[1..], i - 1);
    } else if |corners| > 1 {
      SidesAt(rect, radii, corners[1..], 0);
    }
  }

  /** The outline has ten commands: a move, four line-and-arc pairs taking
      the corners in drawing order, and a close. */
  lemma OutlineAt(rect: Rect, radii: RectangleCornerRadii, i: nat)
    requires rect.Rect? && i < 4
    ensures var p := Outline(rect, radii);
      && |p| == 10
      && p[0] == Move(CornerArc(rect, radii, DrawingOrder[3]).End())
      && p[2 * i + 1] == Line(CornerArc(rect, radii, DrawingOrder[i]).Start())
      && p[2 * i + 2] == CornerArc(rect, radii, DrawingOrder[i])
      && p[9] == Close
  {
    SidesAt(rect, radii, DrawingOrder, i);
  }

  /** The outline written out command by command. */
  lemma OutlineUnfolded(rect: Rect, radii: RectangleCornerRadii)
    requires rect.Rect?
    ensures var x, y, w, h := rect.x, rect.y, rect.Width(), rect.Height();
      var tl, bl, br, tr := radii.topLeading, radii.bottomLeading, radii.bottomTrailing, radii.topTrailing;
      Outline(rect, radii) == [
        Move(Point(x + tl, y)),
        Line(Point(x + w - tr, y)),
        Arc(Point(x + w - tr, y + tr), tr, 270, 360, false),
        Line(Point(x + w, y + h - br)),
        Arc(Point(x + w - br, y + h - br), br, 0, 90, false),
        Line(Point(x + bl, y + h)),
        Arc(Point(x + bl, y + h - bl), bl, 90, 180, false),
        Line(Point(x, y + tl)),
        Arc(Point(x + tl, y + tl), tl, 180, 270, false),
        Close]
  {
    OutlineAt(rect, radii, 0);
    OutlineAt(rect, radii, 1);
    OutlineAt(rect, radii, 2);
    OutlineAt(rect, radii, 3);
    var p := Outline(rect, radii);
    var x, y, w, h := rect.x, rect.y, rect.Width(), rect.Height();
    var tl, bl, br, tr := radii.topLeading, radii.bottomLeading, radii.bottomTrailing, radii.topTrailing;
    CornerArcPoints(rect, radii, TopTrailing);
    CornerArcPoints(rect, radii, BottomTrailing);
    CornerArcPoints(rect, radii, BottomLeading);
    CornerArcPoints(rect, radii, TopLeading);
    assert p[0] == Move(Point(x + tl, y));
    assert p[1] == Line(Point(x + w - tr, y));
    assert p[2] == Arc(Point(x + w - tr, y + tr), tr, 270, 360, false);
    assert p[3] == Line(Point(x + w, y + h - br));
    assert p[4] == Arc(Point(x + w - br, y + h - br), br, 0, 90, false);
    assert p[5] == Line(Point(x + bl, y + h));
    assert p[6] == Arc(Point(x + bl, y + h - bl), bl, 90, 180, false);
    assert p[7] == Line(Point(x, y + tl));
    assert p[8] == Arc(Point(x + tl, y + tl), tl, 180, 270, false);
  }

  /** A move, four line-and-quarter-arc pairs, a close. */
  predicate WellShaped(p: seq<PathCommand>)
  {
    && |p| == 10
    && p[0].Move? && p[9].Close?
    && p[1].Line? && p[3].Line? && p[5].Line? && p[7].Line?
    && p[2].QuarterArc() && p[4].QuarterArc() && p[6].QuarterArc() && p[8].QuarterArc()
  }

  /** The command sequence's shape: a move to `(x + topLeading, y)`, then
      alternately a line and an arc four times, then a close; the arcs sweep
      270 to 360, 0 to 90, 90 to 180 and 180 to 270 degrees, none of them
      clockwise. */
  lemma OutlineShape(rect: Rect, radii: RectangleCornerRadii)
    requires rect.Rect?
    ensures var p := Outline(rect, radii);
      && WellShaped(p)
      && p[0] == Move(Point(rect.x + radii.topLeading, rect.y))
      && [p[2].startDegrees, p[4].startDegrees, p[6].startDegrees, p[8].startDegrees] == [270, 0, 90, 180]
      && [p[2].endDegrees, p[4].endDegrees, p[6].endDegrees, p[8].endDegrees] == [360, 90, 180, 270]
      && !p[2].clockwise && !p[4].clockwise && !p[6].clockwise && !p[8].clockwise
      && p[9] == Close
  {
    OutlineUnfolded(rect, radii);
  }

  /** The `i`-th arc goes round the `i`-th corner in drawing order: it is
      centred one corner radius inward from that corner on both axes, and
      its radius is that corner radius. */
  lemma OutlineArcs(rect: Rect, radii: RectangleCornerRadii, i: nat)
    requires rect.Rect? && i < 4
    ensures var p, c := Outline(rect, radii), DrawingOrder[i];
      && |p| == 10
      && p[2 * i + 2].Arc?
      && p[2 * i + 2].center == Offset(CornerPoint(rect, c), radii.Radius(c), Inward(c))
      && p[2 * i + 2].radius == radii.Radius(c)
  {
    OutlineAt(rect, radii, i);
  }

  /** The outline has no gaps: every line ends where the following arc
      starts (so SwiftUI adds no connecting segment), and the last arc ends
      at the point the path was moved to, which the close returns to. */
  lemma OutlineContinuous(rect: Rect, radii: RectangleCornerRadii)
    requires rect.Rect?
    ensures var p := Outline(rect, radii);
      && WellShaped(p)
      && p[1].to == p[2].Start() && p[3].to == p[4].Start()
      && p[5].to == p[6].Start() && p[7].to == p[8].Start()
      && p[8].End() == p[0].to
  {
    OutlineAt(rect, radii, 0);
    OutlineAt(rect, radii, 1);
    OutlineAt(rect, radii, 2);
    OutlineAt(rect, radii, 3);
  }

  /** Each straight segment lies on one side of the rectangle: it runs from
      where the previous arc (or the initial move) left off to its own end
      point, both on the top, trailing, bottom and leading side in turn. */
  lemma OutlineSidesStraight(rect: Rect, radii: RectangleCornerRadii)
    requires rect.Rect?
    ensures var p, x, y, w, h := Outline(rect, radii), rect.x, rect.y, rect.Width(), rect.Height();
      && WellShaped(p)
      && p[0].to.y == y && p[1].to.y == y
      && p[2].End().x == x + w && p[3].to.x == x + w
      && p[4].End().y == y + h && p[5].to.y == y + h
      && p[6].End().x == x && p[7].to.x == x
  {
    OutlineUnfolded(rect, radii);
  }

  /** The caller's side of the contract: on every side the two radii at its
      ends fit within its length. */
  predicate FitsIn(radii: RectangleCornerRadii, rect: Rect)
    requires rect.Rect?
  {
    && radii.topLeading + radii.topTrailing <= rect.Width()
    && radii.topTrailing + radii.bottomTrailing <= rect.Height()
    && radii.bottomLeading + radii.bottomTrailing <= rect.Width()
    && radii.topLeading + radii.bottomLeading <= rect.Height()
  }

  /** No radii are clamped against each other, so a straight segment runs
      the right way round (clockwise on screen) on a side exactly when the
      radii at that side's ends fit within it. */
  lemma OutlineSidesClockwise(rect: Rect, radii: RectangleCornerRadii)
    requires rect.Rect?
    ensures var p := Outline(rect, radii);
      && WellShaped(p)
      && (p[0].to.x <= p[1].to.x <==> radii.topLeading + radii.topTrailing <= rect.Width())
      && (p[2].End().y <= p[3].to.y <==> radii.topTrailing + radii.bottomTrailing <= rect.Height())
      && (p[5].to.x <= p[4].End().x <==> radii.bottomLeading + radii.bottomTrailing <= rect.Width())
      && (p[7].to.y <= p[6].End().y <==> radii.topLeading + radii.bottomLeading <= rect.Height())
  {
    OutlineUnfolded(rect, radii);
  }

  /** `q` lies in the axis-aligned box from `low` to `high`. */
  predicate InBox(q: Point, low: Point, high: Point)
  {
    low.x <= q.x <= high.x && low.y <= q.y <= high.y
  }

  /** Every point a command names lies in the box: a move or line target,
      or an arc's centre, start and end. */
  predicate CommandInBox(cmd: PathCommand, low: Point, high: Point)
  {
    && (cmd.Move? || cmd.Line? ==> InBox(cmd.to, low, high))
    && (cmd.Arc? ==>
          cmd.QuarterArc() && InBox(cmd.center, low, high) && InBox(cmd.Start(), low, high) && InBox(cmd.End(), low, high))
  }

  /** The frame `path(in:)` draws in: from the stored origin, by the
      magnitudes of the width and the height. */
  function FrameLow(rect: Rect): Point requires rect.Rect? { Point(rect.x, rect.y) }
  function FrameHigh(rect: Rect): Point requires rect.Rect? { Point(rect.x + rect.Width(), rect.y + rect.Height()) }

  /** The rectangle's region, from its minimum to its maximum x and y. */
  function RegionLow(rect: Rect): Point requires rect.Rect? { Point(rect.MinX(), rect.MinY()) }
  function RegionHigh(rect: Rect): Point requires rect.Rect? { Point(rect.MaxX(), rect.MaxY()) }

  /** When the radii are non-negative and fit, every point the outline
      names (move and line targets, arc centres, starts and ends) lies in
      the frame it is drawn in; when the rectangle's width and height are
      non-negative, that frame is the rectangle's region. */
  lemma OutlineInsideRect(rect: Rect, radii: RectangleCornerRadii)
    requires rect.Rect? && radii.NonNegative() && FitsIn(radii, rect)
    ensures var p := Outline(rect, radii);
      forall k :: 0 <= k < |p| ==> CommandInBox(p[k], FrameLow(rect), FrameHigh(rect))
    ensures rect.width >= 0.0 && rect.height >= 0.0 ==>
      var p := Outline(rect, radii);
      forall k :: 0 <= k < |p| ==> CommandInBox(p[k], RegionLow(rect), RegionHigh(rect))
  {
    var p := Outline(rect, radii);
    forall k | 0 <= k < |p|
      ensures CommandInBox(p[k], FrameLow(rect), FrameHigh(rect))
    {
      OutlineAt(rect, radii, 0);
      if k == 0 || k == 9 {
        CornerArcInside(rect, radii, TopLeading);
      } else {
        var i := (k - 1) / 2;
        OutlineAt(rect, radii, i);
        CornerArcInside(rect, radii, DrawingOrder[i]);
      }
    }
    if rect.width >= 0.0 && rect.height >= 0.0 {
      assert RegionLow(rect) == FrameLow(rect) && RegionHigh(rect) == FrameHigh(rect);
    }
  }

  lemma CornerArcInside(rect: Rect, radii: RectangleCornerRadii, c: Corner)
    requires rect.Rect? && radii.NonNegative() && FitsIn(radii, rect)
    ensures CommandInBox(CornerArc(rect, radii, c), FrameLow(rect), FrameHigh(rect))
  {
    assert radii.Radius(TopLeading) >= 0.0 && radii.Radius(BottomLeading) >= 0.0;
    assert radii.Radius(BottomTrailing) >= 0.0 && radii.Radius(TopTrailing) >= 0.0;
    CornerArcPoints(rect, radii, c);
  }

  /** `path(in:)` reads the origin as stored but the width and height as
      magnitudes. For a rectangle with a negative width it therefore draws
      to the right of the rectangle's region, and it draws something other
      than the same shape inset by 0, since `CGRect.inset(by:)` standardises
      the rectangle first. */
  lemma NegativeWidthDrawnBeside(rect: Rect, radii: RectangleCornerRadii)
    requires rect.Rect? && rect.width < 0.0
    ensures var p := Outline(rect, radii);
      && WellShaped(p)
      && p[2].End().x == rect.x + rect.Width() > rect.MaxX()
    ensures DrawInset(radii, 0.0, rect) != Some(Outline(rect, radii))
  {
    OutlineSidesStraight(rect, radii);
    var frame := InsetRect(rect, EdgeInsets(0.0, 0.0, 0.0, 0.0));
    OutlineSidesStraight(frame, radii.Shrunk(0.0));
    assert Outline(frame, radii.Shrunk(0.0))[2].End().x == rect.x;
  }

  /** The centre, start and end of each corner's arc in coordinates. */
  lemma CornerArcPoints(rect: Rect, radii: RectangleCornerRadii, c: Corner)
    requires rect.Rect?
    ensures var arc, x, y, w, h, r := CornerArc(rect, radii, c), rect.x, rect.y, rect.Width(), rect.Height(), radii.Radius(c);
      match c
      case TopTrailing =>
        arc.center == Point(x + w - r, y + r) && arc.Start() == Point(x + w - r, y) && arc.End() == Point(x + w, y + r)
      case BottomTrailing =>
        arc.center == Point(x + w - r, y + h - r) && arc.Start() == Point(x + w, y + h - r) && arc.End() == Point(x + w - r, y + h)
      case BottomLeading =>
        arc.center == Point(x + r, y + h - r) && arc.Start() == Point(x + r, y + h) && arc.End() == Point(x, y + h - r)
      case TopLeading =>
        arc.center == Point(x + r, y + r) && arc.Start() == Point(x, y + r) && arc.End() == Point(x + r, y)
  {
  }

  /** With every radius 0 the outline is the plain rectangle: every move and
      line target and every arc centre is one of its four corners, and every
      arc has radius 0, so it starts and ends at its centre. */
  lemma SharpCorners(rect: Rect, radii: RectangleCornerRadii)
    requires rect.Rect? && forall c :: radii.Radius(c) == 0.0
    ensures var p, x, y, w, h := Outline(rect, radii), rect.x, rect.y, rect.Width(), rect.Height();
      var corners := {Point(x, y), Point(x + w, y), Point(x + w, y + h), Point(x, y + h)};
      forall k :: 0 <= k < |p| ==>
        && (p[k].Move? || p[k].Line? ==> p[k].to in corners)
        && (p[k].Arc? ==>
              p[k].QuarterArc() && p[k].center in corners && p[k].radius == 0.0
              && p[k].Start() == p[k].center && p[k].End() == p[k].center)
  {
    assert radii.Radius(TopLeading) == 0.0 && radii.Radius(BottomLeading) == 0.0;
    assert radii.Radius(BottomTrailing) == 0.0 && radii.Radius(TopTrailing) == 0.0;
    OutlineUnfolded(rect, radii);
  }

  /** The default shape, built with no arguments, is the plain rectangle. */
  lemma DefaultShapeIsSharp(c: Corner)
    ensures UnevenRoundedRectangle.WithRadii().cornerRadii.Radius(c) == 0.0
    ensures UnevenRoundedRectangle.WithRadii().style == Continuous
  {
  }

  /** An inset shape draws nothing exactly when its frame is null or the
      inset takes more than the whole width or height; otherwise it draws
      non-negative radii in a frame whose every side has moved inward by
      the amount. */
  lemma DrawInsetFrame(radii: RectangleCornerRadii, amount: real, rect: Rect)
    ensures DrawInset(radii, amount, rect).None? <==>
      rect.Null? || rect.Width() < 2.0 * amount || rect.Height() < 2.0 * amount
    ensures DrawInset(radii, amount, rect).Some? ==>
      var frame := InsetRect(rect, EdgeInsets(amount, amount, amount, amount));
      && frame.Rect?
      && frame.MinX() == rect.MinX() + amount && frame.MaxX() == rect.MaxX() - amount
      && frame.MinY() == rect.MinY() + amount && frame.MaxY() == rect.MaxY() - amount
      && DrawInset(radii, amount, rect) == Some(Outline(frame, radii.Shrunk(amount)))
      && radii.Shrunk(amount).NonNegative()
  {
  }

  /** Accumulating inset amounts is sound: drawing a shape inset by `a + b`
      is drawing, in the frame inset by `a`, the radii shrunk by `a` inset
      again by a non-negative `b`. */
  lemma DrawInsetAccumulates(radii: RectangleCornerRadii, a: real, b: real, rect: Rect)
    requires b >= 0.0
    ensures DrawInset(radii, a + b, rect) == DrawInset(radii.Shrunk(a), b, InsetRect(rect, EdgeInsets(a, a, a, a)))
  {
    InsetRectTwice(rect, a, b);
    ShrunkTwice(radii, a, b);
  }
}
