/** The value types of the Swift standard library, CoreGraphics and SwiftUI
    that the shape and the padding modifier compute with. `CGFloat` is
    modelled as `real`: the library only adds, subtracts, negates and takes
    maxima, so exact arithmetic loses nothing it relies on. */
module Platform {

  /** Swift's `Optional`. */
  datatype Option<T> = None | Some(value: T) {

    /** `Optional.map`: applies `f` to a present value, keeps an absent one absent. */
    function Map<U>(f: T -> U): (r: Option<U>)
      ensures r.Some? <==> Some?
      ensures Some? ==> r.value == f(value)
    {
      match this
      case None => None
      case Some(v) => Some(f(v))
    }
  }

  /** Swift's `max(_:_:)` on lengths. */
  function Max(a: real, b: real): (m: real)
    ensures m >= a && m >= b
    ensures m == a || m == b
  {
    if a < b then b else a
  }

  function Min(a: real, b: real): (m: real)
    ensures m <= a && m <= b
    ensures m == a || m == b
  {
    if a < b then a else b
  }

  function Abs(a: real): (m: real)
    ensures m >= 0.0
    ensures m == a || m == -a
  {
    if a < 0.0 then -a else a
  }

  /** SwiftUI's `AnimatablePair`: two animatable components side by side. */
  datatype AnimatablePair<A, B> = AnimatablePair(first: A, second: B)

  /** `CGPoint`, in a coordinate system whose y axis grows downwards. */
  datatype Point = Point(x: real, y: real)

  /** The point `k` steps of `d` away from `p`. */
  function Offset(p: Point, k: real, d: Point): Point
  {
    Point(p.x + k * d.x, p.y + k * d.y)
  }

  /** The unit vector at a bearing that is a whole number of quarter turns,
      measured from the positive x axis towards the positive (downward) y
      axis: 0 is right, 90 is down, 180 is left and 270 is up. */
  function Unit(degrees: int): Point
    requires degrees % 90 == 0
  {
    var quarter := (degrees % 360) / 90;
    if quarter == 0 then Point(1.0, 0.0)
    else if quarter == 1 then Point(0.0, 1.0)
    else if quarter == 2 then Point(-1.0, 0.0)
    else Point(0.0, -1.0)
  }

  /** `CGRect`: an origin and a size, either of whose components may be
      negative, or the null rectangle. */
  datatype Rect = Null | Rect(x: real, y: real, width: real, height: real) {

    /** `CGRect.width`: CoreGraphics reports the magnitude of the stored width. */
    function Width(): real
      requires Rect?
    {
      Abs(width)
    }

    /** `CGRect.height`, likewise a magnitude. */
    function Height(): real
      requires Rect?
    {
      Abs(height)
    }

    function MinX(): real requires Rect? { Min(x, x + width) }
    function MaxX(): real requires Rect? { Max(x, x + width) }
    function MinY(): real requires Rect? { Min(y, y + height) }
    function MaxY(): real requires Rect? { Max(y, y + height) }

    /** `CGRect.standardized`: the same region described with a
        non-negative width and height. */
    function Standardized(): (r: Rect)
      ensures r.Null? <==> Null?
      ensures Rect? ==> r.width >= 0.0 && r.height >= 0.0
      ensures Rect? ==> r.MinX() == MinX() && r.MaxX() == MaxX()
      ensures Rect? ==> r.MinY() == MinY() && r.MaxY() == MaxY()
      ensures Rect? ==> r.x == r.MinX() && r.y == r.MinY()
      ensures Rect? ==> r.width == Width() && r.height == Height()
    {
      match this
      case Null => Null
      case Rect(x, y, w, h) =>
        Rect(if w < 0.0 then x + w else x, if h < 0.0 then y + h else y, Abs(w), Abs(h))
    }
  }

  /** SwiftUI's `Edge`. */
  datatype Edge = Top | Leading | Bottom | Trailing

  /** `Edge.Set.all`. */
  const AllEdges: set<Edge> := {Top, Leading, Bottom, Trailing}

  /** SwiftUI's `EdgeInsets`. */
  datatype EdgeInsets = EdgeInsets(top: real, leading: real, bottom: real, trailing: real) {

    /** The inset on one edge. */
    function Amount(e: Edge): real
    {
      match e
      case Top => top
      case Leading => leading
      case Bottom => bottom
      case Trailing => trailing
    }
  }

  /** One command of a SwiftUI `Path`. An arc goes round `center` at
      `radius` from bearing `startDegrees` to `endDegrees`; SwiftUI first
      draws a straight line to the arc's start if the path is not already
      there. */
  datatype PathCommand =
    | Move(to: Point)
    | Line(to: Point)
    | Arc(center: Point, radius: real, startDegrees: int, endDegrees: int, clockwise: bool)
    | Close
  {
    /** An arc whose ends lie at whole quarter turns, so that its end points
        need no trigonometry. */
    predicate QuarterArc()
    {
      Arc? && startDegrees % 90 == 0 && endDegrees % 90 == 0
    }

    /** Where an arc begins. */
    function Start(): Point
      requires QuarterArc()
    {
      Offset(center, radius, Unit(startDegrees))
    }

    /** Where an arc ends. */
    function End(): Point
      requires QuarterArc()
    {
      Offset(center, radius, Unit(endDegrees))
    }
  }
}
