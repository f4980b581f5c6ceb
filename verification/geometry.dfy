/**
  Value types of a stage plot: positions, dimensions, arc angles and circles,
  with the arithmetic the seating code performs on them.

  Floating-point numbers are modelled as reals. The square root, cosine and
  sine of the host language are not interpreted: they reach the model as the
  fields of a `Numerics` record, so every fact proved here holds whatever
  those functions return.
*/
module Geometry {
  import opened Wrappers

  /** The printed value of the host language's double-precision pi.
      No proof relies on more than its positivity. */
  const Pi: real := 3.141592653589793

  /** The numeric library calls the seating code makes, left uninterpreted. */
  datatype Numerics = Numerics(sqrt: real -> real, cos: real -> real, sin: real -> real)

  /** The exceptions the arithmetic can raise. */
  datatype GeometryError =
    | DivisionByZero   // a zero divisor
    | MathDomainError  // the square root of a negative number

  function Sq(x: real): real { x * x }

  /** Square root whose only pinned value is that of 0, which is exact in
      floating point; every other value comes from the opaque library. */
  function Root(sqrt: real -> real, x: real): real
  {
    if x == 0.0 then 0.0 else sqrt(x)
  }

  // ---------------------------------------------------------------- Position

  /** A position on the stage, in centimetres. */
  datatype Position = Position(x: real, y: real)

  /** Component-wise sum; subtracting `q` again gives back `p`. */
  function Add(p: Position, q: Position): (r: Position)
    ensures r.x - q.x == p.x && r.y - q.y == p.y
  {
    Position(p.x + q.x, p.y + q.y)
  }

  /** Component-wise difference; adding `q` back gives `p`. */
  function Sub(p: Position, q: Position): (r: Position)
    ensures Add(r, q) == p
  {
    Position(p.x - q.x, p.y - q.y)
  }

  /** Scales both coordinates by `s`. */
  function Scale(p: Position, s: real): (r: Position)
    ensures s == 1.0 ==> r == p
    ensures s == 0.0 ==> r == Position(0.0, 0.0)
    ensures s == -1.0 ==> Add(r, p) == Position(0.0, 0.0)
  {
    Position(p.x * s, p.y * s)
  }

  lemma AddSubRoundTrip(p: Position, q: Position)
    ensures Sub(Add(p, q), q) == p
    ensures Add(Sub(p, q), q) == p
  {
  }

  lemma ScaleCompose(p: Position, s: real, t: real)
    ensures Scale(Scale(p, s), t) == Scale(p, s * t)
  {
  }

  /** Euclidean distance, through the opaque square root: a point is at
      distance 0 from itself, and distinct points get the library's square
      root of their squared distance. */
  function Distance(p: Position, q: Position, sqrt: real -> real): (r: real)
    ensures p == q ==> r == 0.0
    ensures p != q ==> r == sqrt(Sq(q.x - p.x) + Sq(q.y - p.y))
  {
    SquaresPositive(p.x - q.x, p.y - q.y);
    Root(sqrt, Sq(p.x - q.x) + Sq(p.y - q.y))
  }

  /** The sum of two squares is 0 only when both are 0. */
  lemma SquaresPositive(a: real, b: real)
    ensures a != 0.0 || b != 0.0 ==> Sq(a) + Sq(b) > 0.0
  {
    SquareSign(a);
    SquareSign(b);
  }

  lemma SquareSign(a: real)
    ensures Sq(a) >= 0.0
    ensures a != 0.0 ==> Sq(a) != 0.0
  {
    if a != 0.0 {
      SquareOverRoot(a);
    }
  }

  lemma SquareOverRoot(a: real)
    requires a != 0.0
    ensures Sq(a) / a == a
  {
  }

  lemma DistanceSymmetric(p: Position, q: Position, sqrt: real -> real)
    ensures Distance(p, q, sqrt) == Distance(q, p, sqrt)
    ensures Distance(p, p, sqrt) == 0.0
  {
  }

  // --------------------------------------------------------------- Dimension

  /** Extents of a stage or of a drawn shape, in whole centimetres. */
  datatype Dimension = Dimension(length: int, width: int)

  /** Component-wise sum of two dimensions. */
  function AddDimensions(d: Dimension, e: Dimension): (r: Dimension)
    ensures r.length - e.length == d.length && r.width - e.width == d.width
  {
    Dimension(d.length + e.length, d.width + e.width)
  }

  lemma AddDimensionsCommutative(d: Dimension, e: Dimension)
    ensures AddDimensions(d, e) == AddDimensions(e, d)
  {
  }

  lemma AddDimensionsAssociative(d: Dimension, e: Dimension, f: Dimension)
    ensures AddDimensions(AddDimensions(d, e), f) == AddDimensions(d, AddDimensions(e, f))
  {
  }

  // ------------------------------------------------------------ Arcs, circles

  /** The start and end angle, in degrees, of an arc. */
  datatype ArcAngles = ArcAngles(startAngle: int, endAngle: int)

  /** The angular extent of an arc, whichever way round it is given. */
  function Span(a: ArcAngles): nat
  {
    if a.endAngle >= a.startAngle then a.endAngle - a.startAngle else a.startAngle - a.endAngle
  }

  datatype Circle = Circle(center: Position, radius: real)

  /** The length of the part of the circle that the arc covers. */
  function Perimeter(c: Circle, a: ArcAngles): (r: real)
    ensures c.radius >= 0.0 ==> r >= 0.0
    ensures c.radius > 0.0 && a.startAngle != a.endAngle ==> r > 0.0
    ensures a.startAngle == a.endAngle ==> r == 0.0
    ensures Span(a) == 360 ==> r == 2.0 * Pi * c.radius
  {
    var circlePerimeter := 2.0 * Pi * c.radius;
    var fraction := Span(a) as real / 360.0;
    circlePerimeter * fraction
  }

  lemma PerimeterSymmetric(c: Circle, a: ArcAngles)
    ensures Perimeter(c, a) == Perimeter(c, ArcAngles(a.endAngle, a.startAngle))
  {
  }

  /** A wider arc on the same circle is never shorter. */
  lemma PerimeterMonotone(c: Circle, a: ArcAngles, b: ArcAngles)
    requires c.radius >= 0.0
    requires Span(a) <= Span(b)
    ensures Perimeter(c, a) <= Perimeter(c, b)
  {
    var perDegree := 2.0 * Pi * c.radius / 360.0;
    var widening := (Span(b) - Span(a)) as real;
    assert Perimeter(c, b) - Perimeter(c, a) == perDegree * widening;
    NonNegativeProduct(perDegree, widening);
  }

  lemma NonNegativeProduct(x: real, y: real)
    requires x >= 0.0 && y >= 0.0
    ensures x * y >= 0.0
  {
  }

  /** The point of the circle at the given angle, through the opaque cosine
      and sine: its squared distance from the centre is the squared radius
      times `cos^2 + sin^2` of the angle in radians, so it lies on the circle
      whenever the library keeps that identity. */
  function PositionAt(c: Circle, degrees: real, num: Numerics): (r: Position)
    ensures var t := degrees * Pi / 180.0;
            Sq(r.x - c.center.x) + Sq(r.y - c.center.y)
            == Sq(c.radius) * (Sq(num.cos(t)) + Sq(num.sin(t)))
    ensures c.radius == 0.0 ==> r == c.center
  {
    var radians := degrees * Pi / 180.0;
    Position(c.center.x + c.radius * num.cos(radians), c.center.y + c.radius * num.sin(radians))
  }

  // ---------------------------------------------------- Circle intersections

  /** Distance between the two centres. */
  function CentreDistance(c: Circle, other: Circle, sqrt: real -> real): real
  {
    Distance(c.center, other.center, sqrt)
  }

  /** Signed distance from `c`'s centre to the foot point along the centre line. */
  function FootOffset(c: Circle, other: Circle, sqrt: real -> real): real
    requires CentreDistance(c, other, sqrt) != 0.0
  {
    var dist := CentreDistance(c, other, sqrt);
    (Sq(c.radius) - Sq(other.radius) + Sq(dist)) / (2.0 * dist)
  }

  /** The square of the half chord; the intersection needs its square root. */
  function HalfChordSquared(c: Circle, other: Circle, sqrt: real -> real): real
    requires CentreDistance(c, other, sqrt) != 0.0
  {
    Sq(c.radius) - Sq(FootOffset(c, other, sqrt))
  }

  /** The point of the centre line where the common chord crosses it. */
  function FootPoint(c: Circle, other: Circle, sqrt: real -> real): Position
    requires CentreDistance(c, other, sqrt) != 0.0
  {
    var dist := CentreDistance(c, other, sqrt);
    Add(Scale(Sub(other.center, c.center), FootOffset(c, other, sqrt) / dist), c.center)
  }

  /** Dot product, used to state that an offset is perpendicular to the centre line. */
  function Dot(p: Position, q: Position): real
  {
    p.x * q.x + p.y * q.y
  }

  /** The z-component of the cross product. Its sign tells on which side of
      `p` the vector `q` lies; with y growing downward, as on the drawn
      image, a positive value means `q` is clockwise of `p` on screen. */
  function Cross(p: Position, q: Position): real
  {
    p.x * q.y - p.y * q.x
  }

  /** The point `h` away from the foot point `p2`, perpendicular to the
      centre direction `d` of length `dist`, on the clockwise or the
      counter-clockwise side, as seen on screen where y grows downward. The
      side is fixed by the sign of the cross product with `d`:
      `h * |d|^2 / dist` for the clockwise flag, its negation otherwise. */
  function ChordPoint(p2: Position, h: real, dist: real, d: Position, clockwise: bool): (r: Position)
    requires dist != 0.0
    ensures Dot(Sub(r, p2), d) == 0.0
    ensures clockwise ==> Cross(d, Sub(r, p2)) * dist == h * Dot(d, d)
    ensures !clockwise ==> Cross(d, Sub(r, p2)) * dist == -(h * Dot(d, d))
  {
    var u := h / dist;
    assert u * dist == h;
    assert h * d.y / dist == u * d.y && h * d.x / dist == u * d.x;
    assert (-(u * d.y)) * d.x + (u * d.x) * d.y == 0.0;
    if clockwise then Position(p2.x - h * d.y / dist, p2.y + h * d.x / dist)
    else Position(p2.x + h * d.y / dist, p2.y - h * d.x / dist)
  }

  /** One intersection point of two circles: the clockwise or the
      counter-clockwise one. Fails like `Circle.intersections` does on
      concentric circles (a division by zero) and on circles that do not
      meet (the square root of a negative number). */
  function Intersections(c: Circle, other: Circle, clockwise: bool, sqrt: real -> real)
    : (r: Result<Position, GeometryError>)
    ensures CentreDistance(c, other, sqrt) == 0.0 <==> r == Failure(DivisionByZero)
    ensures CentreDistance(c, other, sqrt) != 0.0 ==>
              (HalfChordSquared(c, other, sqrt) < 0.0 <==> r == Failure(MathDomainError))
    ensures r.Success? ==>
              Dot(Sub(r.value, FootPoint(c, other, sqrt)), Sub(other.center, c.center)) == 0.0
    ensures r.Success? ==>
              var d := Sub(other.center, c.center);
              var side := Cross(d, Sub(r.value, FootPoint(c, other, sqrt))) * CentreDistance(c, other, sqrt);
              var h := Root(sqrt, HalfChordSquared(c, other, sqrt));
              if clockwise then side == h * Dot(d, d) else side == -(h * Dot(d, d))
  {
    var dist := CentreDistance(c, other, sqrt);
    if dist == 0.0 then Failure(DivisionByZero)
    else
      var hh := HalfChordSquared(c, other, sqrt);
      if hh < 0.0 then Failure(MathDomainError)
      else
        var h := Root(sqrt, hh);
        Success(ChordPoint(FootPoint(c, other, sqrt), h, dist, Sub(other.center, c.center), clockwise))
  }

  /** The clockwise and counter-clockwise intersections are mirror images
      about the foot point: either both exist or neither does, and the foot
      point is their midpoint. */
  lemma IntersectionsMirror(c: Circle, other: Circle, sqrt: real -> real)
    ensures Intersections(c, other, true, sqrt).Success? <==> Intersections(c, other, false, sqrt).Success?
    ensures Intersections(c, other, true, sqrt).Success? ==>
              var cw := Intersections(c, other, true, sqrt).value;
              var ccw := Intersections(c, other, false, sqrt).value;
              && Sub(cw, FootPoint(c, other, sqrt)) == Scale(Sub(ccw, FootPoint(c, other, sqrt)), -1.0)
              && Scale(Add(cw, ccw), 0.5) == FootPoint(c, other, sqrt)
  {
  }

  lemma ChordPointsMirror(p2: Position, h: real, dist: real, d: Position)
    requires dist != 0.0
    ensures var cw := ChordPoint(p2, h, dist, d, true);
            var ccw := ChordPoint(p2, h, dist, d, false);
            && Sub(cw, p2) == Scale(Sub(ccw, p2), -1.0)
            && Scale(Add(cw, ccw), 0.5) == p2
  {
  }

  /** When the half chord is zero the circles touch and both choices agree. */
  lemma IntersectionsTangent(c: Circle, other: Circle, sqrt: real -> real)
    requires CentreDistance(c, other, sqrt) != 0.0
    requires HalfChordSquared(c, other, sqrt) == 0.0
    ensures Intersections(c, other, true, sqrt) == Success(FootPoint(c, other, sqrt))
    ensures Intersections(c, other, false, sqrt) == Success(FootPoint(c, other, sqrt))
  {
  }

  // -------------------------------------------------------------- Rectangles

  /** Conversion of a real to an integer by truncation toward zero. */
  function Trunc(x: real): (r: int)
    ensures 0.0 <= x ==> 0 <= r && r as real <= x < r as real + 1.0
    ensures x < 0.0 ==> r <= 0 && r as real - 1.0 < x <= r as real
  {
    if x >= 0.0 then x.Floor else -((-x).Floor)
  }

  lemma TruncMonotone(x: real, y: real)
    ensures x <= y ==> Trunc(x) <= Trunc(y)
  {
  }

  /** Corner coordinates as drawn: top-left (x1, y1) and bottom-right (x2, y2). */
  datatype Rect = Rect(x1: int, y1: int, x2: int, y2: int)

  /** The integer rectangle of the given dimension centred on `center`. */
  function CreateRectangle(center: Position, dim: Dimension): (r: Rect)
    ensures dim.length >= 0 ==> r.x1 <= r.x2
    ensures dim.width >= 0 ==> r.y1 <= r.y2
  {
    var halfLength := dim.length as real / 2.0;
    var halfWidth := dim.width as real / 2.0;
    TruncMonotone(center.x - halfLength, center.x + halfLength);
    TruncMonotone(center.y - halfWidth, center.y + halfWidth);
    Rect(Trunc(center.x - halfLength), Trunc(center.y - halfWidth),
         Trunc(center.x + halfLength), Trunc(center.y + halfWidth))
  }

  /** With an integer centre and even extents no truncation happens. */
  lemma CreateRectangleExact(cx: int, cy: int, dim: Dimension)
    requires dim.length % 2 == 0 && dim.width % 2 == 0
    ensures CreateRectangle(Position(cx as real, cy as real), dim)
            == Rect(cx - dim.length / 2, cy - dim.width / 2, cx + dim.length / 2, cy + dim.width / 2)
  {
  }
}
