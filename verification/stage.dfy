/**
  The seating logic of a stage plot: how many seats fit on a row's arc, where
  the concentric bands of rows lie, how seats are walked along an arc, and how
  a hall counts the seats it draws.

  Drawing to an image is not modelled. Each seat that would be drawn is
  returned instead, and the seat counter `Instrument.draw` keeps in a global variable
  is an explicit accumulator threaded through the drawing functions.
*/
module Stage {
  import opened Wrappers
  import opened Geometry

  /** A seat tag: the icon of an instrument, or none for a plain seat. */
  datatype Instrument = Instrument(icon: Option<string>)

  /** The untagged seat, drawn as an empty circle. */
  const InstrumentDefault: Instrument := Instrument(None)

  /** The arc a row covers when it names none: the front of the stage. */
  const DefaultAngles: ArcAngles := ArcAngles(190, 350)

  function Max(a: int, b: int): int
  {
    if a >= b then a else b
  }

  // --------------------------------------------------------------------- Row

  /** A row: the arc it covers and, optionally, the instrument of each seat. */
  datatype Row = Row(angles: ArcAngles, instruments: Option<seq<Instrument>>)

  /** Builds a row, falling back to the default arc when no angles are given. */
  function NewRow(angles: Option<ArcAngles>, instruments: Option<seq<Instrument>>): (r: Row)
    ensures angles.None? ==> r.angles == DefaultAngles
    ensures angles.Some? ==> r.angles == angles.value
    ensures r.instruments == instruments
  {
    Row(if angles.None? then DefaultAngles else angles.value, instruments)
  }

  /** The row drawn for a band that lists no rows. */
  const DefaultRow: Row := NewRow(None, None)

  /** How many seats fit on an arc of the given length: one more than the
      number of whole `distancing` steps that fit into it. */
  function Capacity(perimeter: real, distancing: int): (n: int)
    requires distancing != 0
    ensures (n - 1) as real <= perimeter / distancing as real < n as real
  {
    (perimeter / distancing as real).Floor + 1
  }

  lemma CapacityAtLeastOne(perimeter: real, distancing: int)
    requires perimeter >= 0.0 && distancing > 0
    ensures Capacity(perimeter, distancing) >= 1
  {
  }

  /** An arc that is an exact multiple of the distancing holds one seat per
      step plus the seat at its start. */
  lemma CapacityAtMultiple(k: nat, distancing: int)
    requires distancing > 0
    ensures Capacity(k as real * distancing as real, distancing) == k + 1
  {
    assert k as real * distancing as real / distancing as real == k as real;
  }

  /** An arc just short of `k` steps holds `k` seats. */
  lemma CapacityBelowMultiple(k: nat, perimeter: real, distancing: int)
    requires distancing > 0 && k >= 1
    requires (k - 1) as real * distancing as real <= perimeter < k as real * distancing as real
    ensures Capacity(perimeter, distancing) == k
  {
    var d := distancing as real;
    var q := perimeter / d;
    assert (k as real - q) * d == k as real * d - perimeter;
    assert (q - (k - 1) as real) * d == perimeter - (k - 1) as real * d;
    SignOfFactor(k as real - q, d);
    SignOfFactor(q - (k - 1) as real, d);
  }

  lemma SignOfFactor(a: real, d: real)
    requires d > 0.0
    ensures a * d > 0.0 ==> a > 0.0
    ensures a * d >= 0.0 ==> a >= 0.0
  {
  }

  /** `n` copies of `x`; none when `n` is not positive, as for a Python list
      repeated a non-positive number of times. */
  function Repeat<T>(x: T, n: int): (r: seq<T>)
    ensures |r| == Max(0, n)
    ensures forall i :: 0 <= i < |r| ==> r[i] == x
  {
    if n <= 0 then [] else seq(n, _ => x)
  }

  predicate Untagged(s: seq<Instrument>)
  {
    forall i :: 0 <= i < |s| ==> s[i] == InstrumentDefault
  }

  /** The seats a row draws on an arc of the given length: plain seats up to
      capacity when the row lists no instruments or more than fit, and
      otherwise the listed instruments, unchanged. */
  function InstrumentsToUse(row: Row, perimeter: real, distancing: int): (r: seq<Instrument>)
    requires distancing != 0
    ensures |r| <= Max(0, Capacity(perimeter, distancing))
    ensures row.instruments.None? ==>
              |r| == Max(0, Capacity(perimeter, distancing)) && Untagged(r)
    ensures row.instruments.Some? && |row.instruments.value| > Capacity(perimeter, distancing) ==>
              |r| == Max(0, Capacity(perimeter, distancing)) && Untagged(r)
    ensures row.instruments.Some? && |row.instruments.value| <= Capacity(perimeter, distancing) ==>
              r == row.instruments.value
  {
    var capacity := Capacity(perimeter, distancing);
    match row.instruments
    case None => Repeat(InstrumentDefault, capacity)
    case Some(instruments) =>
      if |instruments| > capacity then Repeat(InstrumentDefault, capacity)
      else instruments
  }

  /** A row's seats always fit: on a non-empty arc with positive distancing
      they never exceed the capacity, and an untagged row has at least one. */
  lemma InstrumentsToUseFits(row: Row, perimeter: real, distancing: int)
    requires perimeter >= 0.0 && distancing > 0
    ensures |InstrumentsToUse(row, perimeter, distancing)| <= Capacity(perimeter, distancing)
    ensures row.instruments.None? ==> |InstrumentsToUse(row, perimeter, distancing)| >= 1
  {
    CapacityAtLeastOne(perimeter, distancing);
  }

  // ------------------------------------------------ Walking seats along a row

  /** The angle of the first seat: the start of the arc when there are several
      seats, and the middle of the arc for a single seat. */
  function SeedAngle(a: ArcAngles, seats: nat): (theta: real)
    ensures seats > 1 ==> theta == a.startAngle as real
    ensures seats <= 1 ==> theta - a.startAngle as real == a.endAngle as real - theta
  {
    if seats > 1 then a.startAngle as real
    else (a.startAngle + a.endAngle) as real / 2.0
  }

  /** The angle sampled to measure the seat spacing: one `seats - 1`-th of the
      arc past the start, so that `seats - 1` such steps cover the arc. */
  function SecondAngle(a: ArcAngles, seats: nat): (theta: real)
    ensures seats > 1 ==> (seats - 1) as real * (theta - a.startAngle as real) == Span(a) as real
    ensures seats <= 1 ==> theta == SeedAngle(a, seats)
  {
    if seats > 1 then a.startAngle as real + Span(a) as real / (seats - 1) as real
    else SeedAngle(a, seats)
  }

  /** A seat as it would be drawn. */
  datatype Seat = Seat(instrument: Instrument, position: Position)

  /** Seats drawn so far, with the running seat count. */
  datatype Drawn = Drawn(seats: seq<Seat>, count: nat)

  /** Moves one step clockwise along the band circle, to the point `step` away;
      a non-positive step leaves the position where it is. */
  function Advance(band: Circle, pos: Position, step: real, num: Numerics): (r: Result<Position, GeometryError>)
    ensures step <= 0.0 ==> r == Success(pos)
    ensures step > 0.0 ==> r == Intersections(band, Circle(pos, step), true, num.sqrt)
    ensures r.Success? && step > 0.0 ==>
              Dot(Sub(r.value, FootPoint(band, Circle(pos, step), num.sqrt)), Sub(pos, band.center)) == 0.0
  {
    if step > 0.0 then Intersections(band, Circle(pos, step), true, num.sqrt)
    else Success(pos)
  }

  /** Whether `n` successive advances from `pos` all succeed: the condition
      under which a walk of `n` seats runs to its end. */
  predicate Walkable(band: Circle, n: nat, pos: Position, step: real, num: Numerics)
    decreases n
  {
    n == 0 ||
    match Advance(band, pos, step, num)
    case Failure(_) => false
    case Success(next) => Walkable(band, n - 1, next, step, num)
  }

  /** A walk that never moves cannot fail. */
  lemma {:induction false} WalkableWithoutStep(band: Circle, n: nat, pos: Position, step: real, num: Numerics)
    requires step <= 0.0
    ensures Walkable(band, n, pos, step, num)
    decreases n
  {
    if n > 0 {
      WalkableWithoutStep(band, n - 1, pos, step, num);
    }
  }

  /** Draws one seat per instrument, starting at `pos`, advancing after every
      seat; each drawn seat bumps the count by one. */
  function Walk(band: Circle, instruments: seq<Instrument>, pos: Position, step: real,
                num: Numerics, count: nat): (r: Result<Drawn, GeometryError>)
    decreases |instruments|
    ensures |instruments| == 0 ==> r == Success(Drawn([], count))
    ensures r.Success? <==> Walkable(band, |instruments|, pos, step, num)
    ensures r.Success? ==>
              && |r.value.seats| == |instruments|
              && r.value.count == count + |instruments|
              && (forall i :: 0 <= i < |instruments| ==> r.value.seats[i].instrument == instruments[i])
    ensures r.Success? && |instruments| > 0 ==>
              && r.value.seats[0].position == pos
              && Advance(band, r.value.seats[|instruments| - 1].position, step, num).Success?
    ensures r.Success? ==>
              forall i :: 0 <= i < |instruments| - 1 ==>
                Advance(band, r.value.seats[i].position, step, num) == Success(r.value.seats[i + 1].position)
  {
    if |instruments| == 0 then Success(Drawn([], count))
    else
      var seat := Seat(instruments[0], pos);
      match Advance(band, pos, step, num)
      case Failure(e) => Failure(e)
      case Success(next) =>
        match Walk(band, instruments[1..], next, step, num, count + 1)
        case Failure(e) => Failure(e)
        case Success(rest) => Success(Drawn([seat] + rest.seats, rest.count))
  }

  /** A row drawn at a radius around the hall centre. */
  datatype RowDraw = RowDraw(row: Row, radius: int)

  /** The seats a row draws at its radius. */
  function RowSeats(d: RowDraw, center: Position, distancing: int): (r: seq<Instrument>)
    requires distancing != 0
    ensures |r| <= Max(0, Capacity(Perimeter(Circle(center, d.radius as real), d.row.angles), distancing))
    ensures d.row.instruments.None? ==>
              |r| == Max(0, Capacity(Perimeter(Circle(center, d.radius as real), d.row.angles), distancing))
              && Untagged(r)
  {
    var circle := Circle(center, d.radius as real);
    InstrumentsToUse(d.row, Perimeter(circle, d.row.angles), distancing)
  }

  /** The seats of a row depend on its radius and arc, not on the centre. */
  lemma RowSeatsCentreFree(d: RowDraw, c1: Position, c2: Position, distancing: int)
    requires distancing != 0
    ensures RowSeats(d, c1, distancing) == RowSeats(d, c2, distancing)
  {
    assert Perimeter(Circle(c1, d.radius as real), d.row.angles) == Perimeter(Circle(c2, d.radius as real), d.row.angles);
  }

  /** The spacing a row is walked with: the straight-line distance from the
      first seat to the point at the second sample angle, so that the seats
      come out evenly spaced along the arc rather than at the nominal
      distancing. A row of at most one seat never advances. */
  function RowStep(circle: Circle, a: ArcAngles, seats: nat, num: Numerics): (step: real)
    ensures seats <= 1 ==> step == 0.0
  {
    var seed := PositionAt(circle, SeedAngle(a, seats), num);
    var second := if seats > 1 then PositionAt(circle, SecondAngle(a, seats), num) else seed;
    Distance(seed, second, num.sqrt)
  }

  /** Whether the walk of a row's seats, from its seed with its measured
      step, runs to its end. */
  predicate RowWalkable(d: RowDraw, center: Position, distancing: int, num: Numerics)
    requires distancing != 0
  {
    var circle := Circle(center, d.radius as real);
    var n := |RowSeats(d, center, distancing)|;
    Walkable(circle, n, PositionAt(circle, SeedAngle(d.row.angles, n), num), RowStep(circle, d.row.angles, n, num), num)
  }

  /** Draws one row: chooses its seats, places the first one, measures the
      spacing from a second sample point and walks the rest clockwise. */
  function DrawRow(d: RowDraw, center: Position, distancing: int, num: Numerics, count: nat)
    : (r: Result<Drawn, GeometryError>)
    ensures distancing == 0 ==> r == Failure(DivisionByZero)
    ensures distancing != 0 ==> (r.Success? <==> RowWalkable(d, center, distancing, num))
    ensures distancing != 0 && |RowSeats(d, center, distancing)| <= 1 ==> r.Success?
    ensures r.Success? ==>
              && r.value.count == count + |RowSeats(d, center, distancing)|
              && |r.value.seats| == |RowSeats(d, center, distancing)|
              && (forall i :: 0 <= i < |r.value.seats| ==>
                    r.value.seats[i].instrument == RowSeats(d, center, distancing)[i])
    ensures r.Success? && |r.value.seats| > 0 ==>
              r.value.seats[0].position ==
                PositionAt(Circle(center, d.radius as real), SeedAngle(d.row.angles, |r.value.seats|), num)
    ensures r.Success? ==>
              var circle := Circle(center, d.radius as real);
              var step := RowStep(circle, d.row.angles, |r.value.seats|, num);
              && (forall i :: 0 <= i < |r.value.seats| - 1 ==>
                    Advance(circle, r.value.seats[i].position, step, num) == Success(r.value.seats[i + 1].position))
              && (|r.value.seats| > 0 ==>
                    Advance(circle, r.value.seats[|r.value.seats| - 1].position, step, num).Success?)
  {
    if distancing == 0 then Failure(DivisionByZero)
    else
      var circle := Circle(center, d.radius as real);
      var instruments := RowSeats(d, center, distancing);
      var n := |instruments|;
      var current := PositionAt(circle, SeedAngle(d.row.angles, n), num);
      var step := RowStep(circle, d.row.angles, n, num);
      assert n <= 1 ==> Walkable(circle, n, current, step, num) by {
        if n <= 1 {
          WalkableWithoutStep(circle, n, current, step, num);
        }
      }
      Walk(circle, instruments, current, step, num, count)
  }

  // -------------------------------------------------------------------- Rows

  /** The bands of a hall, innermost first. A band is either absent (one
      default row) or a list of rows sharing the band's radius. */
  datatype Rows = Rows(bands: seq<Option<seq<Row>>>, firstRowDelta: int, rowDistancing: int)

  /** The rows one band draws, all at the band's radius. */
  function BandDraws(band: Option<seq<Row>>, radius: int): (r: seq<RowDraw>)
    ensures band.None? ==> r == [RowDraw(DefaultRow, radius)]
    ensures band.Some? ==> |r| == |band.value|
    ensures band.Some? ==> forall i :: 0 <= i < |r| ==> r[i].row == band.value[i]
    ensures forall i :: 0 <= i < |r| ==> r[i].radius == radius
  {
    match band
    case None => [RowDraw(DefaultRow, radius)]
    case Some(parts) => seq(|parts|, i requires 0 <= i < |parts| => RowDraw(parts[i], radius))
  }

  /** The step between two bands. */
  function BandStep(rows: Rows, distancing: int): int
  {
    Max(distancing, rows.rowDistancing)
  }

  /** The radius of the `k`-th band, counting from 1. */
  function BandRadius(rows: Rows, distancing: int, k: nat): int
  {
    rows.firstRowDelta + k * BandStep(rows, distancing)
  }

  /** The draws of the first `k` bands, each band at its own radius. */
  function PlannedDraws(rows: Rows, distancing: int, k: nat): seq<RowDraw>
    requires k <= |rows.bands|
  {
    if k == 0 then []
    else PlannedDraws(rows, distancing, k - 1) + BandDraws(rows.bands[k - 1], BandRadius(rows, distancing, k))
  }

  /** The rows to draw, in order, with their radii: the radius grows by the
      band step before every band. */
  method Schedule(rows: Rows, distancing: int) returns (draws: seq<RowDraw>)
    ensures draws == PlannedDraws(rows, distancing, |rows.bands|)
  {
    var radius := rows.firstRowDelta;
    draws := [];
    for k := 0 to |rows.bands|
      invariant radius == BandRadius(rows, distancing, k)
      invariant draws == PlannedDraws(rows, distancing, k)
    {
      radius := radius + Max(distancing, rows.rowDistancing);
      draws := draws + BandDraws(rows.bands[k], radius);
    }
  }

  /** With a positive band step, outer bands lie strictly further out. */
  lemma BandRadiiIncreasing(rows: Rows, distancing: int, j: nat, k: nat)
    requires BandStep(rows, distancing) > 0
    requires j < k
    ensures BandRadius(rows, distancing, j) < BandRadius(rows, distancing, k)
  {
  }

  /** Every row drawn for the first `k` bands lies at most at the `k`-th
      band's radius when the band step is not negative. */
  lemma {:induction false} PlannedDrawsWithin(rows: Rows, distancing: int, k: nat)
    requires k <= |rows.bands|
    requires BandStep(rows, distancing) >= 0
    ensures forall i :: 0 <= i < |PlannedDraws(rows, distancing, k)| ==>
              PlannedDraws(rows, distancing, k)[i].radius <= BandRadius(rows, distancing, k)
  {
    if k > 0 {
      PlannedDrawsWithin(rows, distancing, k - 1);
      var step := BandStep(rows, distancing);
      assert BandRadius(rows, distancing, k) == BandRadius(rows, distancing, k - 1) + step;
    }
  }

  /** Rows are drawn from the inside out when the band step is not negative. */
  lemma {:induction false} PlannedDrawsSorted(rows: Rows, distancing: int, k: nat)
    requires k <= |rows.bands|
    requires BandStep(rows, distancing) >= 0
    ensures forall i, j :: 0 <= i < j < |PlannedDraws(rows, distancing, k)| ==>
              PlannedDraws(rows, distancing, k)[i].radius <= PlannedDraws(rows, distancing, k)[j].radius
  {
    if k > 0 {
      PlannedDrawsSorted(rows, distancing, k - 1);
      PlannedDrawsWithin(rows, distancing, k - 1);
      var step := BandStep(rows, distancing);
      assert BandRadius(rows, distancing, k) == BandRadius(rows, distancing, k - 1) + step;
    }
  }

  /** The number of seats the given draws add up to. */
  function TotalSeats(draws: seq<RowDraw>, center: Position, distancing: int): nat
    requires distancing != 0
  {
    if |draws| == 0 then 0
    else TotalSeats(draws[..|draws| - 1], center, distancing)
         + |RowSeats(draws[|draws| - 1], center, distancing)|
  }

  /** A hall with a single band that lists no rows seats exactly the
      capacity of the default arc at the first band's radius. */
  lemma SingleDefaultBandSeats(firstRowDelta: int, rowDistancing: int, distancing: int, center: Position)
    requires distancing != 0
    ensures var rows := Rows([None], firstRowDelta, rowDistancing);
            var radius := firstRowDelta + Max(distancing, rowDistancing);
            TotalSeats(PlannedDraws(rows, distancing, 1), center, distancing)
            == Max(0, Capacity(Perimeter(Circle(center, radius as real), DefaultAngles), distancing))
  {
  }

  /** Drawing one more row adds that row's seats to the total. */
  lemma TotalSeatsStep(draws: seq<RowDraw>, i: nat, center: Position, distancing: int)
    requires distancing != 0 && i < |draws|
    ensures TotalSeats(draws[..i + 1], center, distancing)
            == TotalSeats(draws[..i], center, distancing) + |RowSeats(draws[i], center, distancing)|
  {
    assert draws[..i + 1][..i] == draws[..i];
  }

  // -------------------------------------------------------------------- Hall

  /** A hall: its name, the stage extents, the bands of rows, the outline of
      the percussion area, the hidden areas and where the legend goes. */
  datatype Hall = Hall(name: string, stage: Dimension, rows: Rows,
                       percussionArea: seq<Position>, hiddenAreas: seq<seq<Position>>,
                       textTopLeft: Position)

  /** A bounding box, as minimum and maximum coordinates. */
  datatype Box = Box(minX: real, maxX: real, minY: real, maxY: real)

  /** `box` is the bounding box of `points` seeded with the stage extents:
      each minimum is the least of the points' coordinates and the stage's
      extent on that axis, each maximum the greatest of them and zero. */
  ghost predicate SeededBounds(box: Box, points: seq<Position>, stage: Dimension)
  {
    && box.minX <= stage.length as real && box.minY <= stage.width as real
    && box.maxX >= 0.0 && box.maxY >= 0.0
    && (forall i :: 0 <= i < |points| ==>
          box.minX <= points[i].x <= box.maxX && box.minY <= points[i].y <= box.maxY)
    && (box.minX == stage.length as real || exists i :: 0 <= i < |points| && points[i].x == box.minX)
    && (box.maxX == 0.0 || exists i :: 0 <= i < |points| && points[i].x == box.maxX)
    && (box.minY == stage.width as real || exists i :: 0 <= i < |points| && points[i].y == box.minY)
    && (box.maxY == 0.0 || exists i :: 0 <= i < |points| && points[i].y == box.maxY)
  }

  /** The bounding box of the percussion outline, seeded with the stage
      extents for the minima and with zero for the maxima. */
  method PercussionBounds(points: seq<Position>, stage: Dimension) returns (box: Box)
    ensures SeededBounds(box, points, stage)
  {
    var minX := stage.length as real;
    var maxX := 0.0;
    var minY := stage.width as real;
    var maxY := 0.0;
    for k := 0 to |points|
      invariant minX <= stage.length as real && minY <= stage.width as real
      invariant maxX >= 0.0 && maxY >= 0.0
      invariant forall i :: 0 <= i < k ==>
                  minX <= points[i].x <= maxX && minY <= points[i].y <= maxY
      invariant minX == stage.length as real || exists i :: 0 <= i < k && points[i].x == minX
      invariant maxX == 0.0 || exists i :: 0 <= i < k && points[i].x == maxX
      invariant minY == stage.width as real || exists i :: 0 <= i < k && points[i].y == minY
      invariant maxY == 0.0 || exists i :: 0 <= i < k && points[i].y == maxY
    {
      var p := points[k];
      if p.x < minX {
        minX := p.x;
      }
      if p.x > maxX {
        maxX := p.x;
      }
      if p.y < minY {
        minY := p.y;
      }
      if p.y > maxY {
        maxY := p.y;
      }
    }
    box := Box(minX, maxX, minY, maxY);
  }

  /** The centre of a box, halfway between its bounds on both axes. */
  function BoxCenter(box: Box): (c: Position)
    ensures c.x - box.minX == box.maxX - c.x
    ensures c.y - box.minY == box.maxY - c.y
  {
    Position((box.minX + box.maxX) / 2.0, (box.minY + box.maxY) / 2.0)
  }

  /** The centre of the bands: the middle of the stage's front edge. */
  function HallCenter(stage: Dimension): (c: Position)
    ensures 2.0 * c.x == stage.length as real
    ensures c.y == stage.width as real
  {
    Position(stage.length as real / 2.0, stage.width as real)
  }

  /** The side of the square podium drawn behind the centre. */
  const PodiumSide: int := 100

  /** Everything a hall layout computes besides pixels. */
  datatype HallLayout = HallLayout(center: Position, podium: Rect, percussion: Box,
                                   percussionCenter: Position, seats: seq<Seat>, seatCount: nat)

  /** Whether the first `k` scheduled rows can all be walked to their end. */
  predicate RowsWalkable(draws: seq<RowDraw>, k: nat, center: Position, distancing: int, num: Numerics)
    requires distancing != 0 && k <= |draws|
  {
    forall j :: 0 <= j < k ==> RowWalkable(draws[j], center, distancing, num)
  }

  /** Draws the scheduled rows in order, threading the seat count from 0;
      the first row that fails aborts the whole drawing. */
  method DrawSchedule(draws: seq<RowDraw>, center: Position, distancing: int, num: Numerics)
    returns (r: Result<Drawn, GeometryError>)
    ensures distancing == 0 && |draws| > 0 ==> r == Failure(DivisionByZero)
    ensures r.Success? <==>
              (|draws| == 0 ||
               (distancing != 0 && RowsWalkable(draws, |draws|, center, distancing, num)))
    ensures r.Success? ==> r.value.count == |r.value.seats|
    ensures r.Success? && distancing != 0 ==> r.value.count == TotalSeats(draws, center, distancing)
    ensures r.Failure? && distancing != 0 ==>
              exists i: nat, c: nat :: i < |draws| && RowsWalkable(draws, i, center, distancing, num)
                                    && DrawRow(draws[i], center, distancing, num, c) == Failure(r.error)
  {
    var seats: seq<Seat> := [];
    var count: nat := 0;
    for i := 0 to |draws|
      invariant i > 0 ==> distancing != 0
      invariant count == |seats|
      invariant distancing != 0 ==> count == TotalSeats(draws[..i], center, distancing)
      invariant distancing != 0 ==> RowsWalkable(draws, i, center, distancing, num)
    {
      var drawn := DrawRow(draws[i], center, distancing, num, count);
      if drawn.Failure? {
        assert distancing != 0 ==>
                 (RowsWalkable(draws, i, center, distancing, num)
                  && DrawRow(draws[i], center, distancing, num, count) == Failure(drawn.error));
        return Failure(drawn.error);
      }
      TotalSeatsStep(draws, i, center, distancing);
      seats := seats + drawn.value.seats;
      count := drawn.value.count;
    }
    assert draws[..|draws|] == draws;
    r := Success(Drawn(seats, count));
  }

  /** Lays out a hall: the centre, the podium, the percussion area and every
      row of every band. The seat count starts at zero and grows by one per
      seat drawn, so it ends as the sum of the rows' seat counts. */
  method HallDraw(hall: Hall, distancing: int, num: Numerics) returns (r: Result<HallLayout, GeometryError>)
    ensures distancing == 0 && |PlannedDraws(hall.rows, distancing, |hall.rows.bands|)| > 0 ==>
              r == Failure(DivisionByZero)
    ensures var draws := PlannedDraws(hall.rows, distancing, |hall.rows.bands|);
            r.Success? <==>
              (|draws| == 0 ||
               (distancing != 0 &&
                RowsWalkable(draws, |draws|, HallCenter(hall.stage), distancing, num)))
    ensures r.Success? ==> r.value.seatCount == |r.value.seats|
    ensures r.Success? && distancing != 0 ==>
              r.value.seatCount == TotalSeats(PlannedDraws(hall.rows, distancing, |hall.rows.bands|),
                                              HallCenter(hall.stage), distancing)
    ensures r.Success? ==>
              && r.value.center == HallCenter(hall.stage)
              && r.value.podium == CreateRectangle(Position(r.value.center.x, r.value.center.y - PodiumSide as real / 2.0),
                                                   Dimension(PodiumSide, PodiumSide))
              && r.value.percussionCenter == BoxCenter(r.value.percussion)
    ensures r.Success? ==> SeededBounds(r.value.percussion, hall.percussionArea, hall.stage)
    ensures r.Failure? && distancing != 0 ==>
              var draws := PlannedDraws(hall.rows, distancing, |hall.rows.bands|);
              exists i: nat, c: nat :: i < |draws| && RowsWalkable(draws, i, HallCenter(hall.stage), distancing, num)
                                    && DrawRow(draws[i], HallCenter(hall.stage), distancing, num, c) == Failure(r.error)
  {
    var center := HallCenter(hall.stage);
    var podium := CreateRectangle(Position(center.x, center.y - PodiumSide as real / 2.0),
                                  Dimension(PodiumSide, PodiumSide));
    var box := PercussionBounds(hall.percussionArea, hall.stage);
    var draws := Schedule(hall.rows, distancing);
    var drawn := DrawSchedule(draws, center, distancing, num);
    if drawn.Failure? {
      return Failure(drawn.error);
    }
    r := Success(HallLayout(center, podium, box, BoxCenter(box), drawn.value.seats, drawn.value.count));
  }
}
