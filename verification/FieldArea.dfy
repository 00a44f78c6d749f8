/** Worked area from stored GPS fixes, with travel during pauses left out. Stamps are in microseconds. */
module FieldArea {
  import opened Billing
  import opened Calculus
  import opened Outcomes
  import opened Rounding

  const MIN_STEP_M := 0.25
  const MAX_STEP_M := 500.0
  const METRES_PER_DEGREE := 111320.0

  datatype Point = Point(lat: real, lon: real)

  /** A stored GPS row: its device timestamp and, where its payload holds one, its position. */
  datatype Fix = Fix(at: int, position: Option<Point>)

  /** Great-circle distance in m, and the cosine of a latitude in degrees. */
  datatype Geo = Geo(distance: (Point, Point) -> real, cosine: real -> real)

  // --- Fixes that count as work ---

  /** Both ends of a window count as paused; an open window has no end. */
  predicate InWindow(at: int, w: Interval) {
    w.from <= at && (w.to.None? || at <= w.to.value)
  }

  predicate IsPausedAt(at: int, windows: seq<Interval>) {
    exists i :: 0 <= i < |windows| && InWindow(at, windows[i])
  }

  method PausedAt(at: int, windows: seq<Interval>) returns (paused: bool)
    ensures paused == IsPausedAt(at, windows)
  {
    for i := 0 to |windows|
      invariant !IsPausedAt(at, windows[..i])
    {
      if InWindow(at, windows[i]) {
        return true;
      }
    }
    assert windows[..|windows|] == windows;
    return false;
  }

  predicate Counts(r: Fix, windows: seq<Interval>) {
    r.position.Some? && !IsPausedAt(r.at, windows)
  }

  /** The rows that survive the filter, in order. */
  function Outside(rows: seq<Fix>, windows: seq<Interval>): seq<Fix> {
    if rows == [] then []
    else
      var last := rows[|rows| - 1];
      Outside(rows[..|rows| - 1], windows) + (if Counts(last, windows) then [last] else [])
  }

  function Points(rows: seq<Fix>, windows: seq<Interval>): seq<Point> {
    if rows == [] then []
    else
      var last := rows[|rows| - 1];
      Points(rows[..|rows| - 1], windows) + (if Counts(last, windows) then [last.position.value] else [])
  }

  method ParseGpsPoints(rows: seq<Fix>, windows: seq<Interval>) returns (points: seq<Point>)
    ensures points == Points(rows, windows)
  {
    points := [];
    for i := 0 to |rows|
      invariant points == Points(rows[..i], windows)
    {
      assert rows[..i + 1][..i] == rows[..i];
      var paused := PausedAt(rows[i].at, windows);
      if !paused && rows[i].position.Some? {
        points := points + [rows[i].position.value];
      }
    }
    assert rows[..|rows|] == rows;
  }

  lemma {:induction false} PointsAppend(a: seq<Fix>, b: seq<Fix>, windows: seq<Interval>)
    ensures Points(a + b, windows) == Points(a, windows) + Points(b, windows)
    decreases |b|
  {
    if b == [] {
      assert a + b == a;
    } else {
      var init := b[..|b| - 1];
      assert (a + b)[..|a + b| - 1] == a + init && (a + b)[|a + b| - 1] == b[|b| - 1];
      PointsAppend(a, init, windows);
    }
  }

  /** Every row that counts is on the path. */
  lemma {:induction false} PointsInclude(rows: seq<Fix>, windows: seq<Interval>, r: Fix)
    requires r in rows && Counts(r, windows)
    ensures r.position.value in Points(rows, windows)
  {
    if r != rows[|rows| - 1] {
      assert rows == rows[..|rows| - 1] + [rows[|rows| - 1]];
      PointsInclude(rows[..|rows| - 1], windows, r);
    }
  }

  /** The path depends on the surviving rows only. */
  lemma {:induction false} PointsOfOutside(rows: seq<Fix>, rows': seq<Fix>, windows: seq<Interval>)
    requires Outside(rows, windows) == Outside(rows', windows)
    ensures Points(rows, windows) == Points(rows', windows)
  {
    PointsAreOutside(rows, windows);
    PointsAreOutside(rows', windows);
  }

  lemma {:induction false} PointsAreOutside(rows: seq<Fix>, windows: seq<Interval>)
    ensures Points(rows, windows) == Points(Outside(rows, windows), windows)
  {
    if rows != [] {
      var init, last := rows[..|rows| - 1], rows[|rows| - 1];
      PointsAreOutside(init, windows);
      if Counts(last, windows) {
        PointsAppend(Outside(init, windows), [last], windows);
        assert [last][..0] == [];
      } else {
        assert Outside(init, windows) + [] == Outside(init, windows);
      }
    }
  }

  /** Rows stamped inside a pause window can be added, removed or changed freely. */
  lemma PausedRowsAreFree(a: seq<Fix>, idle: seq<Fix>, idle': seq<Fix>, b: seq<Fix>, windows: seq<Interval>)
    requires forall i :: 0 <= i < |idle| ==> IsPausedAt(idle[i].at, windows)
    requires forall i :: 0 <= i < |idle'| ==> IsPausedAt(idle'[i].at, windows)
    ensures Points(a + idle + b, windows) == Points(a + idle' + b, windows)
  {
    IdleAddsNothing(a, idle, windows);
    IdleAddsNothing(a, idle', windows);
    PointsAppend(a + idle, b, windows);
    PointsAppend(a + idle', b, windows);
  }

  lemma {:induction false} NothingCounts(idle: seq<Fix>, windows: seq<Interval>)
    requires forall i :: 0 <= i < |idle| ==> IsPausedAt(idle[i].at, windows)
    ensures Points(idle, windows) == []
  {
    if idle != [] {
      NothingCounts(idle[..|idle| - 1], windows);
    }
  }

  // --- Rows in timestamp order ---

  predicate NoneAfter(rows: seq<Fix>, at: int) {
    forall x :: x in rows ==> x.at <= at
  }

  predicate Ordered(rows: seq<Fix>) {
    rows == [] || (NoneAfter(rows[..|rows| - 1], rows[|rows| - 1].at) && Ordered(rows[..|rows| - 1]))
  }

  /** Adds a row where reading by timestamp will find it: after every row stamped no later. */
  function InsertByStamp(rows: seq<Fix>, r: Fix): seq<Fix> {
    if rows == [] || rows[|rows| - 1].at <= r.at then rows + [r]
    else InsertByStamp(rows[..|rows| - 1], r) + [rows[|rows| - 1]]
  }

  lemma {:induction false} InsertKeepsOrder(rows: seq<Fix>, r: Fix)
    requires Ordered(rows)
    ensures Ordered(InsertByStamp(rows, r))
    ensures forall at: int :: NoneAfter(rows, at) && r.at <= at ==> NoneAfter(InsertByStamp(rows, r), at)
  {
    if rows == [] || rows[|rows| - 1].at <= r.at {
      assert (rows + [r])[..|rows|] == rows;
    } else {
      var init, last := rows[..|rows| - 1], rows[|rows| - 1];
      InsertKeepsOrder(init, r);
      assert (InsertByStamp(init, r) + [last])[..|InsertByStamp(init, r)|] == InsertByStamp(init, r);
      forall at: int | NoneAfter(rows, at) && r.at <= at ensures NoneAfter(InsertByStamp(rows, r), at) {
        assert NoneAfter(init, at);
      }
    }
  }

  lemma {:induction false} OutsideIsWithin(rows: seq<Fix>, windows: seq<Interval>)
    ensures forall x :: x in Outside(rows, windows) ==> x in rows
  {
    if rows != [] {
      OutsideIsWithin(rows[..|rows| - 1], windows);
    }
  }

  lemma OutsideLast(init: seq<Fix>, last: Fix, windows: seq<Interval>)
    ensures Outside(init + [last], windows)
         == if Counts(last, windows) then Outside(init, windows) + [last] else Outside(init, windows)
  {
    assert (init + [last])[..|init|] == init;
    assert Outside(init, windows) + [] == Outside(init, windows);
  }

  lemma InsertLast(rows: seq<Fix>, r: Fix)
    requires NoneAfter(rows, r.at)
    ensures InsertByStamp(rows, r) == rows + [r]
  {
    assert rows != [] ==> rows[|rows| - 1] in rows;
  }

  lemma InsertBefore(init: seq<Fix>, last: Fix, r: Fix)
    requires r.at < last.at
    ensures InsertByStamp(init + [last], r) == InsertByStamp(init, r) + [last]
  {
    assert (init + [last])[..|init|] == init;
  }

  /** Filtering commutes with inserting. */
  lemma {:induction false} OutsideInserted(rows: seq<Fix>, r: Fix, windows: seq<Interval>)
    requires Ordered(rows)
    ensures Outside(InsertByStamp(rows, r), windows)
         == if Counts(r, windows) then InsertByStamp(Outside(rows, windows), r) else Outside(rows, windows)
  {
    if rows == [] || rows[|rows| - 1].at <= r.at {
      OutsideAppended(rows, r, windows);
    } else {
      var init, last := rows[..|rows| - 1], rows[|rows| - 1];
      assert rows == init + [last];
      OutsideInserted(init, r, windows);
      OutsideLast(InsertByStamp(init, r), last, windows);
      OutsideLast(init, last, windows);
      InsertBefore(Outside(init, windows), last, r);
    }
  }

  lemma OutsideAppended(rows: seq<Fix>, r: Fix, windows: seq<Interval>)
    requires NoneAfter(rows, r.at)
    ensures Outside(rows + [r], windows)
         == if Counts(r, windows) then InsertByStamp(Outside(rows, windows), r) else Outside(rows, windows)
  {
    OutsideLast(rows, r, windows);
    OutsideIsWithin(rows, windows);
    InsertLast(Outside(rows, windows), r);
  }

  // --- Path length ---

  predicate CountsAsStep(d: real) {
    MIN_STEP_M < d <= MAX_STEP_M
  }

  function Counted(d: real): real {
    if CountsAsStep(d) then d else 0.0
  }

  function Steps(geo: Geo, points: seq<Point>): seq<real> {
    if |points| < 2 then []
    else
      var n := |points|;
      var d := geo.distance(points[n - 2], points[n - 1]);
      Steps(geo, points[..n - 1]) + (if CountsAsStep(d) then [d] else [])
  }

  method FilteredPathSegments(geo: Geo, points: seq<Point>) returns (segments: seq<real>)
    ensures segments == Steps(geo, points)
  {
    segments := [];
    var i := 0;
    while i < |points| - 1
      invariant 0 <= i && (i < |points| || points == [])
      invariant points != [] ==> segments == Steps(geo, points[..i + 1])
      invariant points == [] ==> segments == []
    {
      assert points[..i + 2][..i + 1] == points[..i + 1];
      var d := geo.distance(points[i], points[i + 1]);
      i := i + 1;
      if d <= MIN_STEP_M {
        continue;
      }
      if d > MAX_STEP_M {
        continue;
      }
      segments := segments + [d];
    }
    assert points[..|points|] == points;
  }

  function Sum(xs: seq<real>): real {
    if xs == [] then 0.0 else Sum(xs[..|xs| - 1]) + xs[|xs| - 1]
  }

  function PathLength(geo: Geo, points: seq<Point>): real {
    Sum(Steps(geo, points))
  }

  method TotalPathDistance(geo: Geo, points: seq<Point>) returns (total: real)
    ensures total == PathLength(geo, points)
  {
    total := 0.0;
    if |points| < 2 {
      return;
    }
    var segments := FilteredPathSegments(geo, points);
    for i := 0 to |segments|
      invariant total == Sum(segments[..i])
    {
      assert segments[..i + 1][..i] == segments[..i];
      total := total + segments[i];
    }
    assert segments[..|segments|] == segments;
  }

  /** Sum of `f` over neighbouring elements. */
  function Chain<T>(f: (T, T) -> real, xs: seq<T>): real {
    if |xs| < 2 then 0.0
    else Chain(f, xs[..|xs| - 1]) + f(xs[|xs| - 2], xs[|xs| - 1])
  }

  /** Cutting a chain cuts off exactly the link between its parts. */
  lemma {:induction false} ChainSplits<T>(f: (T, T) -> real, a: seq<T>, b: seq<T>)
    requires |a| > 0 && |b| > 0
    ensures Chain(f, a + b) == Chain(f, a) + f(a[|a| - 1], b[0]) + Chain(f, b)
    decreases |b|
  {
    var init := b[..|b| - 1];
    assert (a + b)[..|a + b| - 1] == a + init;
    if |b| > 1 {
      ChainSplits(f, a, init);
    } else {
      assert a + init == a;
    }
  }

  function StepLength(geo: Geo): (Point, Point) -> real {
    (p, q) => Counted(geo.distance(p, q))
  }

  /** Every counted step is in (0.25, 500] m, and n fixes make at most n - 1 of them. */
  lemma {:induction false} StepsAreBounded(geo: Geo, points: seq<Point>)
    ensures forall i :: 0 <= i < |Steps(geo, points)| ==> 0.25 < Steps(geo, points)[i] <= 500.0
    ensures |points| > 0 ==> |Steps(geo, points)| <= |points| - 1
    ensures |points| > 0 ==> 0.0 <= PathLength(geo, points) <= 500.0 * (|points| - 1) as real
    ensures |points| == 0 ==> PathLength(geo, points) == 0.0
  {
    if |points| >= 2 {
      StepsAreBounded(geo, points[..|points| - 1]);
      LastStep(geo, points);
    }
  }

  lemma LastStep(geo: Geo, points: seq<Point>)
    requires |points| >= 2
    ensures var n := |points|;
      PathLength(geo, points)
      == PathLength(geo, points[..n - 1]) + Counted(geo.distance(points[n - 2], points[n - 1]))
  {
    var n := |points|;
    var d := geo.distance(points[n - 2], points[n - 1]);
    var before := Steps(geo, points[..n - 1]);
    assert CountsAsStep(d) ==> (before + [d])[..|before|] == before;
    assert before + [] == before;
  }

  lemma {:induction false} PathIsChain(geo: Geo, points: seq<Point>)
    ensures PathLength(geo, points) == Chain(StepLength(geo), points)
  {
    if |points| >= 2 {
      LastStep(geo, points);
      PathIsChain(geo, points[..|points| - 1]);
    }
  }

  /** Whatever a machine did during a pause, the straight line from the last worked fix before it to the
  first one after it is added to the path exactly when it is longer than 0.25 m and no longer than 500 m. */
  lemma StepAcrossPause(geo: Geo, a: seq<Fix>, p: Fix, idle: seq<Fix>, q: Fix, b: seq<Fix>, windows: seq<Interval>)
    requires Counts(p, windows) && Counts(q, windows)
    requires forall i :: 0 <= i < |idle| ==> IsPausedAt(idle[i].at, windows)
    ensures PathLength(geo, Points(a + [p] + idle + ([q] + b), windows))
         == PathLength(geo, Points(a + [p], windows))
            + Counted(geo.distance(p.position.value, q.position.value))
            + PathLength(geo, Points([q] + b, windows))
  {
    AcrossPause(a, p, idle, q, b, windows);
    PathAcross(geo, Points(a, windows), p.position.value, q.position.value, Points(b, windows));
  }

  lemma AcrossPause(a: seq<Fix>, p: Fix, idle: seq<Fix>, q: Fix, b: seq<Fix>, windows: seq<Interval>)
    requires Counts(p, windows) && Counts(q, windows)
    requires forall i :: 0 <= i < |idle| ==> IsPausedAt(idle[i].at, windows)
    ensures Points(a + [p], windows) == Points(a, windows) + [p.position.value]
    ensures Points([q] + b, windows) == [q.position.value] + Points(b, windows)
    ensures Points(a + [p] + idle + ([q] + b), windows)
         == (Points(a, windows) + [p.position.value]) + ([q.position.value] + Points(b, windows))
  {
    EndsWith(a, p, windows);
    StartsWith(q, b, windows);
    IdleAddsNothing(a + [p], idle, windows);
    PointsAppend(a + [p] + idle, [q] + b, windows);
  }

  lemma IdleAddsNothing(a: seq<Fix>, idle: seq<Fix>, windows: seq<Interval>)
    requires forall i :: 0 <= i < |idle| ==> IsPausedAt(idle[i].at, windows)
    ensures Points(a + idle, windows) == Points(a, windows)
  {
    NothingCounts(idle, windows);
    PointsAppend(a, idle, windows);
    assert Points(a, windows) + [] == Points(a, windows);
  }

  lemma PathAcross(geo: Geo, a: seq<Point>, p: Point, q: Point, b: seq<Point>)
    ensures PathLength(geo, (a + [p]) + ([q] + b))
         == PathLength(geo, a + [p]) + Counted(geo.distance(p, q)) + PathLength(geo, [q] + b)
  {
    var before, after := a + [p], [q] + b;
    PathIsChain(geo, before);
    PathIsChain(geo, after);
    PathIsChain(geo, before + after);
    ChainSplits(StepLength(geo), before, after);
  }

  lemma EndsWith(a: seq<Fix>, p: Fix, windows: seq<Interval>)
    requires Counts(p, windows)
    ensures Points(a + [p], windows) == Points(a, windows) + [p.position.value]
  {
    assert (a + [p])[..|a|] == a;
  }

  lemma StartsWith(q: Fix, b: seq<Fix>, windows: seq<Interval>)
    requires Counts(q, windows)
    ensures Points([q] + b, windows) == [q.position.value] + Points(b, windows)
  {
    PointsAppend([q], b, windows);
    EndsWith([], q, windows);
    assert [] + [q] == [q];
  }

  // --- Polygon area ---

  datatype Vertex = Vertex(x: real, y: real)

  function Project(geo: Geo, p: Point): Vertex {
    Vertex(p.lon * METRES_PER_DEGREE * geo.cosine(p.lat), p.lat * METRES_PER_DEGREE)
  }

  function Projected(geo: Geo, points: seq<Point>): seq<Vertex> {
    seq(|points|, i requires 0 <= i < |points| => Project(geo, points[i]))
  }

  function Cross(a: Vertex, b: Vertex): real {
    a.x * b.y - b.x * a.y
  }

  /** Sum over the neighbours of a closed chain. */
  function Cycle<T>(f: (T, T) -> real, xs: seq<T>): real
    requires |xs| > 0
  {
    Chain(f, xs) + f(xs[|xs| - 1], xs[0])
  }

  function PolygonAreaHa(geo: Geo, points: seq<Point>): real {
    if |points| < 3 then 0.0 else Abs(Cycle(Cross, Projected(geo, points))) / 2.0 / 10000.0
  }

  /** Twice the signed area, neighbour by neighbour. */
  method ShoelaceSum(xy: seq<Vertex>) returns (twice: real)
    requires |xy| > 0
    ensures twice == Cycle(Cross, xy)
  {
    var n := |xy|;
    twice := 0.0;
    for i := 0 to n
      invariant i < n ==> twice == Chain(Cross, xy[..i + 1])
      invariant i == n ==> twice == Cycle(Cross, xy)
    {
      NextIndex(i, n);
      var a, b := xy[i], xy[(i + 1) % n];
      if i + 1 < n {
        assert xy[..i + 2][..i + 1] == xy[..i + 1];
      } else {
        assert xy[..i + 1] == xy;
      }
      twice := twice + Cross(a, b);
    }
  }

  lemma NextIndex(i: nat, n: nat)
    requires i < n
    ensures (i + 1) % n == if i + 1 < n then i + 1 else 0
  {
  }

  method PolygonArea(geo: Geo, points: seq<Point>) returns (ha: real)
    ensures ha == PolygonAreaHa(geo, points)
  {
    if |points| < 3 {
      return 0.0;
    }
    var xy: seq<Vertex> := [];
    for i := 0 to |points|
      invariant xy == Projected(geo, points[..i])
    {
      xy := xy + [Project(geo, points[i])];
    }
    assert points[..|points|] == points;
    var twice := ShoelaceSum(xy);
    ha := Abs(twice) / 2.0 / 10000.0;
  }

  /** Where along the track the first fix was taken does not matter. */
  lemma PolygonAreaRotates(geo: Geo, a: seq<Point>, b: seq<Point>)
    ensures PolygonAreaHa(geo, a + b) == PolygonAreaHa(geo, b + a)
  {
    var u, v := Projected(geo, a), Projected(geo, b);
    assert Projected(geo, a + b) == u + v && Projected(geo, b + a) == v + u;
    if |a| > 0 && |b| > 0 {
      ChainSplits(Cross, u, v);
      ChainSplits(Cross, v, u);
    } else {
      assert a + b == b + a;
    }
  }

  function Reversed<T>(xs: seq<T>): (r: seq<T>)
    ensures |r| == |xs| && forall i :: 0 <= i < |xs| ==> r[i] == xs[|xs| - 1 - i]
  {
    if xs == [] then [] else Reversed(xs[1..]) + [xs[0]]
  }

  ghost predicate Antisymmetric<T(!new)>(f: (T, T) -> real) {
    forall a: T, b: T :: f(a, b) == -f(b, a)
  }

  lemma {:induction false} CycleReverses<T(!new)>(f: (T, T) -> real, xs: seq<T>)
    requires Antisymmetric(f) && |xs| > 0
    ensures Chain(f, Reversed(xs)) == -Chain(f, xs) && Cycle(f, Reversed(xs)) == -Cycle(f, xs)
  {
    if |xs| >= 2 {
      CycleReverses(f, xs[1..]);
      ChainSplits(f, Reversed(xs[1..]), [xs[0]]);
      ChainSplits(f, [xs[0]], xs[1..]);
      assert [xs[0]] + xs[1..] == xs;
    }
  }

  /** The signed area changes its sign with the direction of travel. */
  lemma ShoelaceReverses(geo: Geo, points: seq<Point>)
    requires |points| > 0
    ensures Cycle(Cross, Projected(geo, Reversed(points))) == -Cycle(Cross, Projected(geo, points))
  {
    assert Projected(geo, Reversed(points)) == Reversed(Projected(geo, points));
    CrossIsAntisymmetric();
    CycleReverses(Cross, Projected(geo, points));
  }

  lemma CrossIsAntisymmetric()
    ensures Antisymmetric(Cross)
  {
  }

  /** Driving the same track backwards encloses the same area. */
  lemma PolygonAreaReverses(geo: Geo, points: seq<Point>)
    ensures PolygonAreaHa(geo, Reversed(points)) == PolygonAreaHa(geo, points)
  {
    if |points| >= 3 {
      ShoelaceReverses(geo, points);
    }
  }

  /** Twice the signed area of the triangle from `a` over `b` to `c`. */
  function Turn(a: Vertex, b: Vertex, c: Vertex): real {
    (b.x - a.x) * (c.y - a.y) - (c.x - a.x) * (b.y - a.y)
  }

  lemma TriangleArea(a: Vertex, b: Vertex, c: Vertex)
    ensures Cycle(Cross, [a, b, c]) == Turn(a, b, c)
  {
    var start, whole := [a, b], [a, b, c];
    assert whole[..2] == start;
    assert Chain(Cross, start) == Cross(a, b);
  }

  /** Cutting a polygon along a diagonal cuts its area in two: with triangles this fixes every area. */
  lemma AreaCutsAlongDiagonal(a: seq<Vertex>, b: seq<Vertex>)
    requires |a| > 0 && |b| > 0
    ensures Cycle(Cross, a + b) == Cycle(Cross, a) + Cycle(Cross, [a[|a| - 1]] + b + [a[0]])
  {
    var p, q := a[0], a[|a| - 1];
    ChainSplits(Cross, a, b);
    ChainSplits(Cross, [q], b);
    ChainSplits(Cross, [q] + b, [p]);
    CrossIsAntisymmetric();
    assert Cross(q, p) == -Cross(p, q);
  }

  /** Three fixes, two of them on one latitude: half the base times the height, in hectares. */
  lemma TriangleHa(geo: Geo, p: Point, q: Point, r: Point)
    requires p.lat == q.lat
    ensures PolygonAreaHa(geo, [p, q, r])
         == Abs((q.lon - p.lon) * 111320.0 * geo.cosine(p.lat)) * Abs((r.lat - p.lat) * 111320.0) / 20000.0
  {
    var a, b, c := Project(geo, p), Project(geo, q), Project(geo, r);
    assert Projected(geo, [p, q, r]) == [a, b, c];
    TriangleArea(a, b, c);
    EastWest(p.lon, q.lon, geo.cosine(p.lat));
    FlatTurn(a, b, c, (q.lon - p.lon) * 111320.0 * geo.cosine(p.lat), (r.lat - p.lat) * 111320.0);
  }

  lemma FlatTurn(a: Vertex, b: Vertex, c: Vertex, base: real, height: real)
    requires a.y == b.y && b.x - a.x == base && c.y - a.y == height
    ensures Abs(Turn(a, b, c)) == Abs(base) * Abs(height)
  {
    assert Turn(a, b, c) == base * height;
    AbsOfProduct(base, height);
  }

  lemma EastWest(from: real, to: real, cosine: real)
    ensures to * METRES_PER_DEGREE * cosine - from * METRES_PER_DEGREE * cosine
         == (to - from) * METRES_PER_DEGREE * cosine
  {
  }

  lemma AbsOfProduct(x: real, y: real)
    ensures Abs(x * y) == Abs(x) * Abs(y)
  {
    if x < 0.0 {
      Scale(-x, 0.0, Abs(y));
    } else {
      Scale(x, 0.0, Abs(y));
    }
  }

  /** An out-and-back track encloses nothing. */
  lemma OutAndBackEnclosesNothing(geo: Geo, points: seq<Point>)
    requires Reversed(points) == points
    ensures PolygonAreaHa(geo, points) == 0.0
  {
    if |points| >= 3 {
      ShoelaceReverses(geo, points);
    }
  }

  // --- Area that is stored and billed ---

  function SwathHa(path: real, width: real): real {
    path * width / 10000.0
  }

  /** Path length times width; the enclosed polygon when the width is unknown. */
  function CoveredAreaHa(geo: Geo, points: seq<Point>, width: Option<real>): real {
    if width.None? || width.value <= 0.0 then PolygonAreaHa(geo, points)
    else if |points| < 2 then 0.0
    else SwathHa(PathLength(geo, points), width.value)
  }

  /** Area in 10^-4 ha, never negative, ties to even. */
  function Quantized(ha: real): (area: nat)
    ensures ha >= 0.0 ==> -0.00005 <= area as real / 10000.0 - ha <= 0.00005
    ensures ha <= 0.0 ==> area == 0
  {
    HalfEven((if ha > 0.0 then ha else 0.0) * 10000.0)
  }

  /** What a session's area is set to. */
  function StoredArea(geo: Geo, rows: seq<Fix>, windows: seq<Interval>, width: Option<real>): nat {
    Quantized(CoveredAreaHa(geo, Points(rows, windows), width))
  }

  method FinalizeArea(geo: Geo, rows: seq<Fix>, windows: seq<Interval>, width: Option<real>) returns (area: nat)
    ensures area == StoredArea(geo, rows, windows, width)
  {
    var points := ParseGpsPoints(rows, windows);
    var ha: real;
    if width.None? || width.value <= 0.0 {
      ha := PolygonArea(geo, points);
    } else if |points| < 2 {
      ha := 0.0;
    } else {
      var metres := TotalPathDistance(geo, points);
      ha := SwathHa(metres, width.value);
    }
    area := Quantized(ha);
  }

  /** Where every step counts the path is as long as the steps are together. */
  lemma {:induction false} PathOfCountedSteps(geo: Geo, points: seq<Point>)
    requires forall i :: 0 < i < |points| ==> 0.25 < geo.distance(points[i - 1], points[i]) <= 500.0
    ensures PathLength(geo, points) == Chain(geo.distance, points)
  {
    if |points| >= 2 {
      LastStep(geo, points);
      PathOfCountedSteps(geo, points[..|points| - 1]);
    }
  }

  /** With a known width the stored area, in square metres, is within half a one of width times worked path. */
  lemma StoredAreaIsSwath(geo: Geo, rows: seq<Fix>, windows: seq<Interval>, width: Option<real>, path: real)
    requires width.Some? && width.value > 0.0 && path == PathLength(geo, Points(rows, windows))
    ensures -0.5 <= StoredArea(geo, rows, windows, width) as real - path * width.value <= 0.5
  {
    StoredAreaNearSwath(geo, rows, windows, width, path);
    InSquareMetres(StoredArea(geo, rows, windows, width) as real, path * width.value, SwathHa(path, width.value));
  }

  lemma InSquareMetres(area: real, square: real, swath: real)
    requires swath == square / 10000.0 && -0.00005 <= area / 10000.0 - swath <= 0.00005
    ensures -0.5 <= area - square <= 0.5
  {
  }

  lemma StoredAreaNearSwath(geo: Geo, rows: seq<Fix>, windows: seq<Interval>, width: Option<real>, path: real)
    requires width.Some? && width.value > 0.0 && path == PathLength(geo, Points(rows, windows))
    ensures -0.00005 <= StoredArea(geo, rows, windows, width) as real / 10000.0 - SwathHa(path, width.value) <= 0.00005
  {
    var points := Points(rows, windows);
    StepsAreBounded(geo, points);
    SwathNonNegative(path, width.value);
    assert |points| < 2 ==> path == 0.0;
    assert CoveredAreaHa(geo, points, width) == SwathHa(path, width.value);
  }

  /** Without one it reconciles with the polygon the unpaused fixes enclose. */
  lemma StoredAreaIsPolygon(geo: Geo, rows: seq<Fix>, windows: seq<Interval>, width: Option<real>)
    requires width.None? || width.value <= 0.0
    ensures var ha := PolygonAreaHa(geo, Points(rows, windows));
      ha >= 0.0 && -0.00005 <= StoredArea(geo, rows, windows, width) as real / 10000.0 - ha <= 0.00005
  {
  }

  lemma SwathNonNegative(path: real, width: real)
    requires path >= 0.0 && width > 0.0
    ensures SwathHa(path, width) >= 0.0 && (path == 0.0 ==> SwathHa(path, width) == 0.0)
  {
  }
}
