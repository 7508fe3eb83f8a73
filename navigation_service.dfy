/** The navigation planner: a fixed table of nine routes from the basecamp to
    three destinations, one per route preference; the active route scaled to the
    map, its length, distance and walking time, and turn-by-turn guidance. */
module Navigation {
  import opened Common
  import opened NavigationModels

  const StartA1: MapPoint := MapPoint("A1", "Basecamp A1", 0.60, 0.66)
  const S1: MapPoint := MapPoint("S1", "Forest Ridge", 0.53, 0.26)
  const S2: MapPoint := MapPoint("S2", "North Gate", 0.10, 0.22)
  const S3: MapPoint := MapPoint("S3", "East Dunes", 0.72, 0.54)

  /** The map size the planner starts with. */
  const InitialSize: Size := Size(1600, 1067)

  type RouteKey = (string, RoutePreference)

  /** The routes, as fractions of the map size, keyed by destination id and preference. */
  function RouteTable(): map<RouteKey, seq<PointF>>
  {
    map[
      ("S1", Recommended) := [PointF(0.60, 0.66), PointF(0.58, 0.62), PointF(0.55, 0.58), PointF(0.51, 0.52),
                              PointF(0.49, 0.47), PointF(0.50, 0.40), PointF(0.52, 0.34), PointF(0.53, 0.29),
                              PointF(0.53, 0.26)],
      ("S1", Balanced) := [PointF(0.60, 0.66), PointF(0.56, 0.62), PointF(0.52, 0.58), PointF(0.48, 0.56),
                           PointF(0.47, 0.50), PointF(0.48, 0.44), PointF(0.50, 0.38), PointF(0.52, 0.31),
                           PointF(0.53, 0.26)],
      ("S1", Fastest) := [PointF(0.60, 0.66), PointF(0.63, 0.66), PointF(0.69, 0.63), PointF(0.73, 0.60),
                          PointF(0.76, 0.56), PointF(0.72, 0.52), PointF(0.66, 0.46), PointF(0.60, 0.40),
                          PointF(0.56, 0.33), PointF(0.53, 0.26)],
      ("S2", Recommended) := [PointF(0.60, 0.66), PointF(0.50, 0.60), PointF(0.40, 0.52), PointF(0.28, 0.40),
                              PointF(0.18, 0.30), PointF(0.10, 0.22)],
      ("S2", Balanced) := [PointF(0.60, 0.66), PointF(0.54, 0.56), PointF(0.46, 0.48), PointF(0.34, 0.38),
                           PointF(0.22, 0.30), PointF(0.10, 0.22)],
      ("S2", Fastest) := [PointF(0.60, 0.66), PointF(0.48, 0.60), PointF(0.32, 0.48), PointF(0.18, 0.34),
                          PointF(0.10, 0.22)],
      ("S3", Recommended) := [PointF(0.60, 0.66), PointF(0.63, 0.62), PointF(0.66, 0.58), PointF(0.69, 0.56),
                              PointF(0.72, 0.54)],
      ("S3", Balanced) := [PointF(0.60, 0.66), PointF(0.62, 0.60), PointF(0.66, 0.56), PointF(0.70, 0.54),
                           PointF(0.72, 0.54)],
      ("S3", Fastest) := [PointF(0.60, 0.66), PointF(0.66, 0.60), PointF(0.70, 0.56), PointF(0.72, 0.54)]
    ]
  }

  /** The three destinations. */
  predicate IsDestination(p: MapPoint)
  {
    p == S1 || p == S2 || p == S3
  }

  /** A route from the basecamp to `dest`: at least two points, the first at the
      basecamp and the last at the destination. */
  predicate RouteFromTo(route: seq<PointF>, dest: MapPoint)
  {
    |route| >= 2 && route[0] == PointF(StartA1.x, StartA1.y) && route[|route| - 1] == PointF(dest.x, dest.y)
  }

  /** The table holds a route for each of the nine destination and preference
      pairs, each from the basecamp to its destination, and nothing else. */
  lemma {:induction false} RouteTableComplete(dest: MapPoint, pref: RoutePreference)
    requires IsDestination(dest)
    ensures (dest.id, pref) in RouteTable()
    ensures RouteFromTo(RouteTable()[(dest.id, pref)], dest)
    ensures |RouteTable().Keys| == 9
  {
    var t := RouteTable();
    assert t.Keys == {("S1", Recommended), ("S1", Balanced), ("S1", Fastest),
                      ("S2", Recommended), ("S2", Balanced), ("S2", Fastest),
                      ("S3", Recommended), ("S3", Balanced), ("S3", Fastest)};
  }

  // ------------------------------------------------------------ scaling

  /** Each route point scaled to pixels on a map of the given size. */
  function ScalePath(norm: seq<PointF>, size: Size): (r: seq<PointF>)
    ensures |r| == |norm|
    ensures forall i :: 0 <= i < |norm| ==>
      r[i] == Scale(norm[i], size)
  {
    if norm == [] then []
    else [Scale(norm[0], size)] + ScalePath(norm[1..], size)
  }

  // ------------------------------------------------------------- length

  /** Math.Sqrt is taken as a parameter; it is only known to give a non-negative
      result for a non-negative argument. */
  ghost predicate SqrtNonNeg(sqrt: real -> real)
  {
    forall x :: 0.0 <= x ==> 0.0 <= sqrt(x)
  }

  /** The pixel length of the segment from a to b. */
  function SegmentLength(a: PointF, b: PointF, size: Size, sqrt: real -> real): real
  {
    sqrt(SumOfSquares(Span(a.x, b.x, size.width), Span(a.y, b.y, size.height)))
  }

  /** The pixel extent of a step between two map fractions. */
  function Span(from: real, to: real, pixels: int): real
  {
    (to - from) * pixels as real
  }

  function SumOfSquares(dx: real, dy: real): real
  {
    dx * dx + dy * dy
  }

  /** The sum of the first n - 1 segment lengths, that is, of the path up to point n - 1. */
  function LengthUpTo(norm: seq<PointF>, n: nat, size: Size, sqrt: real -> real): real
    requires n <= |norm|
  {
    if n <= 1 then 0.0 else LengthUpTo(norm, n - 1, size, sqrt) + SegmentLength(norm[n - 2], norm[n - 1], size, sqrt)
  }

  /** A path's pixel length is never negative. */
  lemma {:induction false} LengthNonNegative(norm: seq<PointF>, n: nat, size: Size, sqrt: real -> real)
    requires n <= |norm| && SqrtNonNeg(sqrt)
    ensures LengthUpTo(norm, n, size, sqrt) >= 0.0
  {
    if n > 1 {
      LengthNonNegative(norm, n - 1, size, sqrt);
      var dx := Span(norm[n - 2].x, norm[n - 1].x, size.width);
      var dy := Span(norm[n - 2].y, norm[n - 1].y, size.height);
      SquareNonNegative(dx);
      SquareNonNegative(dy);
    }
  }

  lemma SquareNonNegative(x: real)
    ensures x * x >= 0.0
  {
    if x < 0.0 {
      assert x * x == (-x) * (-x);
    }
  }

  // ----------------------------------------------------------- guidance

  /** Math.Atan2 is taken as a parameter; it is only known to give an angle in [-pi, pi]. */
  ghost predicate AtanInRange(atan2: (real, real) -> real)
  {
    forall y, x :: -Pi <= atan2(y, x) <= Pi
  }

  /** The heading from a to b. */
  function Heading(a: PointF, b: PointF, atan2: (real, real) -> real): real
  {
    atan2(b.y - a.y, b.x - a.x)
  }

  /** The two normalisation loops on a difference of two headings: each runs at
      most once and the result lies in [-pi, pi]. */
  function Normalize(d: real): (r: real)
    requires -2.0 * Pi <= d <= 2.0 * Pi
    ensures -Pi <= r <= Pi
    ensures -Pi <= d <= Pi ==> r == d
    ensures r == d || r == d - 2.0 * Pi || r == d + 2.0 * Pi
  {
    var d1 := if d > Pi then d - 2.0 * Pi else d;
    if d1 < -Pi then d1 + 2.0 * Pi else d1
  }

  /** A turn of more than 0.35 rad is to the left, of less than -0.35 to the
      right, and anything in between is straight on. */
  function TurnOf(d: real): Turn
  {
    if d > 0.35 then Left else if d < -0.35 then Right else Straight
  }

  /** The turn at b when walking from a through b to c. */
  function TurnFor(a: PointF, b: PointF, c: PointF, atan2: (real, real) -> real): Turn
    requires AtanInRange(atan2)
  {
    TurnOf(Normalize(Heading(b, c, atan2) - Heading(a, b, atan2)))
  }

  /** The instruction at interior vertex i of the route. */
  function TurnAt(norm: seq<PointF>, i: nat, atan2: (real, real) -> real): Guidance
    requires 1 <= i < |norm| - 1 && AtanInRange(atan2)
  {
    TurnInto(TurnFor(norm[i - 1], norm[i], norm[i + 1], atan2))
  }

  /** The instructions at interior vertices 1 .. i - 1. */
  function TurnsUpTo(norm: seq<PointF>, i: nat, atan2: (real, real) -> real): (r: seq<Guidance>)
    requires 1 <= i <= |norm| - 1 && AtanInRange(atan2)
    ensures |r| == i - 1
    ensures forall k :: 0 <= k < i - 1 ==> r[k] == TurnAt(norm, k + 1, atan2)
  {
    if i == 1 then [] else TurnsUpTo(norm, i - 1, atan2) + [TurnAt(norm, i - 1, atan2)]
  }

  /** BuildGuidance as a value: the start message, one instruction per interior
      vertex, and the arrival message. */
  function GuidanceSpec(norm: seq<PointF>, atan2: (real, real) -> real): seq<Guidance>
    requires AtanInRange(atan2)
  {
    [Depart] + (if |norm| >= 2 then TurnsUpTo(norm, |norm| - 1, atan2) else []) + [Arrive]
  }

  /** For a route of n >= 2 points the guidance has exactly n lines: the start
      message first, the arrival message last and the instruction for vertex i at
      position i; a shorter route still gets the two messages. */
  lemma {:induction false} GuidanceShape(norm: seq<PointF>, atan2: (real, real) -> real)
    requires AtanInRange(atan2)
    ensures |GuidanceSpec(norm, atan2)| == MaxInt(|norm|, 2)
    ensures GuidanceSpec(norm, atan2)[0] == Depart
    ensures GuidanceSpec(norm, atan2)[|GuidanceSpec(norm, atan2)| - 1] == Arrive
    ensures forall i :: 1 <= i < |norm| - 1 ==> GuidanceSpec(norm, atan2)[i] == TurnAt(norm, i, atan2)
  {
    var g := GuidanceSpec(norm, atan2);
    if |norm| >= 2 {
      var t := TurnsUpTo(norm, |norm| - 1, atan2);
      assert g == [Depart] + t + [Arrive];
      forall i | 1 <= i < |norm| - 1
        ensures g[i] == TurnAt(norm, i, atan2)
      {
        assert g[i] == t[i - 1];
      }
    } else {
      assert g == [Depart, Arrive];
    }
  }

  // ---------------------------------------------------------- recompute

  /** RecomputePath as a value: with a route for the destination and preference,
      the scaled path, half its pixel length as meters, meters / 1.2 as seconds,
      and the guidance; without one, nothing changes. */
  function RecomputeSpec(v: NavView, routes: map<RouteKey, seq<PointF>>, size: Size,
                         sqrt: real -> real, atan2: (real, real) -> real): NavView
    requires AtanInRange(atan2)
  {
    var key := (v.destination.id, v.preference);
    if key in routes then
      var norm := routes[key];
      var meters := LengthUpTo(norm, |norm|, size, sqrt) / 2.0;
      v.(path := ScalePath(norm, size), distanceM := meters, timeS := meters / 1.2,
         guidance := GuidanceSpec(norm, atan2))
    else v
  }

  /** After recomputing with a route from the basecamp to the destination, the
      path runs from the basecamp's pixel position to the destination's, with the
      route's number of points; the guidance has one line per point; the distance
      is not negative and the time is the distance at 1.2 m/s. Only path,
      guidance, distance and time change. */
  lemma {:induction false} RecomputeWithRoute(v: NavView, routes: map<RouteKey, seq<PointF>>, size: Size,
                                              sqrt: real -> real, atan2: (real, real) -> real)
    requires (v.destination.id, v.preference) in routes
    requires RouteFromTo(routes[(v.destination.id, v.preference)], v.destination)
    requires SqrtNonNeg(sqrt) && AtanInRange(atan2)
    ensures var r := RecomputeSpec(v, routes, size, sqrt, atan2);
      && |r.path| == |routes[(v.destination.id, v.preference)]|
      && r.path[0] == StartA1.ToPixel(size)
      && r.path[|r.path| - 1] == v.destination.ToPixel(size)
      && |r.guidance| == |r.path| && r.guidance[0] == Depart && r.guidance[|r.path| - 1] == Arrive
      && r.distanceM >= 0.0 && r.timeS == r.distanceM / 1.2
      && r == v.(path := r.path, guidance := r.guidance, distanceM := r.distanceM, timeS := r.timeS)
  {
    var route := routes[(v.destination.id, v.preference)];
    var r := RecomputeSpec(v, routes, size, sqrt, atan2);
    assert r.path == ScalePath(route, size);
    assert r.guidance == GuidanceSpec(route, atan2);
    assert r.path[0] == Scale(route[0], size) == StartA1.ToPixel(size);
    assert r.path[|r.path| - 1] == Scale(route[|route| - 1], size) == v.destination.ToPixel(size);
    GuidanceShape(route, atan2);
    LengthNonNegative(route, |route|, size, sqrt);
  }

  /** With the fixed table, every destination and preference has such a route. */
  lemma RecomputeShape(v: NavView, size: Size, sqrt: real -> real, atan2: (real, real) -> real)
    requires IsDestination(v.destination) && SqrtNonNeg(sqrt) && AtanInRange(atan2)
    ensures var r := RecomputeSpec(v, RouteTable(), size, sqrt, atan2);
      && |r.path| >= 2
      && r.path[0] == StartA1.ToPixel(size)
      && r.path[|r.path| - 1] == v.destination.ToPixel(size)
      && |r.guidance| == |r.path| && r.guidance[0] == Depart && r.guidance[|r.path| - 1] == Arrive
      && r.distanceM >= 0.0 && r.timeS == r.distanceM / 1.2
  {
    RouteTableComplete(v.destination, v.preference);
    RecomputeWithRoute(v, RouteTable(), size, sqrt, atan2);
  }

  /** Recomputing depends only on destination, preference and map size: two
      states that agree on those get the same path, guidance, distance and time. */
  lemma RecomputeDeterministic(v: NavView, w: NavView, size: Size, sqrt: real -> real, atan2: (real, real) -> real)
    requires IsDestination(v.destination) && AtanInRange(atan2)
    requires v.destination == w.destination && v.preference == w.preference
    ensures var r1 := RecomputeSpec(v, RouteTable(), size, sqrt, atan2);
      var r2 := RecomputeSpec(w, RouteTable(), size, sqrt, atan2);
      r1.path == r2.path && r1.guidance == r2.guidance && r1.distanceM == r2.distanceM && r1.timeS == r2.timeS
  {
    RouteTableComplete(v.destination, v.preference);
  }

  // -------------------------------------------------------- destination

  /** The destination SetDestination selects: S1, S2 or S3 by upper-cased id,
      and otherwise the current one. */
  function DestinationFor(id: string, current: MapPoint): MapPoint
  {
    var up := Upper(id);
    if up == "S1" then S1 else if up == "S2" then S2 else if up == "S3" then S3 else current
  }

  /** Ids are matched without regard to case, and any other id keeps the
      current destination. */
  lemma DestinationIgnoresCase(a: string, b: string, current: MapPoint)
    requires EqualsIgnoreCase(a, b)
    ensures DestinationFor(a, current) == DestinationFor(b, current)
    ensures DestinationFor("s1", current) == S1 && DestinationFor("s2", current) == S2
         && DestinationFor("s3", current) == S3
    ensures Upper(a) != "S1" && Upper(a) != "S2" && Upper(a) != "S3" ==> DestinationFor(a, current) == current
  {
    assert Upper("s1") == "S1";
    assert Upper("s2") == "S2";
    assert Upper("s3") == "S3";
  }

  // ------------------------------------------------------------ service

  class NavigationService {
    var state: NavigationState
    const routes: map<RouteKey, seq<PointF>>
    /** Every state StateChanged has been raised with, oldest first. */
    ghost var published: seq<NavView>

    /** The route table is the fixed one, the start is the basecamp and the
        destination one of the three. */
    ghost predicate Valid()
      reads this, state
    {
      routes == RouteTable() && state.start == StartA1 && IsDestination(state.destination)
    }

    /** Starts at the basecamp heading for S1 with the default settings, and
        recomputes for a 1600 x 1067 map. */
    constructor (sqrt: real -> real, atan2: (real, real) -> real)
      requires AtanInRange(atan2)
      ensures Valid() && fresh(state)
      ensures state.View() == RecomputeSpec(NavView(StartA1, S1, Recommended, true, true, true, [], [], 0.0, 0.0),
                                            RouteTable(), InitialSize, sqrt, atan2)
      ensures published == [state.View()]
    {
      state := new NavigationState(StartA1, S1);
      routes := RouteTable();
      published := [];
      new;
      RecomputePath(InitialSize, sqrt, atan2);
    }

    method SetDestination(destId: string, size: Size, sqrt: real -> real, atan2: (real, real) -> real)
      requires Valid() && AtanInRange(atan2)
      modifies this, state
      ensures Valid() && state == old(state)
      ensures state.View() == RecomputeSpec(old(state.View()).(destination := DestinationFor(destId, old(state.destination))),
                                            routes, size, sqrt, atan2)
      ensures published == old(published) + [state.View()]
    {
      var up := Upper(destId);
      state.destination := if up == "S1" then S1 else if up == "S2" then S2 else if up == "S3" then S3
                           else state.destination;
      RecomputePath(size, sqrt, atan2);
    }

    method SetPreference(pref: RoutePreference, size: Size, sqrt: real -> real, atan2: (real, real) -> real)
      requires Valid() && AtanInRange(atan2)
      modifies this, state
      ensures Valid() && state == old(state)
      ensures state.View() == RecomputeSpec(old(state.View()).(preference := pref), routes, size, sqrt, atan2)
      ensures published == old(published) + [state.View()]
    {
      state.preference := pref;
      RecomputePath(size, sqrt, atan2);
    }

    /** Sets each overlay flag that is given; nothing else changes. */
    method ToggleOverlays(showRoutes: Option<bool>, showPins: Option<bool>, showHazards: Option<bool>)
      requires Valid()
      modifies this, state
      ensures Valid() && state == old(state)
      ensures state.View() == old(state.View()).(
        showRoutes := if showRoutes.Some? then showRoutes.value else old(state.showRoutes),
        showPins := if showPins.Some? then showPins.value else old(state.showPins),
        showHazards := if showHazards.Some? then showHazards.value else old(state.showHazards))
      ensures published == old(published) + [state.View()]
    {
      if showRoutes.Some? {
        state.showRoutes := showRoutes.value;
      }
      if showPins.Some? {
        state.showPins := showPins.value;
      }
      if showHazards.Some? {
        state.showHazards := showHazards.value;
      }
      published := published + [state.View()];
    }

    method RescalePath(size: Size, sqrt: real -> real, atan2: (real, real) -> real)
      requires Valid() && AtanInRange(atan2)
      modifies this, state
      ensures Valid() && state == old(state)
      ensures state.View() == RecomputeSpec(old(state.View()), routes, size, sqrt, atan2)
      ensures published == old(published) + [state.View()]
    {
      RecomputePath(size, sqrt, atan2);
    }

    /** Looks the route up; when there is one, stores the scaled path, the
        length-based estimates and the guidance. Publishes either way. */
    method RecomputePath(size: Size, sqrt: real -> real, atan2: (real, real) -> real)
      requires AtanInRange(atan2)
      modifies this, state
      ensures state == old(state)
      ensures state.View() == RecomputeSpec(old(state.View()), routes, size, sqrt, atan2)
      ensures published == old(published) + [state.View()]
    {
      var key := (state.destination.id, state.preference);
      if key in routes {
        var norm := routes[key];
        var len := PathLength(norm, size, sqrt);
        var meters := len / 2.0;
        var seconds := meters / 1.2;
        var g := BuildGuidance(norm, atan2);
        state.SetRoute(ScalePath(norm, size), meters, seconds, g);
      }
      published := published + [state.View()];
    }
  }

  /** The pixel length of the path, summed segment by segment. */
  method PathLength(norm: seq<PointF>, size: Size, sqrt: real -> real) returns (len: real)
    ensures len == LengthUpTo(norm, |norm|, size, sqrt)
  {
    len := 0.0;
    var i := 1;
    while i < |norm|
      invariant 1 <= i
      invariant |norm| > 0 ==> i <= |norm| && len == LengthUpTo(norm, i, size, sqrt)
      invariant |norm| == 0 ==> len == 0.0
    {
      var a := norm[i - 1];
      var b := norm[i];
      var dx := Span(a.x, b.x, size.width);
      var dy := Span(a.y, b.y, size.height);
      assert LengthUpTo(norm, i + 1, size, sqrt) == len + SegmentLength(a, b, size, sqrt);
      len := len + sqrt(SumOfSquares(dx, dy));
      i := i + 1;
    }
  }

  /** The start message, then for each interior vertex the turn between the
      heading into it and the heading out of it, then the arrival message. */
  method BuildGuidance(norm: seq<PointF>, atan2: (real, real) -> real) returns (g: seq<Guidance>)
    requires AtanInRange(atan2)
    ensures g == GuidanceSpec(norm, atan2)
  {
    var list := [Depart];
    var i := 1;
    while i < |norm| - 1
      invariant 1 <= i <= MaxInt(|norm| - 1, 1)
      invariant list == [Depart] + (if |norm| >= 2 then TurnsUpTo(norm, i, atan2) else [])
    {
      var turn := TurnBetween(norm[i - 1], norm[i], norm[i + 1], atan2);
      list := list + [TurnInto(turn)];
      i := i + 1;
    }
    g := list + [Arrive];
  }

  /** The body of BuildGuidance's loop: the two headings, their difference
      brought into [-pi, pi] by the two normalisation loops, and the turn. */
  method TurnBetween(a: PointF, b: PointF, c: PointF, atan2: (real, real) -> real) returns (turn: Turn)
    requires AtanInRange(atan2)
    ensures turn == TurnFor(a, b, c, atan2)
  {
    var ang1 := atan2(b.y - a.y, b.x - a.x);
    var ang2 := atan2(c.y - b.y, c.x - b.x);
    var d := ang2 - ang1;
    ghost var d0 := d;
    while d > Pi
      invariant d == d0 || (d0 > Pi && d == d0 - 2.0 * Pi)
      decreases if d > Pi then 1 else 0
    {
      d := d - 2.0 * Pi;
    }
    ghost var d1 := d;
    while d < -Pi
      invariant d == d1 || (d1 < -Pi && d == d1 + 2.0 * Pi)
      decreases if d < -Pi then 1 else 0
    {
      d := d + 2.0 * Pi;
    }
    turn := if d > 0.35 then Left else if d < -0.35 then Right else Straight;
  }
}
