/** The navigation data model: map points, route preferences, guidance lines
    and the navigation state. */
module NavigationModels {

  datatype RoutePreference = Recommended | Balanced | Fastest

  /** A point of the map view; map points and route points are fractions of the
      map's width and height, pixel points are in pixels. */
  datatype PointF = PointF(x: real, y: real)

  /** System.Drawing.Size. */
  datatype Size = Size(width: int, height: int)

  /** A point given as fractions of the map size, in pixels on a map of the given
      size: on the map whenever the fractions are in [0, 1]. */
  function Scale(f: PointF, size: Size): (p: PointF)
    ensures 0.0 <= f.x && 0 <= size.width ==> 0.0 <= p.x
    ensures 0.0 <= f.y && 0 <= size.height ==> 0.0 <= p.y
    ensures f.x <= 1.0 && 0 <= size.width ==> p.x <= size.width as real
    ensures f.y <= 1.0 && 0 <= size.height ==> p.y <= size.height as real
  {
    PointF(f.x * size.width as real, f.y * size.height as real)
  }

  /** A named place, with its position as fractions of the map size. */
  datatype MapPoint = MapPoint(id: string, name: string, x: real, y: real)
  {
    /** The position in pixels on a map of the given size. */
    function ToPixel(size: Size): PointF
    {
      Scale(PointF(x, y), size)
    }
  }

  /** The kind of a turn instruction. */
  datatype Turn = Left | Right | Straight

  /** One guidance line: the start message, a turn instruction for the next
      path, or the arrival message. */
  datatype Guidance = Depart | TurnInto(turn: Turn) | Arrive

  /** The value form of a navigation state. `timeS` is EstimatedTime in seconds. */
  datatype NavView = NavView(
    start: MapPoint,
    destination: MapPoint,
    preference: RoutePreference,
    showRoutes: bool,
    showPins: bool,
    showHazards: bool,
    path: seq<PointF>,
    guidance: seq<Guidance>,
    distanceM: real,
    timeS: real)

  /** The navigation state. The path list and guidance array are always replaced
      as a whole, so they are held as sequences. */
  class NavigationState {
    var start: MapPoint
    var destination: MapPoint
    var preference: RoutePreference
    var showRoutes: bool
    var showPins: bool
    var showHazards: bool
    var activePathPixels: seq<PointF>
    var guidance: seq<Guidance>
    var estimatedDistanceM: real
    var estimatedTimeS: real

    function View(): NavView
      reads this
    {
      NavView(start, destination, preference, showRoutes, showPins, showHazards,
              activePathPixels, guidance, estimatedDistanceM, estimatedTimeS)
    }

    /** A new state with the given start and destination and the defaults:
        preference Recommended, all three overlays shown, no path, no guidance,
        zero distance and time. */
    constructor (start: MapPoint, destination: MapPoint)
      ensures View() == NavView(start, destination, Recommended, true, true, true, [], [], 0.0, 0.0)
    {
      this.start := start;
      this.destination := destination;
      preference := Recommended;
      showRoutes := true;
      showPins := true;
      showHazards := true;
      activePathPixels := [];
      guidance := [];
      estimatedDistanceM := 0.0;
      estimatedTimeS := 0.0;
    }

    /** A state object holding the given values. */
    constructor FromView(v: NavView)
      ensures View() == v
    {
      start := v.start;
      destination := v.destination;
      preference := v.preference;
      showRoutes := v.showRoutes;
      showPins := v.showPins;
      showHazards := v.showHazards;
      activePathPixels := v.path;
      guidance := v.guidance;
      estimatedDistanceM := v.distanceM;
      estimatedTimeS := v.timeS;
    }

    /** The results of a recompute: the pixel path, the estimates and the guidance. */
    method SetRoute(path: seq<PointF>, distanceM: real, timeS: real, lines: seq<Guidance>)
      modifies this
      ensures View() == old(View()).(path := path, distanceM := distanceM, timeS := timeS, guidance := lines)
    {
      activePathPixels := path;
      estimatedDistanceM := distanceM;
      estimatedTimeS := timeS;
      guidance := lines;
    }

    /** A new state with every field copied, and fresh copies of the path list
        and the guidance array. */
    method Clone() returns (c: NavigationState)
      ensures fresh(c)
      ensures c.View() == View()
    {
      c := new NavigationState.FromView(View());
    }
  }
}
