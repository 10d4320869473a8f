/**
 * The two-point map overlay: `mapDrawables` rebuilds the overlay list of the
 * map view for a pair of pins, and `DistanceOverlay.draw` renders the
 * distance label along the line between them.
 */
module MapOverlays {
  import opened Optional
  import opened KotlinNumbers
  import opened LocationRecord
  import opened LocationUtils

  /** `POLYLINE_WIDTH` */
  const PolylineWidth: real := 1.0

  /** The zoom used when only one point is shown. */
  const SinglePointZoom: real := 10.0

  /** The two marker icons (`R.drawable.redmarker`, `R.drawable.bluemarker`). */
  datatype PinColour = Red | Blue

  /** `DistanceOverlay`: its three properties are immutable, so it is a value. */
  datatype DistanceOverlay = DistanceOverlay(start: GeoPoint, end: GeoPoint, text: string)

  /** The overlays the map view may hold. */
  datatype Overlay =
    | MarkerOverlay(position: GeoPoint, title: string, pin: PinColour)
    | LineOverlay(points: seq<GeoPoint>, geodesic: bool, width: real)
    | LabelOverlay(distanceOverlay: DistanceOverlay)

  /** The map view, observed through its mutable overlay list. */
  class MapView {
    var overlays: seq<Overlay>

    constructor ()
      ensures overlays == []
    {
      overlays := [];
    }

    method Clear()
      modifies this
      ensures overlays == []
    {
      overlays := [];
    }

    method Add(overlay: Overlay)
      modifies this
      ensures overlays == old(overlays) + [overlay]
    {
      overlays := overlays + [overlay];
    }
  }

  /** The `markers` state list shared by the screen: points are only ever appended. */
  class MarkerList {
    var points: seq<GeoPoint>

    constructor ()
      ensures points == []
    {
      points := [];
    }

    method Add(point: GeoPoint)
      modifies this
      ensures points == old(points) + [point]
    {
      points := points + [point];
    }
  }

  /** How `mapDrawables` ends: normally, or with the `NullPointerException` of a `!!`. */
  datatype Outcome = Completed | NullDereference

  /** The point of a pin, when both of its coordinates are set. */
  function PointOf(loc: LocationValue): (p: Option<GeoPoint>)
    ensures p.Some? <==> loc.latitude.Some? && loc.longitude.Some?
    ensures p.Some? ==> p.value.latitude == loc.latitude.value && p.value.longitude == loc.longitude.value
  {
    if loc.latitude.Some? && loc.longitude.Some? then Some(GeoPoint(loc.latitude.value, loc.longitude.value))
    else None
  }

  /**
   * The guard of the second-point branch as written,
   * `b.latitude != null || b.longitude != null && isSource`,
   * where `&&` binds tighter than `||`.
   */
  function SecondPointGuard(b: LocationValue, isSource: bool): (taken: bool)
    // a pin with a point always takes the branch; one with no coordinate never does
    ensures PointOf(b).Some? ==> taken
    ensures b.latitude.None? && b.longitude.None? ==> !taken
    // for the target pin only the latitude is tested; for the source pin, either coordinate
    ensures !isSource ==> (taken <==> b.latitude.Some?)
    ensures isSource ==> (taken <==> b.latitude.Some? || b.longitude.Some?)
  {
    b.latitude.Some? || (b.longitude.Some? && isSource)
  }

  /** The icon of the pin being placed (`a`) and of the other pin (`b`). */
  function PinFor(isSource: bool): PinColour
  {
    if isSource then Red else Blue
  }

  function OtherPin(pin: PinColour): PinColour
  {
    if pin == Red then Blue else Red
  }

  /** The marker `placeMarker` adds: the pin's point, titled with its search name. */
  function MarkerFor(point: GeoPoint, loc: LocationValue, pin: PinColour): Overlay
  {
    MarkerOverlay(point, loc.searchName, pin)
  }

  /**
   * `placeMarker`: appends one marker for `point` to the view's overlays.
   * Fetching the icon dereferences `mapView.value!!`, so a null view fails.
   */
  method PlaceMarker(view: MapView?, point: GeoPoint, loc: LocationValue, pin: PinColour)
    returns (outcome: Outcome)
    modifies view
    ensures view == null ==> outcome == NullDereference
    ensures view != null ==>
              && outcome == Completed
              && |view.overlays| == |old(view.overlays)| + 1
              && view.overlays[..|old(view.overlays)|] == old(view.overlays)
              && view.overlays[|old(view.overlays)|] == MarkerOverlay(point, loc.searchName, pin)
  {
    if view == null {
      return NullDereference;
    }
    view.Add(MarkerFor(point, loc, pin));
    return Completed;
  }

  /**
   * The guard agrees with "both coordinates of b are set" whenever b's two
   * coordinates are both set or both null, which is how the screen creates pins.
   */
  lemma GuardAgreesOnPairedCoordinates(b: LocationValue, isSource: bool)
    requires b.latitude.Some? <==> b.longitude.Some?
    ensures SecondPointGuard(b, isSource) <==> PointOf(b).Some?
  {
  }

  /** The guard lets a missing longitude through, and reads the longitude only for the source pin. */
  lemma GuardQuirks(lat: real, lon: real)
    ensures SecondPointGuard(LocationValue(Some(lat), None, "", "", ""), false)
    ensures PointOf(LocationValue(Some(lat), None, "", "", "")).None?
    ensures SecondPointGuard(LocationValue(None, Some(lon), "", "", ""), true)
    ensures !SecondPointGuard(LocationValue(None, Some(lon), "", "", ""), false)
  {
  }

  /**
   * `mapDrawables`. `view` and `controller` are the (nullable) map view and
   * controller states; `distanceTo` is the map library's geodesic distance in
   * metres, `midPointOf` is `calculateMidPoint`, and `formatKm` is the
   * `"%.2f km"` formatting of the distance in kilometres.
   */
  method MapDrawables(controller: MapController?, view: MapView?, markers: MarkerList,
                      a: Location, b: Location, isSource: bool,
                      distanceTo: (GeoPoint, GeoPoint) -> real,
                      midPointOf: (real, real, real, real) -> GeoPoint,
                      formatKm: real -> string)
    returns (outcome: Outcome)
    modifies controller, view, markers
    // a lacks a coordinate: the overlays are cleared and nothing else happens
    ensures PointOf(a.Value()).None? ==>
              && outcome == Completed
              && (view != null ==> view.overlays == [])
              && markers.points == old(markers.points)
              && (controller != null ==> controller.calls == old(controller.calls))
    // otherwise a's point is appended to the markers first
    ensures PointOf(a.Value()).Some? && view == null ==>
              && outcome == NullDereference
              && markers.points == old(markers.points) + [PointOf(a.Value()).value]
              && (controller != null ==> controller.calls == old(controller.calls))
    ensures PointOf(a.Value()).Some? && view != null ==>
              var aPoint, aPin := PointOf(a.Value()).value, PinFor(isSource);
              if !SecondPointGuard(b.Value(), isSource) then
                // one point: its marker, zoom 10 centred on it
                && outcome == Completed
                && view.overlays == [MarkerFor(aPoint, a.Value(), aPin)]
                && markers.points == old(markers.points) + [aPoint]
                && (controller != null ==>
                      controller.calls == old(controller.calls) +
                        [ControllerCall.SetZoom(SinglePointZoom), ControllerCall.AnimateTo(aPoint)])
              else if PointOf(b.Value()).None? then
                // the branch was taken with a null coordinate of b: `!!` fails
                && outcome == NullDereference
                && view.overlays == [MarkerFor(aPoint, a.Value(), aPin)]
                && markers.points == old(markers.points) + [aPoint]
                && (controller != null ==> controller.calls == old(controller.calls))
              else
                // two points: marker, line, distance label, marker; then adjustZoom
                var bPoint := PointOf(b.Value()).value;
                && view.overlays == [MarkerFor(aPoint, a.Value(), aPin),
                                     LineOverlay([aPoint, bPoint], true, PolylineWidth),
                                     LabelOverlay(DistanceOverlay(aPoint, bPoint,
                                                                  formatKm(distanceTo(aPoint, bPoint) / 1000.0))),
                                     MarkerFor(bPoint, b.Value(), OtherPin(aPin))]
                && markers.points == old(markers.points) + [aPoint, bPoint]
                && outcome == (if controller == null then NullDereference else Completed)
                && (controller != null ==>
                      controller.calls == old(controller.calls) +
                        [ControllerCall.SetZoom(ZoomForDistance(distanceTo(aPoint, bPoint))),
                         ControllerCall.AnimateTo(midPointOf(aPoint.latitude, aPoint.longitude,
                                                             bPoint.latitude, bPoint.longitude))])
  {
    if view != null {
      view.Clear();
    }
    if a.latitude.None? || a.longitude.None? {
      return Completed;
    }
    var aPoint := GeoPoint(a.latitude.value, a.longitude.value);
    markers.Add(aPoint);
    outcome := PlaceMarker(view, aPoint, a.Value(), PinFor(isSource));
    if outcome == NullDereference {
      return;
    }

    if b.latitude.Some? || (b.longitude.Some? && isSource) {
      if b.latitude.None? || b.longitude.None? {
        // `GeoPoint(bLocation.latitude!!, bLocation.longitude!!)`
        return NullDereference;
      }
      var bPoint := GeoPoint(b.latitude.value, b.longitude.value);
      view.Add(LineOverlay([aPoint, bPoint], true, PolylineWidth));
      var distanceKm := distanceTo(aPoint, bPoint) / 1000.0;
      view.Add(LabelOverlay(DistanceOverlay(aPoint, bPoint, formatKm(distanceKm))));
      markers.Add(bPoint);
      outcome := PlaceMarker(view, bPoint, b.Value(), OtherPin(PinFor(isSource)));
      if controller == null {
        // `mapController.value!!`
        return NullDereference;
      }
      var _ := AdjustZoom(controller, aPoint, bPoint, distanceTo, midPointOf);
    } else if controller != null {
      controller.SetZoom(SinglePointZoom);
      controller.AnimateTo(aPoint);
    }
    return Completed;
  }

  // ----- DistanceOverlay.draw -----

  /** A screen position in pixels, as returned by the projection (`Point` of `Int`s). */
  datatype Pixel = Pixel(x: Int32, y: Int32)

  /**
   * The two paints of the label: the border paint strokes a black outline
   * (stroke width 8), the text paint fills green; both centred, size 30.
   */
  datatype Paint = BorderPaint | TextPaint

  datatype CanvasOp =
    | Save
    | Rotate(degrees: real, px: real, py: real)
    | DrawText(text: string, x: real, y: real, paint: Paint)
    | Restore

  /** The drawing surface, observed through the operations issued on it. */
  class Canvas {
    var ops: seq<CanvasOp>

    constructor ()
      ensures ops == []
    {
      ops := [];
    }

    method Issue(op: CanvasOp)
      modifies this
      ensures ops == old(ops) + [op]
    {
      ops := ops + [op];
    }
  }

  /**
   * The label anchor on one axis, `(p + q) / 2` on Kotlin `Int`s: the sum
   * wraps around on overflow and the division rounds toward zero.
   */
  function Midpoint(p: Int32, q: Int32): (m: Int32)
    ensures IsInt32(p + q) ==> (p <= q ==> p <= m <= q) && (q <= p ==> q <= m <= p)
    ensures IsInt32(p + q) && p + q >= 0 ==> 0 <= p + q - 2 * m <= 1
    ensures IsInt32(p + q) && p + q < 0 ==> -1 <= p + q - 2 * m <= 0
  {
    HalfTowardZero(WrapInt(p + q))
  }

  /** Rounding toward zero: the anchor of -3 and 0 is -1 (Dafny's `/` would give -2). */
  lemma MidpointRoundsTowardZero()
    ensures Midpoint(-3, 0) == -1
    ensures Midpoint(3, 0) == 1
  {
  }

  /** Overflow of the `Int` sum puts the anchor on the other side of the origin. */
  lemma MidpointOverflow()
    ensures Midpoint(0x7FFF_FFFF, 1) == -0x4000_0000
  {
  }

  /**
   * The rotation of the label: a raw angle in the closed range [90, 270] is
   * turned back by 180 degrees, one in [-270, -90] forward by 180.
   */
  function LabelAngle(raw: real): (angle: real)
    ensures -180.0 <= raw <= 180.0 ==> -90.0 <= angle <= 90.0
    ensures angle == raw || angle == raw - 180.0 || angle == raw + 180.0
    ensures -90.0 < raw < 90.0 ==> angle == raw
  {
    if 90.0 <= raw <= 270.0 then raw - 180.0
    else if -270.0 <= raw <= -90.0 then raw + 180.0
    else raw
  }

  /** The ranges are closed: 90 becomes -90 and -90 becomes 90, so the flip is not idempotent there. */
  lemma LabelAngleAtRightAngles()
    ensures LabelAngle(90.0) == -90.0 && LabelAngle(-90.0) == 90.0
    ensures LabelAngle(LabelAngle(90.0)) == 90.0
    ensures LabelAngle(180.0) == 0.0 && LabelAngle(-180.0) == 0.0
  {
  }

  /** Inside the open range (-90, 90) the flip is idempotent. */
  lemma LabelAngleStable(raw: real)
    requires -180.0 <= raw <= 180.0 && raw != 90.0 && raw != -90.0
    ensures LabelAngle(LabelAngle(raw)) == LabelAngle(raw)
  {
  }

  /**
   * `DistanceOverlay.draw`. `toPixels` is the map projection and
   * `atan2Degrees(dy, dx)` is `Math.toDegrees(atan2(dy, dx)).toFloat()`.
   * Nothing is drawn in the shadow pass; otherwise the label is drawn at the
   * pixel midpoint, rotated, outline first and fill second.
   */
  method Draw(overlay: DistanceOverlay, canvas: Canvas, shadow: bool,
              toPixels: GeoPoint -> Pixel, atan2Degrees: (int, int) -> real)
    modifies canvas
    ensures shadow ==> canvas.ops == old(canvas.ops)
    ensures !shadow ==>
              var s, e := toPixels(overlay.start), toPixels(overlay.end);
              var mx, my := Midpoint(s.x, e.x) as real, Midpoint(s.y, e.y) as real;
              var angle := LabelAngle(atan2Degrees(WrapInt(e.y - s.y), WrapInt(e.x - s.x)));
              canvas.ops == old(canvas.ops) +
                [Save, Rotate(angle, mx, my),
                 DrawText(overlay.text, mx, my, BorderPaint),
                 DrawText(overlay.text, mx, my, TextPaint),
                 Restore]
  {
    if shadow {
      return;
    }
    var startPoint := toPixels(overlay.start);
    var endPoint := toPixels(overlay.end);
    var midX := Midpoint(startPoint.x, endPoint.x);
    var midY := Midpoint(startPoint.y, endPoint.y);
    var angle := atan2Degrees(WrapInt(endPoint.y - startPoint.y), WrapInt(endPoint.x - startPoint.x));
    angle := LabelAngle(angle);
    canvas.Issue(Save);
    canvas.Issue(Rotate(angle, midX as real, midY as real));
    canvas.Issue(DrawText(overlay.text, midX as real, midY as real, BorderPaint));
    canvas.Issue(DrawText(overlay.text, midX as real, midY as real, TextPaint));
    canvas.Issue(Restore);
  }
}
