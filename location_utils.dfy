/**
 * Distance-to-zoom selection and the map re-centring of `adjustZoom`.
 * The geodesic distance and the great-circle midpoint are computed by
 * floating-point trigonometry in the map library and in `calculateMidPoint`;
 * both are parameters here.
 */
module LocationUtils {

  /** A map coordinate in degrees (the map library's `GeoPoint`, without altitude). */
  datatype GeoPoint = GeoPoint(latitude: real, longitude: real)

  /** A call received by the map controller. */
  datatype ControllerCall = SetZoom(level: real) | AnimateTo(target: GeoPoint)

  /** The map controller, observed through the calls it has received, in order. */
  class MapController {
    var calls: seq<ControllerCall>

    constructor ()
      ensures calls == []
    {
      calls := [];
    }

    method SetZoom(level: real)
      modifies this
      ensures calls == old(calls) + [ControllerCall.SetZoom(level)]
    {
      calls := calls + [ControllerCall.SetZoom(level)];
    }

    method AnimateTo(target: GeoPoint)
      modifies this
      ensures calls == old(calls) + [ControllerCall.AnimateTo(target)]
    {
      calls := calls + [ControllerCall.AnimateTo(target)];
    }
  }

  /** The zoom shown when the two points are closer than every threshold. */
  const CloseUpZoom: real := 12.0

  /**
   * The `when` chain of `adjustZoom`: strict `>` comparisons against
   * descending thresholds in metres, first match wins.
   */
  function ZoomForDistance(distance: real): (zoom: real)
    ensures 3.0 <= zoom <= 12.0
    ensures (2.0 * zoom).Floor as real == 2.0 * zoom
    ensures distance > 5000000.0 ==> zoom == 3.0
    ensures distance <= 5000.0 ==> zoom == CloseUpZoom
  {
    if distance > 5000000.0 then 3.0
    else if distance > 3000000.0 then 3.5
    else if distance > 2000000.0 then 4.0
    else if distance > 1500000.0 then 4.5
    else if distance > 1000000.0 then 5.0
    else if distance > 750000.0 then 5.5
    else if distance > 500000.0 then 6.0
    else if distance > 300000.0 then 6.5
    else if distance > 200000.0 then 7.0
    else if distance > 150000.0 then 7.5
    else if distance > 100000.0 then 8.0
    else if distance > 75000.0 then 8.5
    else if distance > 50000.0 then 9.0
    else if distance > 35000.0 then 9.5
    else if distance > 25000.0 then 10.0
    else if distance > 15000.0 then 10.5
    else if distance > 10000.0 then 11.0
    else if distance > 5000.0 then 11.5
    else 12.0
  }

  /** The same table as an ordered list of (threshold in metres, zoom) rows. */
  const ZoomSteps: seq<(real, real)> := [
    (5000000.0, 3.0), (3000000.0, 3.5), (2000000.0, 4.0), (1500000.0, 4.5),
    (1000000.0, 5.0), (750000.0, 5.5), (500000.0, 6.0), (300000.0, 6.5),
    (200000.0, 7.0), (150000.0, 7.5), (100000.0, 8.0), (75000.0, 8.5),
    (50000.0, 9.0), (35000.0, 9.5), (25000.0, 10.0), (15000.0, 10.5),
    (10000.0, 11.0), (5000.0, 11.5)]

  /** First-match lookup: the zoom of the first row whose threshold `distance` exceeds. */
  function FirstMatch(steps: seq<(real, real)>, distance: real, otherwise: real): real
  {
    if steps == [] then otherwise
    else if distance > steps[0].0 then steps[0].1
    else FirstMatch(steps[1..], distance, otherwise)
  }

  /** Thresholds strictly decrease from each row to the next. */
  ghost predicate ThresholdsDescending(steps: seq<(real, real)>)
  {
    forall i :: 0 <= i < |steps| - 1 ==> steps[i + 1].0 < steps[i].0
  }

  /** Zooms do not decrease from each row to the next, and the fallback is at least the last zoom. */
  ghost predicate ZoomsAscending(steps: seq<(real, real)>, otherwise: real)
  {
    (forall i :: 0 <= i < |steps| - 1 ==> steps[i].1 <= steps[i + 1].1) &&
    (|steps| > 0 ==> steps[|steps| - 1].1 <= otherwise)
  }

  /** Row-to-row descent gives descent between any two rows. */
  lemma {:induction false} ThresholdsDescendingPairwise(steps: seq<(real, real)>, i: nat, j: nat)
    requires ThresholdsDescending(steps) && i < j < |steps|
    ensures steps[j].0 < steps[i].0
    decreases j - i
  {
    if i + 1 < j {
      ThresholdsDescendingPairwise(steps, i + 1, j);
    }
  }

  /** One step of the lookup, at row `k`. */
  lemma {:induction false} FirstMatchUnfold(steps: seq<(real, real)>, distance: real, otherwise: real, k: nat)
    requires k < |steps|
    ensures FirstMatch(steps[k..], distance, otherwise)
         == if distance > steps[k].0 then steps[k].1 else FirstMatch(steps[k + 1..], distance, otherwise)
  {
    assert steps[k..][1..] == steps[k + 1..];
  }

  /** The `when` chain is the first-match lookup over `ZoomSteps` with fallback 12.0. */
  lemma ZoomIsFirstMatch(distance: real)
    ensures ZoomForDistance(distance) == FirstMatch(ZoomSteps, distance, CloseUpZoom)
  {
    var d, z := distance, CloseUpZoom;
    FirstMatchUnfold(ZoomSteps, d, z, 0);
    FirstMatchUnfold(ZoomSteps, d, z, 1);
    FirstMatchUnfold(ZoomSteps, d, z, 2);
    FirstMatchUnfold(ZoomSteps, d, z, 3);
    FirstMatchUnfold(ZoomSteps, d, z, 4);
    FirstMatchUnfold(ZoomSteps, d, z, 5);
    FirstMatchUnfold(ZoomSteps, d, z, 6);
    FirstMatchUnfold(ZoomSteps, d, z, 7);
    FirstMatchUnfold(ZoomSteps, d, z, 8);
    FirstMatchUnfold(ZoomSteps, d, z, 9);
    FirstMatchUnfold(ZoomSteps, d, z, 10);
    FirstMatchUnfold(ZoomSteps, d, z, 11);
    FirstMatchUnfold(ZoomSteps, d, z, 12);
    FirstMatchUnfold(ZoomSteps, d, z, 13);
    FirstMatchUnfold(ZoomSteps, d, z, 14);
    FirstMatchUnfold(ZoomSteps, d, z, 15);
    FirstMatchUnfold(ZoomSteps, d, z, 16);
    FirstMatchUnfold(ZoomSteps, d, z, 17);
    assert ZoomSteps[0..] == ZoomSteps;
    assert ZoomSteps[18..] == [];
  }

  /** A lookup never yields less than the first row's zoom, when zooms ascend. */
  lemma {:induction false} FirstMatchAtLeastHead(steps: seq<(real, real)>, distance: real, otherwise: real)
    requires |steps| > 0 && ZoomsAscending(steps, otherwise)
    ensures steps[0].1 <= FirstMatch(steps, distance, otherwise)
  {
    if distance <= steps[0].0 && |steps| > 1 {
      assert ZoomsAscending(steps[1..], otherwise);
      FirstMatchAtLeastHead(steps[1..], distance, otherwise);
    }
  }

  /** With ascending zooms, a first-match lookup is non-increasing in the distance. */
  lemma {:induction false} FirstMatchAntitone(steps: seq<(real, real)>, near: real, far: real, otherwise: real)
    requires near <= far && ZoomsAscending(steps, otherwise)
    ensures FirstMatch(steps, far, otherwise) <= FirstMatch(steps, near, otherwise)
  {
    if steps != [] {
      if far > steps[0].0 {
        FirstMatchAtLeastHead(steps, near, otherwise);
      } else {
        assert ZoomsAscending(steps[1..], otherwise);
        FirstMatchAntitone(steps[1..], near, far, otherwise);
      }
    }
  }

  /**
   * With strictly descending thresholds, a distance equal to row `k`'s
   * threshold gets the NEXT row's zoom (or the fallback after the last row).
   */
  lemma {:induction false} FirstMatchAtThreshold(steps: seq<(real, real)>, k: nat, otherwise: real)
    requires k < |steps| && ThresholdsDescending(steps)
    ensures FirstMatch(steps, steps[k].0, otherwise)
         == if k + 1 < |steps| then steps[k + 1].1 else otherwise
  {
    var rest := steps[1..];
    assert ThresholdsDescending(rest);
    if k > 0 {
      assert rest[k - 1] == steps[k];
      ThresholdsDescendingPairwise(steps, 0, k);
      FirstMatchAtThreshold(rest, k - 1, otherwise);
    } else if |steps| > 1 {
      assert FirstMatch(rest, steps[0].0, otherwise) == rest[0].1;
    }
  }

  lemma ZoomStepsOrdered()
    ensures ThresholdsDescending(ZoomSteps)
    ensures ZoomsAscending(ZoomSteps, CloseUpZoom)
  {
  }

  /** The further apart the points, the wider (smaller) the zoom. */
  lemma ZoomMonotone(near: real, far: real)
    requires near <= far
    ensures ZoomForDistance(far) <= ZoomForDistance(near)
  {
    ZoomIsFirstMatch(near);
    ZoomIsFirstMatch(far);
    ZoomStepsOrdered();
    FirstMatchAntitone(ZoomSteps, near, far, CloseUpZoom);
  }

  /** Comparisons are strict: a distance exactly at a threshold falls into the closer bucket. */
  lemma ZoomAtThreshold(k: nat)
    requires k < |ZoomSteps|
    ensures ZoomForDistance(ZoomSteps[k].0)
         == if k + 1 < |ZoomSteps| then ZoomSteps[k + 1].1 else CloseUpZoom
  {
    ZoomIsFirstMatch(ZoomSteps[k].0);
    ZoomStepsOrdered();
    FirstMatchAtThreshold(ZoomSteps, k, CloseUpZoom);
  }

  /** Exactly 100 km is in the "> 75 km" bucket (8.5), not the "> 100 km" one (8.0). */
  lemma HundredKilometres()
    ensures ZoomForDistance(100000.0) == 8.5
  {
  }

  /**
   * `adjustZoom`: set the zoom chosen from the distance between the points,
   * then animate to their midpoint, and return that midpoint.
   * `distanceTo` is the map library's geodesic distance in metres and
   * `midPointOf` is `calculateMidPoint(lat1, lon1, lat2, lon2)`.
   */
  method AdjustZoom(controller: MapController, point1: GeoPoint, point2: GeoPoint,
                    distanceTo: (GeoPoint, GeoPoint) -> real,
                    midPointOf: (real, real, real, real) -> GeoPoint)
    returns (midPoint: GeoPoint)
    modifies controller
    ensures midPoint == midPointOf(point1.latitude, point1.longitude, point2.latitude, point2.longitude)
    ensures controller.calls == old(controller.calls) +
              [ControllerCall.SetZoom(ZoomForDistance(distanceTo(point1, point2))),
               ControllerCall.AnimateTo(midPoint)]
  {
    var distance := distanceTo(point1, point2);
    var zoomLevel := ZoomForDistance(distance);
    midPoint := midPointOf(point1.latitude, point1.longitude, point2.latitude, point2.longitude);
    controller.SetZoom(zoomLevel);
    controller.AnimateTo(midPoint);
  }
}
