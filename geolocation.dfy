/** Containment of a position in a location's circle. The great-circle
    (Haversine) distance itself is not modelled: it is a parameter of type
    `DistanceFn`, and the one fact the model uses about it, that a point is at
    distance 0 from itself, is the predicate `ZeroOnSelf`. */
module Geolocation {
  import opened Wrappers
  import opened Types

  /** `calculateDistance(lat1, lon1, lat2, lon2)` in metres. */
  type DistanceFn = (real, real, real, real) -> real

  /** Radius used when a location has none (or a radius of 0). */
  const DefaultRadius: real := 100.0

  /** With Δφ = Δλ = 0 the Haversine term `a` is 0, so a point is at distance 0
      from itself. */
  ghost predicate ZeroOnSelf(distance: DistanceFn) {
    forall lat: real, lon: real :: distance(lat, lon, lat, lon) == 0.0
  }

  /** `location.radius || 100`. */
  function EffectiveRadius(radius: Option<real>): real {
    if Truthy(radius) then radius.value else DefaultRadius
  }

  /** `isWithinRadius(currentLat, currentLon, location)`: false when the
      location's latitude or longitude is missing or 0, otherwise whether the
      distance to the centre is at most the effective radius. */
  predicate IsWithinRadius(distance: DistanceFn, currentLat: real, currentLon: real, location: Location) {
    if !Truthy(location.latitude) || !Truthy(location.longitude) then false
    else distance(currentLat, currentLon, location.latitude.value, location.longitude.value)
           <= EffectiveRadius(location.radius)
  }

  /** An unconfigured centre (missing or 0 coordinate) is never inside. */
  lemma OutsideWithoutCentre(distance: DistanceFn, lat: real, lon: real, location: Location)
    requires !Truthy(location.latitude) || !Truthy(location.longitude)
    ensures !IsWithinRadius(distance, lat, lon, location)
  {
  }

  /** With a configured centre, containment is `distance <= radius`: the
      boundary is inclusive and just beyond it is outside. */
  lemma WithinIffDistanceAtMostRadius(distance: DistanceFn, lat: real, lon: real, location: Location)
    requires Truthy(location.latitude) && Truthy(location.longitude)
    ensures IsWithinRadius(distance, lat, lon, location) <==>
      distance(lat, lon, location.latitude.value, location.longitude.value) <= EffectiveRadius(location.radius)
  {
  }

  /** A missing or zero radius is treated as 100 m. */
  lemma MissingRadiusIs100(radius: Option<real>)
    requires radius.None? || radius == Some(0.0)
    ensures EffectiveRadius(radius) == 100.0
  {
  }

  /** Containment is monotone in the radius: inside at one radius implies
      inside at every larger (non-zero) radius. */
  lemma WithinMonotoneInRadius(distance: DistanceFn, lat: real, lon: real, location: Location, wider: real)
    requires IsWithinRadius(distance, lat, lon, location)
    requires wider != 0.0 && wider >= EffectiveRadius(location.radius)
    ensures IsWithinRadius(distance, lat, lon, location.(radius := Some(wider)))
  {
  }

  /** The centre of a configured location with a non-negative radius is inside it. */
  lemma CentreIsInside(distance: DistanceFn, location: Location)
    requires ZeroOnSelf(distance)
    requires Truthy(location.latitude) && Truthy(location.longitude)
    requires EffectiveRadius(location.radius) >= 0.0
    ensures IsWithinRadius(distance, location.latitude.value, location.longitude.value, location)
  {
    var lat, lon := location.latitude.value, location.longitude.value;
    assert distance(lat, lon, lat, lon) == 0.0;
  }
}
