/** The location picker inside the reminder form: the `Location` each control
    builds from the current one (saved place, preset name, typed name, GPS
    fix, radius slider, trigger select), and the picker's own "advanced
    panel" flag. The picker hands each new location to its parent, which
    passes it back; the class `Picker` keeps both together. */
module LocationPicker {
  import opened Wrappers
  import opened Types
  import Geolocation

  const CurrentPlace: string := "현재 위치"

  /** `location?.radius || 100`. */
  function KeptRadius(current: Option<Location>): real {
    if current.Some? && Truthy(current.value.radius) then current.value.radius.value else 100.0
  }

  /** `location?.triggerType || 'arrive'`. */
  function KeptTriggerType(current: Option<Location>): TriggerType {
    if current.Some? then current.value.triggerType else Arrive
  }

  /** `selectSavedLocation`: the saved place's name, centre and radius, with
      the current trigger type. */
  function FromSaved(current: Option<Location>, saved: SavedLocation): Location {
    Location(saved.name, Some(saved.latitude), Some(saved.longitude), Some(saved.radius), KeptTriggerType(current))
  }

  /** `selectPresetLocation(name)` and the name field: a new name over the
      current centre, with the radius and trigger type defaulted. */
  function Renamed(current: Option<Location>, name: string): Location {
    Location(name,
             if current.Some? then current.value.latitude else None,
             if current.Some? then current.value.longitude else None,
             Some(KeptRadius(current)), KeptTriggerType(current))
  }

  /** The GPS fix: the sample's coordinates, the current name or "현재 위치",
      and the radius and trigger type defaulted. */
  function FromGps(current: Option<Location>, latitude: real, longitude: real): Location {
    Location(if current.Some? && current.value.name != "" then current.value.name else CurrentPlace,
             Some(latitude), Some(longitude), Some(KeptRadius(current)), KeptTriggerType(current))
  }

  /** The radius slider (`parseInt` of its value). */
  function WithRadius(location: Location, value: int): Location {
    location.(radius := Some(value as real))
  }

  /** The trigger select. */
  function WithTriggerType(location: Location, t: TriggerType): Location {
    location.(triggerType := t)
  }

  /** The effect on a new location: a configured centre opens the advanced
      panel, anything else leaves the flag as it is. */
  function Settled(location: Option<Location>, showAdvanced: bool): bool {
    if location.Some? && Truthy(location.value.latitude) && Truthy(location.value.longitude) then true
    else showAdvanced
  }

  /** A saved place is copied whole, and the reminder's geofence becomes the
      saved place's circle: a point is inside exactly when the saved centre
      is non-zero and the point lies within its radius (100 m for 0). */
  lemma SavedPlaceGeofence(distance: Geolocation.DistanceFn, current: Option<Location>, saved: SavedLocation, lat: real, lon: real)
    ensures var l := FromSaved(current, saved);
      l.name == saved.name && l.triggerType == (if current.Some? then current.value.triggerType else Arrive) &&
      (Geolocation.IsWithinRadius(distance, lat, lon, l) <==>
         saved.latitude != 0.0 && saved.longitude != 0.0 &&
         distance(lat, lon, saved.latitude, saved.longitude) <= (if saved.radius != 0.0 then saved.radius else 100.0))
  {
  }

  /** Renaming (by preset or by typing) keeps the centre and the trigger
      type, and keeps which points count as inside. */
  lemma RenameKeepsGeofence(distance: Geolocation.DistanceFn, l: Location, name: string, lat: real, lon: real)
    ensures var r := Renamed(Some(l), name);
      r.name == name && r.latitude == l.latitude && r.longitude == l.longitude &&
      r.triggerType == l.triggerType &&
      Geolocation.EffectiveRadius(r.radius) == Geolocation.EffectiveRadius(l.radius) &&
      (Geolocation.IsWithinRadius(distance, lat, lon, r) <==> Geolocation.IsWithinRadius(distance, lat, lon, l))
  {
  }

  /** Renaming twice is renaming once with the last name. */
  lemma RenameTwice(current: Option<Location>, first: string, second: string)
    ensures Renamed(Some(Renamed(current, first)), second) == Renamed(current, second)
  {
  }

  /** Without a current location every control starts from the defaults: no
      centre, 100 m, `arrive`. */
  lemma FreshDefaults(name: string, lat: real, lon: real)
    ensures Renamed(None, name) == Location(name, None, None, Some(100.0), Arrive)
    ensures FromGps(None, lat, lon) == Location("현재 위치", Some(lat), Some(lon), Some(100.0), Arrive)
  {
  }

  /** A GPS fix keeps a non-empty name and the effective radius, and with a
      distance that is 0 from a point to itself, the fix's own position is
      inside the new geofence whenever its coordinates are non-zero. */
  lemma GpsFixContainsItself(distance: Geolocation.DistanceFn, current: Option<Location>, lat: real, lon: real)
    requires Geolocation.ZeroOnSelf(distance)
    requires lat != 0.0 && lon != 0.0
    requires KeptRadius(current) >= 0.0
    ensures var l := FromGps(current, lat, lon);
      (current.Some? && current.value.name != "" ==> l.name == current.value.name) &&
      (current.Some? ==> Geolocation.EffectiveRadius(l.radius) == Geolocation.EffectiveRadius(current.value.radius)) &&
      Geolocation.IsWithinRadius(distance, lat, lon, l)
  {
    Geolocation.CentreIsInside(distance, FromGps(current, lat, lon));
  }

  /** The slider changes only the radius and the select only the direction;
      the select leaves containment as it was. */
  lemma EditsChangeOneField(distance: Geolocation.DistanceFn, l: Location, value: int, t: TriggerType, lat: real, lon: real)
    ensures var r := WithRadius(l, value);
      r.radius == Some(value as real) &&
      r.name == l.name && r.latitude == l.latitude && r.longitude == l.longitude && r.triggerType == l.triggerType
    ensures var s := WithTriggerType(l, t);
      s.triggerType == t &&
      s.name == l.name && s.latitude == l.latitude && s.longitude == l.longitude && s.radius == l.radius &&
      (Geolocation.IsWithinRadius(distance, lat, lon, s) <==> Geolocation.IsWithinRadius(distance, lat, lon, l))
  {
  }

  // ---------------------------------------------------------------------------
  // The picker

  class Picker {
    /** The location the parent passes in. */
    var location: Option<Location>
    var showAdvanced: bool

    constructor (location: Option<Location>)
      ensures this.location == location && showAdvanced == Settled(location, false)
    {
      this.location := location;
      showAdvanced := Settled(location, false);
    }

    method SelectSavedLocation(saved: SavedLocation)
      modifies this
      ensures location == Some(FromSaved(old(location), saved)) && showAdvanced
    {
      location := Some(FromSaved(location, saved));
      showAdvanced := true;
    }

    method SelectPresetLocation(presetName: string)
      modifies this
      ensures location == Some(Renamed(old(location), presetName))
      ensures showAdvanced == Settled(location, old(showAdvanced))
    {
      location := Some(Renamed(location, presetName));
      showAdvanced := Settled(location, showAdvanced);
    }

    method EditName(name: string)
      modifies this
      ensures location == Some(Renamed(old(location), name))
      ensures showAdvanced == Settled(location, old(showAdvanced))
    {
      location := Some(Renamed(location, name));
      showAdvanced := Settled(location, showAdvanced);
    }

    method OnGpsFix(latitude: real, longitude: real)
      modifies this
      ensures location == Some(FromGps(old(location), latitude, longitude)) && showAdvanced
    {
      location := Some(FromGps(location, latitude, longitude));
      showAdvanced := true;
    }

    /** The slider is shown only with a location. */
    method SetRadius(value: int)
      requires location.Some?
      modifies this
      ensures location == Some(WithRadius(old(location).value, value))
      ensures showAdvanced == Settled(location, old(showAdvanced))
    {
      location := Some(WithRadius(location.value, value));
      showAdvanced := Settled(location, showAdvanced);
    }

    /** The select is shown only with a location. */
    method SetTriggerType(t: TriggerType)
      requires location.Some?
      modifies this
      ensures location == Some(WithTriggerType(old(location).value, t))
      ensures showAdvanced == Settled(location, old(showAdvanced))
    {
      location := Some(WithTriggerType(location.value, t));
      showAdvanced := Settled(location, showAdvanced);
    }

    /** `handleRemoveLocation`. */
    method RemoveLocation()
      modifies this
      ensures location.None? && !showAdvanced
    {
      location := None;
      showAdvanced := false;
    }
  }
}
