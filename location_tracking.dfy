/** The geofence edge-trigger engine behind `useLocationTracking`.

    The effect body picks the reminders to watch, starts a position watch, and
    on every position sample compares each watched reminder's containment with
    the containment remembered for its id, firing `arrive` on an outside→inside
    change and `leave` on an inside→outside change. The remembered map is only
    ever written, never pruned or cleared.

    The step functions below give the meaning of each event on a `Tracking`
    value; the class `Tracker` holds the same state in fields and is proved to
    follow them. */
module LocationTracking {
  import opened Wrappers
  import opened Types
  import opened Seqs
  import opened Geolocation

  // ---------------------------------------------------------------------------
  // Status and error messages

  /** `GeolocationPositionError.PERMISSION_DENIED` and `POSITION_UNAVAILABLE`. */
  const PermissionDenied: int := 1
  const PositionUnavailable: int := 2

  const PermissionDeniedMessage: string := "위치 권한이 거부되었습니다"
  const PositionUnavailableMessage: string := "위치 정보를 사용할 수 없습니다"
  const TrackingErrorMessage: string := "위치 추적 중 오류가 발생했습니다"
  const ApiUnavailableMessage: string := "Geolocation API를 사용할 수 없습니다"

  /** The hook's `locationState`. */
  datatype LocationState = LocationState(
    latitude: Option<real>,
    longitude: Option<real>,
    accuracy: Option<real>,
    isTracking: bool,
    error: Option<string>)

  const InitialLocationState: LocationState := LocationState(None, None, None, false, None)

  /** Everything the hook keeps between events: the status, the active watch
      (`watchIdRef`), the reminder list the active watch's callback closed
      over, and the remembered containment (`previousStatesRef`). */
  datatype Tracking = Tracking(
    status: LocationState,
    watchId: Option<nat>,
    watched: seq<Reminder>,
    previous: map<string, bool>)

  const InitialTracking: Tracking := Tracking(InitialLocationState, None, [], map[])

  // ---------------------------------------------------------------------------
  // Which reminders are watched

  /** Trigger `location` or `both`, with a truthy latitude and longitude. */
  predicate IsWatched(r: Reminder) {
    UsesLocation(r.trigger) && r.location.Some? &&
    Truthy(r.location.value.latitude) && Truthy(r.location.value.longitude)
  }

  function WatchedReminders(reminders: seq<Reminder>): (ws: seq<Reminder>)
    ensures forall i :: 0 <= i < |ws| ==> IsWatched(ws[i])
  {
    Filter(reminders, IsWatched)
  }

  // ---------------------------------------------------------------------------
  // One reminder against one sample

  /** `previousStatesRef.current.get(id) || false`: a missing entry reads as outside. */
  function WasInside(previous: map<string, bool>, id: string): bool {
    id in previous && previous[id]
  }

  /** `arrive` on outside→inside, `leave` on inside→outside. */
  predicate ShouldTrigger(triggerType: TriggerType, isInside: bool, wasInside: bool) {
    (triggerType == Arrive && isInside && !wasInside) ||
    (triggerType == Leave && !isInside && wasInside)
  }

  predicate Inside(distance: DistanceFn, lat: real, lon: real, r: Reminder)
    requires r.location.Some?
  {
    IsWithinRadius(distance, lat, lon, r.location.value)
  }

  /** Whether reminder `r` fires against the remembered states `previous`. */
  predicate Fires(distance: DistanceFn, lat: real, lon: real, previous: map<string, bool>, r: Reminder) {
    r.location.Some? &&
    ShouldTrigger(r.location.value.triggerType, Inside(distance, lat, lon, r), WasInside(previous, r.id))
  }

  /** The remembered states after checking `r`: its current containment is stored. */
  function Record(distance: DistanceFn, lat: real, lon: real, previous: map<string, bool>, r: Reminder): map<string, bool> {
    if r.location.None? then previous else previous[r.id := Inside(distance, lat, lon, r)]
  }

  // ---------------------------------------------------------------------------
  // One sample against the watched list, in list order

  /** The reminders passed to the callback, in the order they are checked. */
  function Fired(distance: DistanceFn, lat: real, lon: real, previous: map<string, bool>, ws: seq<Reminder>): seq<Reminder>
    decreases |ws|
  {
    if ws == [] then []
    else
      (if Fires(distance, lat, lon, previous, ws[0]) then [ws[0]] else []) +
      Fired(distance, lat, lon, Record(distance, lat, lon, previous, ws[0]), ws[1..])
  }

  /** The remembered states after the whole pass. */
  function Recorded(distance: DistanceFn, lat: real, lon: real, previous: map<string, bool>, ws: seq<Reminder>): map<string, bool>
    decreases |ws|
  {
    if ws == [] then previous
    else Recorded(distance, lat, lon, Record(distance, lat, lon, previous, ws[0]), ws[1..])
  }

  // ---------------------------------------------------------------------------
  // The events

  /** The effect body, run with a new reminder list. `newWatchId` is the id the
      browser would hand out; `apiAvailable` is false when `watchPosition` throws. */
  function EffectStep(st: Tracking, reminders: seq<Reminder>, newWatchId: nat, apiAvailable: bool): Tracking {
    var ws := WatchedReminders(reminders);
    if |ws| == 0 then
      if st.watchId.Some? then st.(watchId := None, status := st.status.(isTracking := false))
      else st
    else if apiAvailable then
      st.(status := st.status.(isTracking := true, error := None), watchId := Some(newWatchId), watched := ws)
    else
      st.(status := st.status.(isTracking := false, error := Some(ApiUnavailableMessage)))
  }

  /** The effect's cleanup: clear the active watch, if any. */
  function CleanupStep(st: Tracking): Tracking {
    if st.watchId.Some? then st.(watchId := None) else st
  }

  /** A position sample: new status, then every watched reminder checked. */
  function SampleStep(distance: DistanceFn, st: Tracking, lat: real, lon: real, accuracy: real): Tracking {
    st.(status := LocationState(Some(lat), Some(lon), Some(accuracy), true, None),
        previous := Recorded(distance, lat, lon, st.previous, st.watched))
  }

  /** The reminders a sample fires. */
  function SampleFired(distance: DistanceFn, st: Tracking, lat: real, lon: real): seq<Reminder> {
    Fired(distance, lat, lon, st.previous, st.watched)
  }

  function ErrorMessage(code: int): string {
    if code == PermissionDenied then PermissionDeniedMessage
    else if code == PositionUnavailable then PositionUnavailableMessage
    else TrackingErrorMessage
  }

  /** A position error: tracking stops, the message is chosen by code, the last
      coordinates are kept. */
  function ErrorStep(st: Tracking, code: int): Tracking {
    st.(status := st.status.(isTracking := false, error := Some(ErrorMessage(code))))
  }

  /** One step of a pass: the first remaining reminder is checked against the
      current states, the rest against the states it leaves behind. */
  lemma PassStep(distance: DistanceFn, lat: real, lon: real, previous: map<string, bool>, ws: seq<Reminder>, i: nat)
    requires i < |ws|
    ensures Fired(distance, lat, lon, previous, ws[i..]) ==
      (if Fires(distance, lat, lon, previous, ws[i]) then [ws[i]] else []) +
      Fired(distance, lat, lon, Record(distance, lat, lon, previous, ws[i]), ws[i + 1..])
    ensures Recorded(distance, lat, lon, previous, ws[i..]) ==
      Recorded(distance, lat, lon, Record(distance, lat, lon, previous, ws[i]), ws[i + 1..])
  {
    assert ws[i..][0] == ws[i] && ws[i..][1..] == ws[i + 1..];
  }

  // ---------------------------------------------------------------------------
  // The hook as an object

  class Tracker {
    const distance: DistanceFn
    var status: LocationState
    var watchId: Option<nat>
    var watched: seq<Reminder>
    var previousStates: map<string, bool>

    function State(): Tracking
      reads this
    {
      Tracking(status, watchId, watched, previousStates)
    }

    constructor (distance: DistanceFn)
      ensures this.distance == distance
      ensures State() == InitialTracking
    {
      this.distance := distance;
      status := InitialLocationState;
      watchId := None;
      watched := [];
      previousStates := map[];
    }

    /** The effect body, run when the reminder list changes. */
    method OnRemindersChanged(reminders: seq<Reminder>, newWatchId: nat, apiAvailable: bool)
      modifies this
      ensures State() == EffectStep(old(State()), reminders, newWatchId, apiAvailable)
    {
      var ws := WatchedReminders(reminders);
      if |ws| == 0 {
        if watchId.Some? {
          watchId := None;
          status := status.(isTracking := false);
        }
        return;
      }
      status := status.(isTracking := true, error := None);
      if apiAvailable {
        watchId := Some(newWatchId);
        watched := ws;
      } else {
        status := status.(isTracking := false, error := Some(ApiUnavailableMessage));
      }
    }

    /** The effect's cleanup. */
    method Cleanup()
      modifies this
      ensures State() == CleanupStep(old(State()))
    {
      if watchId.Some? {
        watchId := None;
      }
    }

    /** The watch's success callback; returns the reminders passed to
        `onLocationTrigger`, in call order. */
    method OnPosition(lat: real, lon: real, accuracy: real) returns (fired: seq<Reminder>)
      requires watchId.Some?
      modifies this
      ensures State() == SampleStep(distance, old(State()), lat, lon, accuracy)
      ensures fired == SampleFired(distance, old(State()), lat, lon)
    {
      status := LocationState(Some(lat), Some(lon), Some(accuracy), true, None);
      fired := [];
      var i := 0;
      while i < |watched|
        invariant 0 <= i <= |watched|
        invariant watched == old(watched) && watchId == old(watchId)
        invariant status == LocationState(Some(lat), Some(lon), Some(accuracy), true, None)
        invariant fired + Fired(distance, lat, lon, previousStates, watched[i..])
               == Fired(distance, lat, lon, old(previousStates), watched)
        invariant Recorded(distance, lat, lon, previousStates, watched[i..])
               == Recorded(distance, lat, lon, old(previousStates), watched)
      {
        var reminder := watched[i];
        PassStep(distance, lat, lon, previousStates, watched, i);
        ghost var before, prev := fired, previousStates;
        ghost var rest := Fired(distance, lat, lon, Record(distance, lat, lon, prev, reminder), watched[i + 1..]);
        var fires := CheckReminder(lat, lon, reminder);
        if fires {
          fired := fired + [reminder];
        }
        assert fired + rest == before + ((if fires then [reminder] else []) + rest);
        i := i + 1;
      }
      assert watched[i..] == [];
    }

    /** The `forEach` callback: checks one reminder against the sample and
        stores its containment; returns whether `onLocationTrigger` is called. */
    method CheckReminder(lat: real, lon: real, reminder: Reminder) returns (fires: bool)
      modifies this
      ensures fires == Fires(distance, lat, lon, old(previousStates), reminder)
      ensures previousStates == Record(distance, lat, lon, old(previousStates), reminder)
      ensures status == old(status) && watchId == old(watchId) && watched == old(watched)
    {
      fires := false;
      if reminder.location.None? {
        return;
      }
      var isInside := IsWithinRadius(distance, lat, lon, reminder.location.value);
      var wasInside := reminder.id in previousStates && previousStates[reminder.id];
      if reminder.location.value.triggerType == Arrive && isInside && !wasInside {
        fires := true;
      } else if reminder.location.value.triggerType == Leave && !isInside && wasInside {
        fires := true;
      }
      previousStates := previousStates[reminder.id := isInside];
    }

    /** The watch's error callback. */
    method OnPositionError(code: int)
      requires watchId.Some?
      modifies this
      ensures State() == ErrorStep(old(State()), code)
    {
      var message := TrackingErrorMessage;
      if code == PermissionDenied {
        message := PermissionDeniedMessage;
      } else if code == PositionUnavailable {
        message := PositionUnavailableMessage;
      }
      status := status.(isTracking := false, error := Some(message));
    }
  }

  // ---------------------------------------------------------------------------
  // Properties of the steps

  /** A reminder is watched only with a location trigger and a non-zero
      latitude and longitude. */
  lemma WatchedOnlyWithTruthyCoordinates(reminders: seq<Reminder>, r: Reminder)
    requires r in WatchedReminders(reminders)
    ensures r in reminders
    ensures r.trigger == OnLocation || r.trigger == OnBoth
    ensures r.location.Some? && r.location.value.latitude.Some? && r.location.value.longitude.Some?
    ensures r.location.value.latitude.value != 0.0 && r.location.value.longitude.value != 0.0
  {
  }

  /** With nothing to watch, an active watch is dropped and tracking is reported
      off; without an active watch nothing changes. */
  lemma NothingToWatch(st: Tracking, reminders: seq<Reminder>, newWatchId: nat, apiAvailable: bool)
    requires WatchedReminders(reminders) == []
    ensures st.watchId.Some? ==>
      EffectStep(st, reminders, newWatchId, apiAvailable) == st.(watchId := None, status := st.status.(isTracking := false))
    ensures st.watchId.None? ==> EffectStep(st, reminders, newWatchId, apiAvailable) == st
  {
  }

  /** `arrive` fires exactly on outside→inside and `leave` exactly on
      inside→outside; an unchanged containment never fires. */
  lemma FiresOnEdgesOnly(distance: DistanceFn, lat: real, lon: real, previous: map<string, bool>, r: Reminder)
    requires r.location.Some?
    ensures r.location.value.triggerType == Arrive ==>
      (Fires(distance, lat, lon, previous, r) <==> Inside(distance, lat, lon, r) && !WasInside(previous, r.id))
    ensures r.location.value.triggerType == Leave ==>
      (Fires(distance, lat, lon, previous, r) <==> !Inside(distance, lat, lon, r) && WasInside(previous, r.id))
    ensures Inside(distance, lat, lon, r) == WasInside(previous, r.id) ==> !Fires(distance, lat, lon, previous, r)
  {
  }

  /** A reminder seen for the first time counts as having been outside: an
      `arrive` reminder already inside fires at once, a `leave` reminder outside
      does not. */
  lemma FirstObservationReadsOutside(distance: DistanceFn, lat: real, lon: real, previous: map<string, bool>, r: Reminder)
    requires r.location.Some? && r.id !in previous
    ensures r.location.value.triggerType == Arrive && Inside(distance, lat, lon, r) ==>
      Fires(distance, lat, lon, previous, r)
    ensures r.location.value.triggerType == Leave ==> !Fires(distance, lat, lon, previous, r)
  {
  }

  /** Ids occurring more than once in the watched list are not expected
      (reminder ids are unique); several lemmas assume it. */
  predicate DistinctIds(ws: seq<Reminder>) {
    forall i, j :: 0 <= i < j < |ws| ==> ws[i].id != ws[j].id
  }

  /** A pass only adds or overwrites entries: ids of reminders with a location
      are added, every other entry is kept as it was. */
  lemma {:induction false} RecordedKeepsOtherEntries(distance: DistanceFn, lat: real, lon: real, previous: map<string, bool>, ws: seq<Reminder>)
    ensures previous.Keys <= Recorded(distance, lat, lon, previous, ws).Keys
    ensures forall i :: 0 <= i < |ws| && ws[i].location.Some? ==> ws[i].id in Recorded(distance, lat, lon, previous, ws)
    ensures forall id :: id in previous && (forall i :: 0 <= i < |ws| ==> ws[i].id != id) ==>
      Recorded(distance, lat, lon, previous, ws)[id] == previous[id]
    decreases |ws|
  {
    if ws != [] {
      var next := Record(distance, lat, lon, previous, ws[0]);
      RecordedKeepsOtherEntries(distance, lat, lon, next, ws[1..]);
      var result := Recorded(distance, lat, lon, previous, ws);
      forall i | 0 <= i < |ws| && ws[i].location.Some?
        ensures ws[i].id in result
      {
        if i > 0 {
          assert ws[1..][i - 1] == ws[i];
        }
      }
      forall id | id in previous && (forall i :: 0 <= i < |ws| ==> ws[i].id != id)
        ensures result[id] == previous[id]
      {
        assert ws[0].id != id;
        forall i | 0 <= i < |ws[1..]|
          ensures ws[1..][i].id != id
        {
          assert ws[1..][i] == ws[i + 1];
        }
      }
    }
  }

  /** After a pass, the stored state of a watched reminder is its containment
      for this sample, whether or not it fired (for an id listed twice, the
      last occurrence wins). */
  lemma {:induction false} RecordedIsCurrentContainment(distance: DistanceFn, lat: real, lon: real, previous: map<string, bool>, ws: seq<Reminder>, i: nat)
    requires i < |ws| && ws[i].location.Some?
    requires forall j :: i < j < |ws| ==> ws[j].id != ws[i].id
    ensures ws[i].id in Recorded(distance, lat, lon, previous, ws)
    ensures Recorded(distance, lat, lon, previous, ws)[ws[i].id] == Inside(distance, lat, lon, ws[i])
    decreases |ws|
  {
    var next := Record(distance, lat, lon, previous, ws[0]);
    if i == 0 {
      assert ws[0].id in next && next[ws[0].id] == Inside(distance, lat, lon, ws[0]);
      RecordedKeepsOtherEntries(distance, lat, lon, next, ws[1..]);
      forall k | 0 <= k < |ws[1..]|
        ensures ws[1..][k].id != ws[0].id
      {
        assert ws[1..][k] == ws[k + 1];
      }
    } else {
      assert ws[1..][i - 1] == ws[i];
      forall j | i - 1 < j < |ws[1..]|
        ensures ws[1..][j].id != ws[1..][i - 1].id
      {
        assert ws[1..][j] == ws[j + 1];
      }
      RecordedIsCurrentContainment(distance, lat, lon, next, ws[1..], i - 1);
    }
  }

  /** With distinct ids, the sequential pass fires exactly the reminders that
      fire against the states remembered before the sample, in list order. */
  lemma {:induction false} FiredIsFilter(distance: DistanceFn, lat: real, lon: real, previous: map<string, bool>, ws: seq<Reminder>)
    requires DistinctIds(ws)
    ensures Fired(distance, lat, lon, previous, ws) == Filter(ws, r => Fires(distance, lat, lon, previous, r))
    decreases |ws|
  {
    if ws != [] {
      var next := Record(distance, lat, lon, previous, ws[0]);
      var rest := ws[1..];
      assert DistinctIds(rest) by {
        forall i, j | 0 <= i < j < |rest|
          ensures rest[i].id != rest[j].id
        {
          assert rest[i] == ws[i + 1] && rest[j] == ws[j + 1];
        }
      }
      FiredIsFilter(distance, lat, lon, next, rest);
      forall k | 0 <= k < |rest|
        ensures Fires(distance, lat, lon, next, rest[k]) == Fires(distance, lat, lon, previous, rest[k])
      {
        assert rest[k] == ws[k + 1];
        assert rest[k].id != ws[0].id;
        assert WasInside(next, rest[k].id) == WasInside(previous, rest[k].id);
      }
      FilterCongruent(rest, r => Fires(distance, lat, lon, next, r), r => Fires(distance, lat, lon, previous, r));
    }
  }

  /** Every watched reminder fires at most as often as it is listed. */
  lemma {:induction false} FiredAtMostOnceEach(distance: DistanceFn, lat: real, lon: real, previous: map<string, bool>, ws: seq<Reminder>)
    ensures multiset(Fired(distance, lat, lon, previous, ws)) <= multiset(ws)
    decreases |ws|
  {
    if ws != [] {
      FiredAtMostOnceEach(distance, lat, lon, Record(distance, lat, lon, previous, ws[0]), ws[1..]);
      assert ws == [ws[0]] + ws[1..];
    }
  }

  /** Repeating an identical sample fires nothing. */
  lemma RepeatedSampleFiresNothing(distance: DistanceFn, st: Tracking, lat: real, lon: real, accuracy: real)
    requires DistinctIds(st.watched)
    ensures SampleFired(distance, SampleStep(distance, st, lat, lon, accuracy), lat, lon) == []
  {
    var ws := st.watched;
    var after := Recorded(distance, lat, lon, st.previous, ws);
    FiredIsFilter(distance, lat, lon, after, ws);
    forall i | 0 <= i < |ws|
      ensures !Fires(distance, lat, lon, after, ws[i])
    {
      if ws[i].location.Some? {
        RecordedIsCurrentContainment(distance, lat, lon, st.previous, ws, i);
      }
    }
    FilterNone(ws, r => Fires(distance, lat, lon, after, r));
  }

  /** Changing the reminder list, cleaning up and position errors leave the
      remembered containment untouched. */
  lemma StatesSurviveListChangesAndCleanup(st: Tracking, reminders: seq<Reminder>, newWatchId: nat, apiAvailable: bool, code: int)
    ensures EffectStep(st, reminders, newWatchId, apiAvailable).previous == st.previous
    ensures CleanupStep(st).previous == st.previous
    ensures ErrorStep(st, code).previous == st.previous
  {
  }

  /** What the hook can be told, in order. */
  datatype Event =
    | RemindersChanged(reminders: seq<Reminder>, newWatchId: nat, apiAvailable: bool)
    | Cleanup
    | Position(lat: real, lon: real, accuracy: real)
    | PositionError(code: int)

  function Step(distance: DistanceFn, st: Tracking, e: Event): Tracking {
    match e
    case RemindersChanged(rs, id, api) => EffectStep(st, rs, id, api)
    case Cleanup => CleanupStep(st)
    case Position(lat, lon, acc) => SampleStep(distance, st, lat, lon, acc)
    case PositionError(code) => ErrorStep(st, code)
  }

  function Replay(distance: DistanceFn, st: Tracking, events: seq<Event>): Tracking
    decreases |events|
  {
    if events == [] then st else Replay(distance, Step(distance, st, events[0]), events[1..])
  }

  /** Entries of the remembered containment are never deleted, whatever
      happens: list changes, cleanups, samples and errors only add or overwrite. */
  lemma {:induction false} RememberedIdsNeverDropped(distance: DistanceFn, st: Tracking, events: seq<Event>)
    ensures st.previous.Keys <= Replay(distance, st, events).previous.Keys
    decreases |events|
  {
    if events != [] {
      var next := Step(distance, st, events[0]);
      if events[0].Position? {
        RecordedKeepsOtherEntries(distance, events[0].lat, events[0].lon, st.previous, st.watched);
      }
      RememberedIdsNeverDropped(distance, next, events[1..]);
    }
  }

  /** A sample sets the coordinates, `isTracking` and clears the error; an error
      stops tracking with a message chosen by code and keeps the coordinates. */
  lemma StatusUpdates(distance: DistanceFn, st: Tracking, lat: real, lon: real, accuracy: real, code: int)
    ensures SampleStep(distance, st, lat, lon, accuracy).status == LocationState(Some(lat), Some(lon), Some(accuracy), true, None)
    ensures var s := ErrorStep(st, code).status;
      !s.isTracking && s.latitude == st.status.latitude && s.longitude == st.status.longitude &&
      s.accuracy == st.status.accuracy &&
      s.error == Some(if code == 1 then "위치 권한이 거부되었습니다"
                      else if code == 2 then "위치 정보를 사용할 수 없습니다"
                      else "위치 추적 중 오류가 발생했습니다")
  {
  }

  /** A thrown `watchPosition` reports the API as unavailable and keeps the
      previous watch. */
  lemma ApiUnavailableReported(st: Tracking, reminders: seq<Reminder>, newWatchId: nat)
    requires WatchedReminders(reminders) != []
    ensures var next := EffectStep(st, reminders, newWatchId, false);
      !next.status.isTracking && next.status.error == Some(ApiUnavailableMessage) &&
      next.watchId == st.watchId && next.watched == st.watched
  {
  }

  // ---------------------------------------------------------------------------
  // Scenarios for a single reminder, as the code behaves

  /** A pass over a one-element list checks that reminder alone. */
  lemma SinglePass(distance: DistanceFn, lat: real, lon: real, previous: map<string, bool>, r: Reminder)
    ensures Fired(distance, lat, lon, previous, [r]) == (if Fires(distance, lat, lon, previous, r) then [r] else [])
    ensures Recorded(distance, lat, lon, previous, [r]) == Record(distance, lat, lon, previous, r)
  {
    assert [r][1..] == [];
  }

  /** An `arrive` reminder: a first sample inside fires at once (no silent
      baseline), a sample outside is silent, coming back inside fires again. */
  lemma ArriveScenario(distance: DistanceFn, r: Reminder, inLat: real, inLon: real, outLat: real, outLon: real, acc: real)
    requires IsWatched(r) && r.location.value.triggerType == Arrive
    requires Inside(distance, inLat, inLon, r) && !Inside(distance, outLat, outLon, r)
    ensures var s0 := EffectStep(InitialTracking, [r], 1, true);
      var s1 := SampleStep(distance, s0, inLat, inLon, acc);
      var s2 := SampleStep(distance, s1, outLat, outLon, acc);
      SampleFired(distance, s0, inLat, inLon) == [r] &&
      SampleFired(distance, s1, outLat, outLon) == [] &&
      SampleFired(distance, s2, inLat, inLon) == [r]
  {
    assert [r][1..] == [];
    var s0 := EffectStep(InitialTracking, [r], 1, true);
    assert s0.watched == [r];
    SinglePass(distance, inLat, inLon, map[], r);
    var s1 := SampleStep(distance, s0, inLat, inLon, acc);
    assert s1.previous == map[r.id := true];
    SinglePass(distance, outLat, outLon, s1.previous, r);
    var s2 := SampleStep(distance, s1, outLat, outLon, acc);
    assert s2.previous == map[r.id := false];
    SinglePass(distance, inLat, inLon, s2.previous, r);
  }

  /** A `leave` reminder: inside is silent, leaving fires once, staying outside
      and coming back are silent. */
  lemma LeaveScenario(distance: DistanceFn, r: Reminder, inLat: real, inLon: real, outLat: real, outLon: real, acc: real)
    requires IsWatched(r) && r.location.value.triggerType == Leave
    requires Inside(distance, inLat, inLon, r) && !Inside(distance, outLat, outLon, r)
    ensures var s0 := EffectStep(InitialTracking, [r], 1, true);
      var s1 := SampleStep(distance, s0, inLat, inLon, acc);
      var s2 := SampleStep(distance, s1, outLat, outLon, acc);
      var s3 := SampleStep(distance, s2, outLat, outLon, acc);
      SampleFired(distance, s0, inLat, inLon) == [] &&
      SampleFired(distance, s1, outLat, outLon) == [r] &&
      SampleFired(distance, s2, outLat, outLon) == [] &&
      SampleFired(distance, s3, inLat, inLon) == []
  {
    assert [r][1..] == [];
    var s0 := EffectStep(InitialTracking, [r], 1, true);
    assert s0.watched == [r];
    SinglePass(distance, inLat, inLon, map[], r);
    var s1 := SampleStep(distance, s0, inLat, inLon, acc);
    assert s1.previous == map[r.id := true];
    SinglePass(distance, outLat, outLon, s1.previous, r);
    var s2 := SampleStep(distance, s1, outLat, outLon, acc);
    assert s2.previous == map[r.id := false];
    SinglePass(distance, outLat, outLon, s2.previous, r);
    var s3 := SampleStep(distance, s2, outLat, outLon, acc);
    assert s3.previous == map[r.id := false];
    SinglePass(distance, inLat, inLon, s3.previous, r);
  }

  /** Memory survives a stop: after cleanup and a new list, an `arrive`
      reminder that was inside does not fire again for a sample inside. */
  lemma MemorySurvivesRestart(distance: DistanceFn, r: Reminder, lat: real, lon: real, acc: real)
    requires IsWatched(r) && r.location.value.triggerType == Arrive
    requires Inside(distance, lat, lon, r)
    ensures var s0 := EffectStep(InitialTracking, [r], 1, true);
      var s1 := SampleStep(distance, s0, lat, lon, acc);
      var s2 := EffectStep(CleanupStep(s1), [r], 2, true);
      SampleFired(distance, s2, lat, lon) == []
  {
    assert [r][1..] == [];
    var s0 := EffectStep(InitialTracking, [r], 1, true);
    assert s0.watched == [r];
    SinglePass(distance, lat, lon, map[], r);
    var s1 := SampleStep(distance, s0, lat, lon, acc);
    assert s1.previous == map[r.id := true];
    var s2 := EffectStep(CleanupStep(s1), [r], 2, true);
    assert s2.watched == [r] && s2.previous == s1.previous;
    SinglePass(distance, lat, lon, s2.previous, r);
  }

  // ---------------------------------------------------------------------------
  // Re-running the effect: React runs the previous cleanup first

  /** A change of the reminder list as React performs it: the previous
      effect's cleanup, then the effect body. */
  function Rerun(st: Tracking, reminders: seq<Reminder>, newWatchId: nat, apiAvailable: bool): Tracking {
    EffectStep(CleanupStep(st), reminders, newWatchId, apiAvailable)
  }

  /** A reminder with a location trigger at a Seoul city-hall centre. */
  const SampleReminder: Reminder :=
    Reminder("r-1", "외출", None, "📌", Routine, None, OnLocation, None, None,
             Some(Location("집", Some(37.5665), Some(126.978), None, Leave)),
             [], 0, 0, None, 0)

  /** As written, removing the last location reminder leaves `isTracking` true:
      the cleanup has already cleared the watch, so the "stop tracking" branch
      never runs. */
  lemma StaleTrackingAfterLastLocationReminderRemoved()
    ensures var s1 := Rerun(InitialTracking, [SampleReminder], 1, true);
      var s2 := Rerun(s1, [], 2, true);
      s1.status.isTracking && s2.watchId.None? && s2.status.isTracking
  {
    assert WatchedReminders([SampleReminder]) == [SampleReminder];
  }

  /** The effect body with the intended "stop tracking" branch: with nothing to
      watch, the watch is dropped and tracking is reported off, whether or not a
      watch was still active. */
  function EffectStepCorrected(st: Tracking, reminders: seq<Reminder>, newWatchId: nat, apiAvailable: bool): Tracking {
    if |WatchedReminders(reminders)| == 0 then
      st.(watchId := None, status := st.status.(isTracking := false))
    else EffectStep(st, reminders, newWatchId, apiAvailable)
  }

  function RerunCorrected(st: Tracking, reminders: seq<Reminder>, newWatchId: nat, apiAvailable: bool): Tracking {
    EffectStepCorrected(CleanupStep(st), reminders, newWatchId, apiAvailable)
  }

  /** With the correction, a re-run with nothing to watch always reports
      tracking off and holds no watch; otherwise it behaves as written. */
  lemma CorrectedRerunStopsTracking(st: Tracking, reminders: seq<Reminder>, newWatchId: nat, apiAvailable: bool)
    ensures WatchedReminders(reminders) == [] ==>
      var next := RerunCorrected(st, reminders, newWatchId, apiAvailable);
      !next.status.isTracking && next.watchId.None? && next.previous == st.previous
    ensures WatchedReminders(reminders) != [] ==>
      RerunCorrected(st, reminders, newWatchId, apiAvailable) == Rerun(st, reminders, newWatchId, apiAvailable)
  {
  }
}
