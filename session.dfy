/** A session on the screen: the user's taps and typing as a sequence of events, each
    handled atomically by the transition of its handler, and what holds of every
    state a session can reach. */
module Session {
  import opened Values
  import Stations
  import opened Screen

  /** What the screen takes from outside: the number parser and the bundled dataset. */
  datatype Env = Env(parseFloat: string -> Option<real>, features: seq<Stations.Feature>)

  /** One user action, with the outcomes of the device calls it makes. */
  datatype Event =
    | GeolocationTap(permission: Call<PermissionStatus>, position: Call<Position>)
    | EmsStationsTap
    | ClearTap
    | Type(field: Field, text: string)
    | ReportTap
    | TakePhotoTap(cameraPermission: Call<PermissionStatus>)
    | CaptureTap(cameraPresent: bool, picture: Call<Uri>, library: Call<bool>, save: Call<()>)
    | CloseCameraTap
    | IncidentMarkerTap(index: nat)
    | CloseViewerTap

  /** The handler each control is wired to. A marker tap names an incident on the map
      by its index; an index past the list names no marker and does nothing. */
  function Step(s: State, env: Env, e: Event): (t: State)
    ensures !e.ClearTap? ==> s.incidents <= t.incidents
    ensures !e.ReportTap? && !e.ClearTap? ==> t.incidents == s.incidents
  {
    match e
    case GeolocationTap(permission, position) => GetCurrentLocation(s, permission, position)
    case EmsStationsTap => PutEmsStationsOnMap(s, env.features)
    case ClearTap => ClearMarkers(s)
    case Type(field, text) => EditInput(s, field, text)
    case ReportTap => ReportIncident(s, env.parseFloat)
    case TakePhotoTap(permission) => OpenCamera(s, permission)
    case CaptureTap(cameraPresent, picture, library, save) => CapturePhoto(s, cameraPresent, picture, library, save)
    case CloseCameraTap => CloseCamera(s)
    case IncidentMarkerTap(index) =>
      if index < |s.incidents| then HandleMarkerPress(s, s.incidents[index]) else s
    case CloseViewerTap => CloseModal(s)
  }

  /** The state after handling the events in order. */
  function Run(s: State, env: Env, es: seq<Event>): State
    decreases |es|
  {
    if es == [] then s else Run(Step(s, env, es[0]), env, es[1..])
  }

  function Reports(es: seq<Event>): nat {
    if es == [] then 0 else (if es[0].ReportTap? then 1 else 0) + Reports(es[1..])
  }

  predicate NoClear(es: seq<Event>) {
    forall i :: 0 <= i < |es| ==> !es[i].ClearTap?
  }

  /** Without a clear, the incident list is an append-only log: every incident on the
      map stays, at its place. */
  lemma {:induction false} RunAppendOnly(s: State, env: Env, es: seq<Event>)
    requires NoClear(es)
    ensures s.incidents <= Run(s, env, es).incidents
    decreases |es|
  {
    if es != [] {
      var s1 := Step(s, env, es[0]);
      RunAppendOnly(s1, env, es[1..]);
      assert s.incidents <= s1.incidents;
    }
  }

  /** Each report adds at most one incident, and nothing else adds any. */
  lemma {:induction false} RunIncidentBound(s: State, env: Env, es: seq<Event>)
    ensures |Run(s, env, es).incidents| <= |s.incidents| + Reports(es)
    decreases |es|
  {
    if es != [] {
      var s1 := Step(s, env, es[0]);
      RunIncidentBound(s1, env, es[1..]);
      assert |s1.incidents| <= |s.incidents| + (if es[0].ReportTap? then 1 else 0);
    }
  }

  /** What every reachable state satisfies: each incident passed the submit guard and
      is drawn red; the station list is empty or exactly the dataset's markers; the
      selected image, when set, is a truthy reference. */
  predicate Invariant(s: State, env: Env) {
    && (forall i :: 0 <= i < |s.incidents| ==>
          && s.incidents[i].color == IncidentColor
          && s.incidents[i].title != ""
          && s.incidents[i].description != "")
    && (s.emsStations == [] || s.emsStations == Stations.StationMarkers(env.features))
    && (s.selectedImage == None || Truthy(s.selectedImage))
  }

  lemma StepKeepsInvariant(s: State, env: Env, e: Event)
    requires Invariant(s, env)
    ensures Invariant(Step(s, env, e), env)
  {
  }

  lemma {:induction false} RunKeepsInvariant(s: State, env: Env, es: seq<Event>)
    requires Invariant(s, env)
    ensures Invariant(Run(s, env, es), env)
    decreases |es|
  {
    if es != [] {
      StepKeepsInvariant(s, env, es[0]);
      RunKeepsInvariant(Step(s, env, es[0]), env, es[1..]);
    }
  }

  /** Every state reachable from the freshly mounted screen satisfies the invariant. */
  lemma ReachableInvariant(env: Env, es: seq<Event>)
    ensures Invariant(Run(Initial, env, es), env)
  {
    RunKeepsInvariant(Initial, env, es);
  }

  /** Type an incident at (43.2, -79.8) titled "Fire", "Structure fire", with no photo
      pending, and submit: the new last marker is that incident, red and without a
      photo; a clear then leaves no incident at all. */
  lemma ReportThenClear(s: State, env: Env, lat: real, lon: real)
    requires env.parseFloat("43.2") == Some(lat) && env.parseFloat("-79.8") == Some(lon)
    requires s.photoTaken == None
    ensures var t := Run(s, env, [Type(Latitude, "43.2"), Type(Longitude, "-79.8"),
                                  Type(IncidentTitle, "Fire"), Type(Description, "Structure fire"),
                                  ReportTap]);
      && |t.incidents| == |s.incidents| + 1
      && t.incidents[|s.incidents|] == Incident(lat, lon, "Fire", "Structure fire", "red", None)
      && t.photoTaken == None
      && Run(t, env, [ClearTap]).incidents == []
  {
  }
}
