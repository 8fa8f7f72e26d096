/** The incident map screen as a state machine: the component's state slots as one
    record, and one transition per event handler. The transitions are the
    specification that the handlers of class `App` (app.dfy) are proved against. */
module Screen {
  import opened Values
  import Stations

  /** A user-reported incident marker. */
  datatype Incident = Incident(
    latitude: real,
    longitude: real,
    title: string,
    description: string,
    color: string,
    photoUri: Option<Uri>)

  const IncidentColor: string := "red"

  /** The state slots of the screen component. */
  datatype State = State(
    location: Option<Position>,
    locationOn: bool,
    emsStations: seq<Stations.Marker>,
    inputLatitude: string,
    inputLongitude: string,
    inputIncident: string,
    inputDescription: string,
    incidents: seq<Incident>,
    modalVisible: bool,
    photoTaken: Option<Uri>,
    selectedImage: Option<Uri>)

  /** The state when the screen mounts. */
  const Initial: State := State(None, false, [], "", "", "", "", [], false, None, None)

  /** The four text fields of the incident form. */
  datatype Field = Latitude | Longitude | IncidentTitle | Description

  function Input(s: State, f: Field): string {
    match f
    case Latitude => s.inputLatitude
    case Longitude => s.inputLongitude
    case IncidentTitle => s.inputIncident
    case Description => s.inputDescription
  }

  /** The state with the whole form emptied: what is left when the form is ignored. */
  function WithoutForm(s: State): State {
    s.(inputLatitude := "", inputLongitude := "", inputIncident := "", inputDescription := "")
  }

  /** The current-location pin is drawn exactly when `locationOn && location`. */
  predicate PinShown(s: State) {
    s.locationOn && s.location.Some?
  }

  /** The image viewer is open exactly when `selectedImage` is truthy. */
  predicate ViewerShown(s: State) {
    Truthy(s.selectedImage)
  }

  /** The submit guard: both coordinates parse to a number (parseFloat gives no NaN)
      and title and description are non-empty. */
  predicate InputValid(s: State, parseFloat: string -> Option<real>) {
    && parseFloat(s.inputLatitude).Some?
    && parseFloat(s.inputLongitude).Some?
    && s.inputIncident != ""
    && s.inputDescription != ""
  }

  /** The incident a valid form describes, carrying the pending photo. */
  function FormIncident(s: State, parseFloat: string -> Option<real>): Incident
    requires InputValid(s, parseFloat)
  {
    Incident(parseFloat(s.inputLatitude).value, parseFloat(s.inputLongitude).value,
             s.inputIncident, s.inputDescription, IncidentColor, s.photoTaken)
  }

  /** reportIncident: on an invalid form nothing changes; on a valid one exactly one
      incident is appended after the unchanged earlier ones, the form is emptied and
      the pending photo is consumed, and nothing else changes. */
  function ReportIncident(s: State, parseFloat: string -> Option<real>): (t: State)
    ensures !InputValid(s, parseFloat) ==> t == s
    ensures InputValid(s, parseFloat) ==>
      && |t.incidents| == |s.incidents| + 1
      && t.incidents[..|s.incidents|] == s.incidents
      && t.incidents[|s.incidents|] == FormIncident(s, parseFloat)
      && t == s.(incidents := t.incidents, inputLatitude := "", inputLongitude := "",
                 inputIncident := "", inputDescription := "", photoTaken := None)
    ensures |t.incidents| > |s.incidents| <==> InputValid(s, parseFloat)
  {
    if !InputValid(s, parseFloat) then
      s
    else
      s.(incidents := s.incidents + [FormIncident(s, parseFloat)],
         inputLatitude := "", inputLongitude := "", inputIncident := "", inputDescription := "",
         photoTaken := None)
  }

  /** putEmsStationsOnMap: the station list becomes one marker per dataset feature, in
      order, whatever it held before; nothing else changes. */
  function PutEmsStationsOnMap(s: State, features: seq<Stations.Feature>): (t: State)
    ensures t == s.(emsStations := t.emsStations)
    ensures |t.emsStations| == |features|
    ensures forall i :: 0 <= i < |features| ==> Stations.MarksFeature(t.emsStations[i], features[i])
  {
    s.(emsStations := Stations.StationMarkers(features))
  }

  /** clearMarkers: location, stations and incidents are emptied together; `locationOn`
      and everything else keep their values, and the pin is hidden. */
  function ClearMarkers(s: State): (t: State)
    ensures t.location == None && t.emsStations == [] && t.incidents == []
    ensures t.(location := s.location, emsStations := s.emsStations, incidents := s.incidents) == s
    ensures !PinShown(t)
  {
    s.(location := None, emsStations := [], incidents := [])
  }

  /** getCurrentLocation: a rejected or refused permission request changes nothing;
      with permission, a shown toggle is switched off without using the position
      call, and a hidden one is switched on at the fetched position unless the
      fetch was rejected. */
  function GetCurrentLocation(s: State, permission: Call<PermissionStatus>, position: Call<Position>): (t: State)
    ensures permission != Resolved(Granted) ==> t == s
    ensures permission == Resolved(Granted) && s.locationOn ==> t == s.(locationOn := false)
    ensures permission == Resolved(Granted) && !s.locationOn && position.Rejected? ==> t == s
    ensures permission == Resolved(Granted) && !s.locationOn && position.Resolved? ==>
      t == s.(location := Some(position.value), locationOn := true)
    ensures PinShown(t) <==>
      if permission == Resolved(Granted) then !s.locationOn && position.Resolved? else PinShown(s)
  {
    match permission
    case Rejected => s
    case Resolved(status) =>
      if status != Granted then s
      else if s.locationOn then s.(locationOn := false)
      else
        match position
        case Rejected => s
        case Resolved(p) => s.(location := Some(p), locationOn := true)
  }

  /** openCamera: only the camera overlay flag may change, and it is raised exactly
      when camera permission is granted. */
  function OpenCamera(s: State, permission: Call<PermissionStatus>): (t: State)
    ensures t == s.(modalVisible := t.modalVisible)
    ensures t.modalVisible <==> s.modalVisible || permission == Resolved(Granted)
  {
    if permission == Resolved(Granted) then s.(modalVisible := true) else s
  }

  /** The camera overlay's close button: the overlay is hidden, nothing else changes. */
  function CloseCamera(s: State): (t: State)
    ensures !t.modalVisible
    ensures t.(modalVisible := s.modalVisible) == s
  {
    s.(modalVisible := false)
  }

  /** Whether a capture ends with the photo kept as pending: a camera is mounted, the
      picture is taken, media-library permission is granted and the library save
      completes. */
  predicate PhotoKept(cameraPresent: bool, picture: Call<Uri>, library: Call<bool>, save: Call<()>) {
    cameraPresent && picture.Resolved? && library == Resolved(true) && save.Resolved?
  }

  /** capturePhoto: only the pending photo may change; it becomes the captured URI
      when the photo is kept and stays as it was otherwise. */
  function CapturePhoto(s: State, cameraPresent: bool, picture: Call<Uri>, library: Call<bool>, save: Call<()>): (t: State)
    ensures t == s.(photoTaken := t.photoTaken)
    ensures PhotoKept(cameraPresent, picture, library, save) ==> t.photoTaken == Some(picture.value)
    ensures !PhotoKept(cameraPresent, picture, library, save) ==> t.photoTaken == s.photoTaken
  {
    if !cameraPresent then s
    else
      match picture
      case Rejected => s
      case Resolved(uri) =>
        match library
        case Rejected => s
        case Resolved(granted) =>
          if !granted then s
          else if save.Rejected? then s
          else s.(photoTaken := Some(uri))
  }

  /** handleMarkerPress: an incident with a (truthy) photo opens the viewer on exactly
      that photo; any other incident changes nothing. */
  function HandleMarkerPress(s: State, incident: Incident): (t: State)
    ensures Truthy(incident.photoUri) ==> t == s.(selectedImage := incident.photoUri) && ViewerShown(t)
    ensures !Truthy(incident.photoUri) ==> t == s
  {
    if Truthy(incident.photoUri) then s.(selectedImage := incident.photoUri) else s
  }

  /** closeModal: the viewer closes and nothing else changes. */
  function CloseModal(s: State): (t: State)
    ensures t.selectedImage == None && !ViewerShown(t)
    ensures t.(selectedImage := s.selectedImage) == s
  {
    s.(selectedImage := None)
  }

  /** A form field's `onChangeText`: that field holds the typed text and no other
      field or slot changes. */
  function EditInput(s: State, field: Field, text: string): (t: State)
    ensures Input(t, field) == text
    ensures forall g :: g != field ==> Input(t, g) == Input(s, g)
    ensures WithoutForm(t) == WithoutForm(s)
  {
    match field
    case Latitude => s.(inputLatitude := text)
    case Longitude => s.(inputLongitude := text)
    case IncidentTitle => s.(inputIncident := text)
    case Description => s.(inputDescription := text)
  }

  /** Loading stations twice gives the same screen as loading them once. */
  lemma PutEmsStationsOnMapIdempotent(s: State, features: seq<Stations.Feature>)
    ensures PutEmsStationsOnMap(PutEmsStationsOnMap(s, features), features) == PutEmsStationsOnMap(s, features)
  {
  }

  /** The loaded station list does not depend on the list it replaces. */
  lemma PutEmsStationsOnMapReplaces(s1: State, s2: State, features: seq<Stations.Feature>)
    ensures PutEmsStationsOnMap(s1, features).emsStations == PutEmsStationsOnMap(s2, features).emsStations
  {
  }

  /** Two granted geolocation taps with `locationOn` off: the first shows the pin at the
      fetched position, the second hides it again whatever its position call would
      have returned, so it fetches nothing, and keeps the stored location. */
  lemma GeolocationToggleTwice(s: State, p: Position, second: Call<Position>)
    requires !s.locationOn
    ensures var t1 := GetCurrentLocation(s, Resolved(Granted), Resolved(p));
      && PinShown(t1) && t1.location == Some(p)
      && var t2 := GetCurrentLocation(t1, Resolved(Granted), second);
         && !PinShown(t2) && t2.location == Some(p)
         && t2 == GetCurrentLocation(t1, Resolved(Granted), Rejected)
  {
  }

  /** Clearing while the pin is shown leaves `locationOn` set with no location: the
      pin is hidden, the next granted tap only switches `locationOn` off and still
      shows nothing, and only the tap after it fetches a position again. */
  lemma ClearKeepsLocationToggle(s: State, first: Call<Position>, p: Position)
    requires PinShown(s)
    ensures var c := ClearMarkers(s);
      && c.locationOn && !PinShown(c)
      && var t1 := GetCurrentLocation(c, Resolved(Granted), first);
         && !t1.locationOn && t1.location == None && !PinShown(t1)
         && var t2 := GetCurrentLocation(t1, Resolved(Granted), Resolved(p));
            && PinShown(t2) && t2.location == Some(p)
  {
  }

  /** An incident whose photo reference is null or "" never changes the selection;
      one with a photo opens the viewer on it, and closing the viewer hides it again. */
  lemma MarkerPressThenClose(s: State, incident: Incident)
    ensures var t := HandleMarkerPress(s, incident);
      && (!Truthy(incident.photoUri) ==> t.selectedImage == s.selectedImage)
      && (Truthy(incident.photoUri) ==> t.selectedImage == incident.photoUri)
      && !ViewerShown(CloseModal(t))
  {
  }
}
