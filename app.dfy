/** The screen component itself: its state slots are fields that the event handlers
    update in place. Each handler is proved to move the slots exactly as the
    matching transition of module `Screen` says. */
module AppComponent {
  import opened Values
  import Stations
  import Screen
  import Session

  class App {
    /** `parseFloat` read as a number-or-NaN: None stands for NaN. */
    const parseFloat: string -> Option<real>
    /** The features of the bundled station dataset. */
    const features: seq<Stations.Feature>

    var location: Option<Position>
    var locationOn: bool
    var emsStationsArray: seq<Stations.Marker>
    var inputLatitude: string
    var inputLongitude: string
    var inputIncident: string
    var inputDescription: string
    var incidentArray: seq<Screen.Incident>
    var modalVisible: bool
    var photoTaken: Option<Uri>
    var selectedImage: Option<Uri>

    /** The slots read together as a screen state. */
    function State(): Screen.State
      reads this
    {
      Screen.State(location, locationOn, emsStationsArray, inputLatitude, inputLongitude,
                   inputIncident, inputDescription, incidentArray, modalVisible, photoTaken,
                   selectedImage)
    }

    function Env(): Session.Env {
      Session.Env(parseFloat, features)
    }

    /** Mounting the screen: every slot at its initial value. */
    constructor (parseFloat: string -> Option<real>, features: seq<Stations.Feature>)
      ensures State() == Screen.Initial
      ensures this.parseFloat == parseFloat && this.features == features
    {
      this.parseFloat := parseFloat;
      this.features := features;
      location := None;
      locationOn := false;
      emsStationsArray := [];
      inputLatitude := "";
      inputLongitude := "";
      inputIncident := "";
      inputDescription := "";
      incidentArray := [];
      modalVisible := false;
      photoTaken := None;
      selectedImage := None;
    }

    method OpenCamera(permission: Call<PermissionStatus>)
      modifies this
      ensures State() == Screen.OpenCamera(old(State()), permission)
    {
      var granted := permission == Resolved(Granted);
      if granted {
        modalVisible := true;
      }
    }

    method CloseCamera()
      modifies this
      ensures State() == Screen.CloseCamera(old(State()))
    {
      modalVisible := false;
    }

    method CapturePhoto(cameraPresent: bool, picture: Call<Uri>, library: Call<bool>, save: Call<()>)
      modifies this
      ensures State() == Screen.CapturePhoto(old(State()), cameraPresent, picture, library, save)
    {
      if cameraPresent {
        if picture.Rejected? || library.Rejected? {
          return;
        }
        var photo := picture.value;
        var granted := library.value;
        if granted {
          if save.Rejected? {
            return;
          }
          photoTaken := Some(photo);
        }
      }
    }

    method HandleMarkerPress(incident: Screen.Incident)
      modifies this
      ensures State() == Screen.HandleMarkerPress(old(State()), incident)
    {
      if Truthy(incident.photoUri) {
        selectedImage := incident.photoUri;
      }
    }

    method CloseModal()
      modifies this
      ensures State() == Screen.CloseModal(old(State()))
    {
      selectedImage := None;
    }

    method GetCurrentLocation(permission: Call<PermissionStatus>, position: Call<Position>)
      modifies this
      ensures State() == Screen.GetCurrentLocation(old(State()), permission, position)
    {
      if permission.Rejected? {
        return;
      }
      if permission.value != Granted {
        return;
      }
      if locationOn {
        locationOn := false;
      } else {
        if position.Rejected? {
          return;
        }
        location := Some(position.value);
        locationOn := true;
      }
    }

    method PutEmsStationsOnMap()
      modifies this
      ensures State() == Screen.PutEmsStationsOnMap(old(State()), features)
    {
      emsStationsArray := Stations.StationMarkers(features);
    }

    method ReportIncident()
      modifies this
      ensures State() == Screen.ReportIncident(old(State()), parseFloat)
    {
      var latitude := parseFloat(inputLatitude);
      var longitude := parseFloat(inputLongitude);
      if latitude.None? || longitude.None? || inputIncident == "" || inputDescription == "" {
        return;
      }
      incidentArray := incidentArray + [Screen.Incident(latitude.value, longitude.value, inputIncident,
                                                        inputDescription, Screen.IncidentColor, photoTaken)];
      inputLatitude := "";
      inputLongitude := "";
      inputIncident := "";
      inputDescription := "";
      photoTaken := None;
    }

    method ClearMarkers()
      modifies this
      ensures State() == Screen.ClearMarkers(old(State()))
    {
      location := None;
      emsStationsArray := [];
      incidentArray := [];
    }

    /** A form field's `onChangeText` setter. */
    method EditInput(field: Screen.Field, text: string)
      modifies this
      ensures State() == Screen.EditInput(old(State()), field, text)
    {
      match field
      case Latitude => inputLatitude := text;
      case Longitude => inputLongitude := text;
      case IncidentTitle => inputIncident := text;
      case Description => inputDescription := text;
    }

    /** The controls of the screen, each wired to its handler. */
    method Dispatch(e: Session.Event)
      modifies this
      ensures State() == Session.Step(old(State()), Env(), e)
    {
      match e
      case GeolocationTap(permission, position) => GetCurrentLocation(permission, position);
      case EmsStationsTap => PutEmsStationsOnMap();
      case ClearTap => ClearMarkers();
      case Type(field, text) => EditInput(field, text);
      case ReportTap => ReportIncident();
      case TakePhotoTap(permission) => OpenCamera(permission);
      case CaptureTap(cameraPresent, picture, library, save) => CapturePhoto(cameraPresent, picture, library, save);
      case CloseCameraTap => CloseCamera();
      case IncidentMarkerTap(index) =>
        if index < |incidentArray| {
          HandleMarkerPress(incidentArray[index]);
        }
      case CloseViewerTap => CloseModal();
    }
  }
}
