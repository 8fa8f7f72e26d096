# EMS incident map screen — a verified model

The application is a single map screen. It shows the phone's current location, the EMS
stations of a bundled dataset and the incidents the user reports through a four-field
form. A photo taken with the camera may be attached to the next incident. Tapping an
incident that carries a photo opens it in a viewer. All of it lives in the `App`
component of `App.js`: about a dozen state slots and the event handlers that update them.

This project models that component as a state machine:

- `values.dfy` (module `Values`): nullable slots (`Option`), the outcome of an awaited
  device call (`Call`: resolved with a value, or rejected), permission answers,
  positions, and JavaScript truthiness of a nullable string.
- `stations.dfy` (module `Stations`): dataset features and the station loader's map from
  features to markers, with the coordinate swap from GeoJSON's `[lon, lat]` order.
- `screen.dfy` (module `Screen`): the state slots as one record `State` and one pure
  transition per handler. Each transition's contract states what the handler promises:
  the validation guard, append-only incidents, replace-not-merge stations, the
  permission-gated toggle, and what stays unchanged. Scenario lemmas cover the
  location toggle and the quirk after a clear.
- `session.dfy` (module `Session`): user actions as events, `Step` (which control calls
  which handler) and `Run` (a sequence of events). Lemmas by induction over sessions:
  the incident list is append-only between clears, each report adds at most one
  incident, and an invariant holds in every reachable state. A worked example reports
  an incident and then clears it.
- `app.dfy` (module `AppComponent`): class `App`. Its fields are the state slots and its
  methods are the handlers, updating the fields in place. Each method is proved to
  leave the slots exactly as the matching `Screen` transition says.

Device calls (permission requests, position fetch, picture capture, media-library
save) are not executed by the model. Their outcomes are parameters of the handlers.
`parseFloat` is a function from string to `Option<real>` given to the constructor,
where `None` stands for NaN. The station dataset's features are also given to the
constructor.

Three behaviours of the code are kept on purpose:

- `clearMarkers` does not touch `locationOn` (App.js:140-144). After a clear the pin
  is hidden while `locationOn` stays true. The next granted geolocation tap tests
  `locationOn` (App.js:86), not whether a pin is shown, so it only switches the flag
  off. See `Screen.ClearKeepsLocationToggle`.
- A captured photo becomes the pending photo only when media-library permission is
  granted and the save completes (App.js:57-64). See `Screen.CapturePhoto`.
- `getCurrentLocation` asks for location permission on every tap, including the tap
  that switches the pin off (App.js:81-87). A refused or failed permission request
  therefore also leaves a shown pin shown. See `Screen.GetCurrentLocation`.

## Model

| member | source | states |
|---|---|---|
| Stations.StationMarkers | App.js:100-106 | one marker per dataset feature, at the same index; latitude is `coordinates[1]`, longitude `coordinates[0]`, title the station name, description "EMS Station", color "#0D7AAF" |
| Stations.StationMarkersUnique | App.js:100-106 | any marker list that marks every feature at its own index is the loader's list, so the load is deterministic |
| Screen.ReportIncident | App.js:111-137 | an invalid form (a coordinate that parses to NaN, an empty title or description) changes nothing; a valid one appends exactly one incident after the unchanged earlier ones, with the parsed coordinates, the typed title and description, color "red" and the pending photo, then empties the four fields and the pending photo; nothing else changes; the list grows exactly when the form is valid |
| Screen.PutEmsStationsOnMap | App.js:99-108 | the station list becomes one marker per feature as above, whatever it held; nothing else changes |
| Screen.ClearMarkers | App.js:140-144 | location becomes null and both marker lists empty; every other slot, `locationOn` included, is unchanged; the pin is hidden |
| Screen.GetCurrentLocation | App.js:79-96 | a rejected or refused permission changes nothing; with permission and `locationOn` set, only `locationOn` turns false; with it clear, a fetched position becomes the location and `locationOn` turns true, a rejected fetch changes nothing; the pin is shown afterwards exactly in the fetched case (or as before when refused) |
| Screen.OpenCamera | App.js:37-51 | only the camera overlay flag may change, and it is raised exactly when camera permission is granted |
| Screen.CloseCamera | App.js:222 | the camera overlay is hidden and nothing else changes |
| Screen.CapturePhoto | App.js:54-66 | only the pending photo may change: it becomes the captured URI when a camera is mounted, the picture resolves, media-library permission is granted and the save completes, and stays as it was otherwise |
| Screen.HandleMarkerPress | App.js:69-73 | an incident with a truthy photo reference selects exactly that reference and opens the viewer; any other incident changes nothing |
| Screen.CloseModal | App.js:76 | the selected image becomes null, the viewer is closed, nothing else changes |
| Screen.EditInput | App.js:208-211 | typing into a form field sets that field to the text and leaves the other fields and every other slot unchanged |
| Screen.PutEmsStationsOnMapIdempotent | App.js:99-108 | loading stations twice gives the same state as loading them once |
| Screen.PutEmsStationsOnMapReplaces | App.js:99-108 | the loaded list does not depend on the list it replaces |
| Screen.GeolocationToggleTwice | App.js:79-96 | with `locationOn` off, two granted taps show the pin at the fetched position and then hide it; the second tap's result does not depend on its position call, so nothing is fetched, and the stored location stays |
| Screen.ClearKeepsLocationToggle | App.js:140-157 | clearing a shown pin hides it but leaves `locationOn` set; the next granted tap switches `locationOn` off and still shows nothing; the tap after it shows the pin at a fetched position |
| Screen.MarkerPressThenClose | App.js:69-76 | pressing an incident whose photo reference is null or "" keeps the selected image; pressing one with a photo selects it; closing the viewer afterwards always hides it |
| Session.Step | App.js:190-231 | only a clear can remove incidents, and only a report or a clear can change the incident list |
| Session.RunAppendOnly | App.js:120-130 | over any session without a clear, the incident list only grows at the end: the earlier list is a prefix of the later one |
| Session.RunIncidentBound | App.js:111-137 | over any session the incident list grows by at most the number of report taps |
| Session.StepKeepsInvariant | App.js:69-144 | each handler keeps the invariant: every incident is red with a non-empty title and description, the station list is empty or exactly the dataset's markers, the selected image is null or truthy |
| Session.RunKeepsInvariant | App.js:69-144 | the invariant holds after any sequence of events that starts where it holds |
| Session.ReachableInvariant | App.js:21-34 | every state reachable from the freshly mounted screen satisfies the invariant |
| Session.ReportThenClear | App.js:111-144 | typing (43.2, -79.8, "Fire", "Structure fire") with no pending photo and submitting appends that incident, red and without a photo; a clear then leaves no incidents |
| AppComponent.App.constructor | App.js:21-34 | mounting sets every slot to its initial value: no location, toggle off, empty lists and fields, overlays closed, no pending or selected photo |
| AppComponent.App.OpenCamera | App.js:37-51 | updates the slots exactly as `Screen.OpenCamera` |
| AppComponent.App.CloseCamera | App.js:222 | updates the slots exactly as `Screen.CloseCamera` |
| AppComponent.App.CapturePhoto | App.js:54-66 | updates the slots exactly as `Screen.CapturePhoto` |
| AppComponent.App.HandleMarkerPress | App.js:69-73 | updates the slots exactly as `Screen.HandleMarkerPress` |
| AppComponent.App.CloseModal | App.js:76 | updates the slots exactly as `Screen.CloseModal` |
| AppComponent.App.GetCurrentLocation | App.js:79-96 | updates the slots exactly as `Screen.GetCurrentLocation` |
| AppComponent.App.PutEmsStationsOnMap | App.js:99-108 | updates the slots exactly as `Screen.PutEmsStationsOnMap` |
| AppComponent.App.ReportIncident | App.js:111-137 | updates the slots exactly as `Screen.ReportIncident` |
| AppComponent.App.ClearMarkers | App.js:140-144 | updates the slots exactly as `Screen.ClearMarkers` |
| AppComponent.App.EditInput | App.js:208-211 | updates the slots exactly as `Screen.EditInput` |
| AppComponent.App.Dispatch | App.js:190-231 | each control runs its handler, so the slots move exactly as `Session.Step` |

## Left out

- Rendering (the `MapView`, `Marker` and `Modal` trees) and the style sheet, App.js:146-281. They are layout. Only the pin condition (line 157), the viewer condition (line 227) and the wiring of controls to handlers are modelled.
- The location, camera and media-library APIs and their permission dialogs. They are device calls. Their outcomes are handler parameters of type `Call`, and rejection means the call threw.
- `Alert.alert` and `console.error`. They notify and log, and change no state.
- `parseFloat`, `isNaN` and floating point. The parser is an arbitrary function to `Option<real>` given to the constructor, and coordinates are reals. `Infinity`, which `parseFloat` can return and the guard accepts, has no `real` counterpart.
- The contents of the `./emsStations` module. Its features are a constructor parameter. A feature whose coordinates have fewer than two entries is excluded by the `Coordinates` type.
- The location object's fields other than `coords`, such as its timestamp.
- `cameraRef`: whether a camera view is mounted is a parameter of `CapturePhoto`. The model does not tie it to `modalVisible`.
- Async interleaving and overlapping taps. Each handler is one atomic step.
- Which controls exist in which state. While the camera overlay or the image viewer is up (App.js:216-234), the map, its markers and the buttons beneath cannot be tapped; Capture Photo and Close Camera exist only while `modalVisible` holds, and the viewer's Close only while `selectedImage` is truthy. `Session.Step` lets every control fire in every state, so a capture can set the pending photo with the overlay closed. The session lemmas range over this larger set of sessions, so they also hold for the sessions the screen allows.
