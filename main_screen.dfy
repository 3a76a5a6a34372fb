/**
 * The state of the main screen and the handlers that change it: the
 * add button, a click on a geofence card, its delete icon, the dialog's
 * Save and Cancel buttons, dismissing the dialog, and the arrival of the
 * last known location. Each handler reassigns fields; none touches a field
 * it does not name.
 *
 * The dialog prefill is an effect keyed on `showDialog` and
 * `selectedGeofence`: it runs again after a handler only when one of those
 * two keys changed, and then writes the form fields only if the dialog is
 * shown. The device location is not a key, so a location that arrives
 * while the dialog is open does not reach the form.
 *
 * The text fields write `name`, `latitude`, `longitude` and `radius`
 * directly; a client of this class does the same by assigning them.
 */
module Screen {
  import opened Nullable
  import opened GeofenceList
  import opened DialogForm

  /** Location card text before any location has arrived. */
  const FetchingText: string := "Fetching location..."
  /** Location card text when the provider answered with no location. */
  const UnavailableText: string := "Location unavailable"

  /** Location card text for a known location. */
  function LocationText(l: Location): (t: string)
    ensures |t| == |"Lat: "| + |l.latitude| + |", Lng: "| + |l.longitude|
    ensures t[..5] == "Lat: " && t[5..5 + |l.latitude|] == l.latitude
    ensures t[5 + |l.latitude|..|t| - |l.longitude|] == ", Lng: "
    ensures t[|t| - |l.longitude|..] == l.longitude
  {
    "Lat: " + l.latitude + ", Lng: " + l.longitude
  }

  class MainScreen {
    var currentLocation: Option<Location>
    var locationText: string

    var showDialog: bool
    var latitude: string
    var longitude: string
    var radius: string
    var name: string

    var selectedGeofence: Option<GeofenceData>
    var geofences: seq<GeofenceData>

    /** The record the Save button builds from the four form fields. */
    function Draft(): (d: GeofenceData)
      reads this
      ensures d.name == name && d.latitude == latitude
      ensures d.longitude == longitude && d.radius == radius
    {
      GeofenceData(name, latitude, longitude, radius)
    }

    /** The screen as first composed: empty list, no selection, dialog
        closed, empty form, no location yet. */
    constructor ()
      ensures geofences == [] && selectedGeofence == None && !showDialog
      ensures Draft() == GeofenceData("", "", "", "")
      ensures currentLocation == None && locationText == FetchingText
    {
      currentLocation := None;
      locationText := FetchingText;
      showDialog := false;
      latitude, longitude, radius, name := "", "", "", "";
      selectedGeofence := None;
      geofences := [];
    }

    /**
     * The prefill effect, given the keys it last ran with: when a key
     * changed and the dialog is shown, the form becomes the prefill of the
     * current selection and location; otherwise the form is untouched.
     */
    method PrefillEffect(prevShow: bool, prevSelected: Option<GeofenceData>)
      modifies this
      ensures Draft() ==
        if showDialog && (showDialog != prevShow || selectedGeofence != prevSelected)
        then Prefill(selectedGeofence, currentLocation)
        else old(Draft())
      ensures showDialog == old(showDialog) && selectedGeofence == old(selectedGeofence)
      ensures geofences == old(geofences)
      ensures currentLocation == old(currentLocation) && locationText == old(locationText)
    {
      if showDialog != prevShow || selectedGeofence != prevSelected {
        if showDialog {
          var form := Prefill(selectedGeofence, currentLocation);
          latitude := form.latitude;
          longitude := form.longitude;
          radius := form.radius;
          name := form.name;
        }
      }
    }

    /** The add button: clear the selection and open the dialog. */
    method OpenAdd()
      modifies this
      ensures selectedGeofence == None && showDialog
      ensures Draft() ==
        if old(showDialog) && old(selectedGeofence) == None then old(Draft())
        else Prefill(None, currentLocation)
      ensures geofences == old(geofences)
      ensures currentLocation == old(currentLocation) && locationText == old(locationText)
    {
      var prevShow, prevSelected := showDialog, selectedGeofence;
      selectedGeofence := None;
      showDialog := true;
      PrefillEffect(prevShow, prevSelected);
    }

    /** A click on the card of `g`: select it and open the dialog. */
    method OpenEdit(g: GeofenceData)
      modifies this
      ensures selectedGeofence == Some(g) && showDialog
      ensures Draft() ==
        if old(showDialog) && old(selectedGeofence) == Some(g) then old(Draft())
        else g
      ensures geofences == old(geofences)
      ensures currentLocation == old(currentLocation) && locationText == old(locationText)
    {
      var prevShow, prevSelected := showDialog, selectedGeofence;
      selectedGeofence := Some(g);
      showDialog := true;
      PrefillEffect(prevShow, prevSelected);
    }

    /** The delete icon on the card of `g`: drop every record equal to it. */
    method Delete(g: GeofenceData)
      modifies this
      ensures geofences == Removed(old(geofences), g)
      ensures showDialog == old(showDialog) && selectedGeofence == old(selectedGeofence)
      ensures Draft() == old(Draft())
      ensures currentLocation == old(currentLocation) && locationText == old(locationText)
    {
      geofences := Removed(geofences, g);
    }

    /**
     * The Save button: build the record from the form, replace every copy
     * of the selection with it, or append it when nothing is selected, and
     * close the dialog. The selection is kept.
     */
    method Save()
      modifies this
      ensures geofences == Saved(old(geofences), old(selectedGeofence), old(Draft()))
      ensures !showDialog
      ensures selectedGeofence == old(selectedGeofence) && Draft() == old(Draft())
      ensures currentLocation == old(currentLocation) && locationText == old(locationText)
    {
      var prevShow, prevSelected := showDialog, selectedGeofence;
      var newGeofence := Draft();
      if selectedGeofence.Some? {
        geofences := Replaced(geofences, selectedGeofence.value, newGeofence);
      } else {
        geofences := geofences + [newGeofence];
      }
      showDialog := false;
      PrefillEffect(prevShow, prevSelected);
    }

    /** Dismissing the dialog (a tap outside it or the back button). */
    method Dismiss()
      modifies this
      ensures !showDialog
      ensures geofences == old(geofences) && selectedGeofence == old(selectedGeofence)
      ensures Draft() == old(Draft())
      ensures currentLocation == old(currentLocation) && locationText == old(locationText)
    {
      var prevShow, prevSelected := showDialog, selectedGeofence;
      showDialog := false;
      PrefillEffect(prevShow, prevSelected);
    }

    /** The Cancel button: the same as dismissing. */
    method Cancel()
      modifies this
      ensures !showDialog
      ensures geofences == old(geofences) && selectedGeofence == old(selectedGeofence)
      ensures Draft() == old(Draft())
      ensures currentLocation == old(currentLocation) && locationText == old(locationText)
    {
      Dismiss();
    }

    /**
     * The answer of the location provider, `None` when it had no last
     * location: a location is stored and shown, a missing one only changes
     * the card text and keeps the previous location. The dialog form is
     * not touched, since the location is not a key of the prefill effect.
     */
    method LocationFix(location: Option<Location>)
      modifies this
      ensures currentLocation == (if location.Some? then location else old(currentLocation))
      ensures locationText == (if location.Some? then LocationText(location.value) else UnavailableText)
      ensures geofences == old(geofences) && selectedGeofence == old(selectedGeofence)
      ensures showDialog == old(showDialog) && Draft() == old(Draft())
    {
      match location
      case Some(l) =>
        currentLocation := location;
        locationText := LocationText(l);
      case None =>
        locationText := UnavailableText;
    }
  }

  /** Types the fields of `g` into the open dialog of `screen`. */
  method TypeInto(screen: MainScreen, g: GeofenceData)
    modifies screen
    ensures screen.Draft() == g
    ensures screen.showDialog == old(screen.showDialog)
    ensures screen.selectedGeofence == old(screen.selectedGeofence)
    ensures screen.geofences == old(screen.geofences)
    ensures screen.currentLocation == old(screen.currentLocation)
    ensures screen.locationText == old(screen.locationText)
  {
    screen.name := g.name;
    screen.latitude := g.latitude;
    screen.longitude := g.longitude;
    screen.radius := g.radius;
  }

  /** Adding `a`, then opening its card and saving `b` over it, leaves one
      record, `b`. */
  method AddThenEditFlow(a: GeofenceData, b: GeofenceData) returns (final: seq<GeofenceData>)
    ensures final == [b]
  {
    var screen := new MainScreen();
    screen.OpenAdd();
    TypeInto(screen, a);
    screen.Save();
    assert screen.geofences == [a];
    screen.OpenEdit(a);
    TypeInto(screen, b);
    screen.Save();
    final := screen.geofences;
  }

  /** Adding the same record twice keeps both copies; one delete removes
      both. */
  method DuplicateThenDeleteFlow(a: GeofenceData) returns (afterAdds: seq<GeofenceData>, afterDelete: seq<GeofenceData>)
    ensures afterAdds == [a, a]
    ensures afterDelete == []
  {
    var screen := new MainScreen();
    screen.OpenAdd();
    TypeInto(screen, a);
    screen.Save();
    screen.OpenAdd();
    TypeInto(screen, a);
    screen.Save();
    afterAdds := screen.geofences;
    screen.Delete(a);
    afterDelete := screen.geofences;
  }

  /** A location that arrives after the add dialog opened is shown on the
      location card but does not fill the open form, whose coordinates stay
      empty; reopening the dialog picks it up. */
  method LateLocationFlow(l: Location) returns (openForm: GeofenceData, reopenedForm: GeofenceData, cardText: string)
    ensures openForm == GeofenceData("", "", "", DefaultRadius)
    ensures reopenedForm == GeofenceData("", l.latitude, l.longitude, DefaultRadius)
    ensures cardText == "Lat: " + l.latitude + ", Lng: " + l.longitude
  {
    var screen := new MainScreen();
    screen.OpenAdd();
    screen.LocationFix(Some(l));
    openForm := screen.Draft();
    cardText := screen.locationText;
    screen.Cancel();
    screen.OpenAdd();
    reopenedForm := screen.Draft();
  }
}
