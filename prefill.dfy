/**
 * What the dialog's four text fields are filled with when it opens: each
 * field falls back from the selected record, to the last known device
 * location (latitude and longitude only), to a fixed default.
 */
module DialogForm {
  import opened Nullable
  import opened GeofenceList

  /** The last known device location, as the two `toString()` texts of its
      coordinates; the numbers themselves never enter this logic. */
  datatype Location = Location(latitude: string, longitude: string)

  /** Radius offered for a new geofence. */
  const DefaultRadius: string := "50"

  /**
   * The form contents after the prefill: the selected record's own fields
   * when there is a selection; otherwise an empty name, the default radius
   * and the location's coordinates (empty when no location is known).
   */
  function Prefill(selected: Option<GeofenceData>, location: Option<Location>): (form: GeofenceData)
    ensures selected.Some? ==> form == selected.value
    ensures selected.None? ==> form.name == "" && form.radius == DefaultRadius
    ensures selected.None? && location.Some? ==>
      form.latitude == location.value.latitude && form.longitude == location.value.longitude
    ensures selected.None? && location.None? ==> form.latitude == "" && form.longitude == ""
  {
    match selected
    case Some(s) => s
    case None =>
      match location
      case Some(l) => GeofenceData(name := "", latitude := l.latitude, longitude := l.longitude, radius := DefaultRadius)
      case None => GeofenceData(name := "", latitude := "", longitude := "", radius := DefaultRadius)
  }

  /** Opening a record for edit and saving without typing leaves the list as
      it was, whatever the device location. */
  lemma ReopenAndSaveIsNoOp(gs: seq<GeofenceData>, selected: GeofenceData, location: Option<Location>)
    ensures Saved(gs, Some(selected), Prefill(Some(selected), location)) == gs
  {
    // the prefill of a selection is the selection itself
  }
}
