# Hushbot main screen: geofence list and dialog

A Dafny model of the part of Hushbot's `MainScreen` that holds real logic:
the in-memory list of geofences and the add/edit/delete dialog that
changes it. A geofence is a record of four strings (name, latitude,
longitude, radius). The screen keeps the list and the current selection,
whether the dialog is shown, the four form fields and the last known
location. Its click handlers are the commands.

- `nullable.dfy`: `Option`, for Kotlin's nullable types.
- `geofence_list.dfy` (module `GeofenceList`): the record and the three
  list expressions the handlers assign. Add is `+`, edit is `map` and
  delete is `filter`. The module also holds the lemmas about them.
- `prefill.dfy` (module `DialogForm`): the fallback chain that fills the
  form when the dialog opens.
- `main_screen.dfy` (module `Screen`): class `MainScreen` with the screen's
  mutable state and one method per handler. Three client methods
  (`AddThenEditFlow`, `DuplicateThenDeleteFlow`, `LateLocationFlow`) run
  click sequences on a fresh screen and state what the user ends up seeing.

Records are compared by Dafny datatype equality, which is Kotlin's
data-class `==` over four strings. Nothing else identifies a record. So
the list may hold duplicates, and edit and delete act on every equal copy.

The prefill is a Compose effect keyed on `showDialog` and
`selectedGeofence`. The model re-runs it after a handler only when one of
those keys changed, and it writes the form only while the dialog is shown.
The location is not a key, so a location that arrives while the dialog is
open does not reach the form (`LateLocationFlow`).

`MainActivity.kt` has no geofence ids, no validation of the entered
values, no provider registration, no enter/exit handling and no
do-not-disturb control, and neither has the model. Duplicates are allowed,
and edit and delete match whole records.

## Model

| member | source | states |
|---|---|---|
| GeofenceList.Replaced | app/src/main/java/com/example/hushbot/MainActivity.kt:236-238 | the edited list has the same length and order; each element equal to the selection becomes the draft; every other element is unchanged |
| GeofenceList.Removed | app/src/main/java/com/example/hushbot/MainActivity.kt:207 | the delete never grows the list; an element remains iff it was present and differs from the deleted record; each other record keeps its multiplicity, and the deleted one has none left |
| GeofenceList.Saved | app/src/main/java/com/example/hushbot/MainActivity.kt:235-241 | with no selection: length grows by one, the old list is a prefix, the draft is last, and a duplicate is kept (multiset gains one draft); with a selection: the edit above |
| GeofenceList.EditAbsentIsNoOp | app/src/main/java/com/example/hushbot/MainActivity.kt:236-238 | editing a selection no longer in the list leaves the list unchanged |
| GeofenceList.EditUnchangedIsNoOp | app/src/main/java/com/example/hushbot/MainActivity.kt:236-238 | replacing a record by itself leaves the list unchanged |
| GeofenceList.EditReplacesRecord | app/src/main/java/com/example/hushbot/MainActivity.kt:236-238 | after editing a present record the draft is in the list, and the old record is gone unless it equals the draft |
| GeofenceList.EditIdempotent | app/src/main/java/com/example/hushbot/MainActivity.kt:236-238 | applying the same edit twice equals applying it once |
| GeofenceList.DeleteKeepsOrder | app/src/main/java/com/example/hushbot/MainActivity.kt:207 | the records left by a delete are a subsequence of the old list, so their relative order is kept |
| GeofenceList.DeleteAbsentIsNoOp | app/src/main/java/com/example/hushbot/MainActivity.kt:207 | deleting a record not in the list is a no-op |
| GeofenceList.DeleteIdempotent | app/src/main/java/com/example/hushbot/MainActivity.kt:207 | deleting the same record twice equals deleting it once |
| GeofenceList.DeleteDistributes | app/src/main/java/com/example/hushbot/MainActivity.kt:207 | the delete filter of a concatenation is the concatenation of the filtered parts |
| GeofenceList.AddThenDelete | app/src/main/java/com/example/hushbot/MainActivity.kt:207-240 | adding a record and then deleting it leaves what deleting it from the old list leaves, so earlier duplicates go too |
| GeofenceList.DeletesCommute | app/src/main/java/com/example/hushbot/MainActivity.kt:207 | two deletes give the same list in either order |
| GeofenceList.EditThenDelete | app/src/main/java/com/example/hushbot/MainActivity.kt:207-238 | deleting the draft after an edit equals deleting the selection and then the draft |
| DialogForm.Prefill | app/src/main/java/com/example/hushbot/MainActivity.kt:101-104 | with a selection, the form is exactly that record. Without one: name is empty and radius is "50". Latitude and longitude come from the current location's texts, or are empty when there is no location |
| DialogForm.ReopenAndSaveIsNoOp | app/src/main/java/com/example/hushbot/MainActivity.kt:99-106 | opening a card's record and saving the prefilled form unchanged leaves the list as it was, whatever the location |
| Screen.LocationText | app/src/main/java/com/example/hushbot/MainActivity.kt:90 | the location card text (also :156) is "Lat: ", the latitude text, ", Lng: " and the longitude text, each of the four parts is stated at its position, and the length is their sum |
| Screen.MainScreen.Draft | app/src/main/java/com/example/hushbot/MainActivity.kt:228-233 | the record Save builds takes its name, latitude, longitude and radius from the four form fields of the same names |
| Screen.MainScreen.constructor | app/src/main/java/com/example/hushbot/MainActivity.kt:55-65 | initial state: empty list, no selection, dialog closed, empty form, no location, text "Fetching location..." |
| Screen.MainScreen.PrefillEffect | app/src/main/java/com/example/hushbot/MainActivity.kt:99-106 | the form becomes the prefill only when a key changed and the dialog is shown; otherwise the form is untouched; nothing else changes |
| Screen.MainScreen.OpenAdd | app/src/main/java/com/example/hushbot/MainActivity.kt:111-114 | clears the selection and shows the dialog; the form is the no-selection prefill (unless the keys did not change); the list is unchanged |
| Screen.MainScreen.OpenEdit | app/src/main/java/com/example/hushbot/MainActivity.kt:182-185 | selects the card's record and shows the dialog; the form is that record (unless the keys did not change); the list is unchanged |
| Screen.MainScreen.Delete | app/src/main/java/com/example/hushbot/MainActivity.kt:206-208 | the list becomes the delete filter of the old list; dialog, selection, form and location are unchanged |
| Screen.MainScreen.Save | app/src/main/java/com/example/hushbot/MainActivity.kt:227-244 | the list becomes the save of the old list, old selection and old form; the dialog is closed; selection and form are kept |
| Screen.MainScreen.Dismiss | app/src/main/java/com/example/hushbot/MainActivity.kt:224 | closes the dialog; list, selection, form and location are unchanged |
| Screen.MainScreen.Cancel | app/src/main/java/com/example/hushbot/MainActivity.kt:250 | closes the dialog; list, selection, form and location are unchanged |
| Screen.MainScreen.LocationFix | app/src/main/java/com/example/hushbot/MainActivity.kt:87-94 | the location listener, at start-up (:87-94) and on Refresh Location (:152-160, the same code): a location is stored and shown as "Lat: …, Lng: …". A missing one sets "Location unavailable" and keeps the old location. Dialog, form, list and selection are unchanged |
| Screen.TypeInto | app/src/main/java/com/example/hushbot/MainActivity.kt:257-280 | typing a record into the four text fields makes the form that record; dialog, selection, list, location and location text are unchanged |
| Screen.AddThenEditFlow | app/src/main/java/com/example/hushbot/MainActivity.kt:111-244 | on a fresh screen, adding a and then saving b over a's card leaves exactly [b] |
| Screen.DuplicateThenDeleteFlow | app/src/main/java/com/example/hushbot/MainActivity.kt:111-244 | adding the same record twice gives [a, a]; one delete then empties the list |
| Screen.LateLocationFlow | app/src/main/java/com/example/hushbot/MainActivity.kt:86-114 | a location that arrives while the add dialog is open does not fill the form (coordinates stay empty); it shows on the card, and reopening the dialog uses it |

## Left out

- Compose rendering, layout, theming and the widgets (`Scaffold`, `Card`, `AlertDialog`, the list heading). This is display only.
- The location permission check, the permission launcher and its "Location permission denied" toast. This is operating-system permission I/O. The model only keeps what a location answer does to the state (`LocationFix`).
- The fused location client and its asynchronous success listener. The provider's answer is the parameter of `LocationFix`. Coordinates are the two opaque `toString()` texts of the doubles; floating point and its formatting are not modelled.
- `MainActivity.onCreate`. This is Android lifecycle wiring.
- Geofence registration, enter/exit handling, do-not-disturb control and field validation: `MainActivity.kt` has none of them, so the model has none either.
- The modal nature of the dialog. While the dialog is shown, the real UI blocks the add button and the cards. The model lets every handler run in every state; its contracts cover those cases too.
