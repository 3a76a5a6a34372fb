/**
 * The in-memory geofence list of the main screen and the three immutable-list
 * expressions that replace it: `geofences + newGeofence` (add),
 * `geofences.map { if (it == selectedGeofence) newGeofence else it }` (edit)
 * and `geofences.filter { it != geofence }` (delete).
 *
 * A record is four plain strings and two records are equal exactly when all
 * four strings are: Dafny's datatype equality is Kotlin's data-class `==`.
 * Nothing identifies a record but its contents, so the list may hold
 * duplicates and edit and delete act on every equal copy.
 */
module GeofenceList {
  import opened Nullable

  datatype GeofenceData = GeofenceData(name: string, latitude: string, longitude: string, radius: string)

  /** `a` is `b` with some elements dropped, the rest kept in their order. */
  ghost predicate IsSubsequence(a: seq<GeofenceData>, b: seq<GeofenceData>)
    decreases |b|
  {
    if a == [] then true
    else if b == [] then false
    else if a[0] == b[0] then IsSubsequence(a[1..], b[1..])
    else IsSubsequence(a, b[1..])
  }

  /** `gs.map { if (it == selected) draft else it }` */
  function Replaced(gs: seq<GeofenceData>, selected: GeofenceData, draft: GeofenceData): (r: seq<GeofenceData>)
    ensures |r| == |gs|
    ensures forall i :: 0 <= i < |gs| ==> r[i] == (if gs[i] == selected then draft else gs[i])
  {
    if gs == [] then []
    else [if gs[0] == selected then draft else gs[0]] + Replaced(gs[1..], selected, draft)
  }

  /** `gs.filter { it != g }` */
  function Removed(gs: seq<GeofenceData>, g: GeofenceData): (r: seq<GeofenceData>)
    ensures |r| <= |gs|
    ensures forall x :: x in r <==> x in gs && x != g
    ensures multiset(r) == multiset(gs)[g := 0]
  {
    if gs == [] then []
    else
      assert gs == [gs[0]] + gs[1..];
      if gs[0] != g then [gs[0]] + Removed(gs[1..], g) else Removed(gs[1..], g)
  }

  /**
   * The list the Save button produces: with no selection the draft is
   * appended (no uniqueness check, so it may duplicate a record already
   * there); with a selection every record equal to it becomes the draft.
   */
  function Saved(gs: seq<GeofenceData>, selected: Option<GeofenceData>, draft: GeofenceData): (r: seq<GeofenceData>)
    ensures selected.None? ==> |r| == |gs| + 1 && r[..|gs|] == gs && r[|gs|] == draft
    ensures selected.None? ==> multiset(r) == multiset(gs) + multiset{draft}
    ensures selected.Some? ==> |r| == |gs|
    ensures selected.Some? ==>
      forall i :: 0 <= i < |gs| ==> r[i] == (if gs[i] == selected.value then draft else gs[i])
  {
    match selected
    case None => gs + [draft]
    case Some(s) => Replaced(gs, s, draft)
  }

  // ---------------------------------------------------------------- edit

  /** Editing a record that is no longer in the list changes nothing. */
  lemma EditAbsentIsNoOp(gs: seq<GeofenceData>, selected: GeofenceData, draft: GeofenceData)
    requires selected !in gs
    ensures Replaced(gs, selected, draft) == gs
  {
    // pointwise: no element equals the selection, so each one is kept
  }

  /** Saving a selected record unchanged leaves the list as it was. */
  lemma EditUnchangedIsNoOp(gs: seq<GeofenceData>, selected: GeofenceData)
    ensures Replaced(gs, selected, selected) == gs
  {
    // pointwise: an element equal to the selection is replaced by itself
  }

  /** After an edit of a record that is present, the draft is in the list
      and, unless the draft equals it, the selected record is not. */
  lemma EditReplacesRecord(gs: seq<GeofenceData>, selected: GeofenceData, draft: GeofenceData)
    requires selected in gs
    ensures draft in Replaced(gs, selected, draft)
    ensures selected != draft ==> selected !in Replaced(gs, selected, draft)
  {
    // the index of the selection now holds the draft
  }

  /** Saving the same edit twice gives the list of saving it once. */
  lemma EditIdempotent(gs: seq<GeofenceData>, selected: GeofenceData, draft: GeofenceData)
    ensures Replaced(Replaced(gs, selected, draft), selected, draft) == Replaced(gs, selected, draft)
  {
    // pointwise: after one edit an element equals the selection only if the draft does
  }

  // -------------------------------------------------------------- delete

  /** `Removed` keeps the surviving records in their original order. */
  lemma {:induction false} DeleteKeepsOrder(gs: seq<GeofenceData>, g: GeofenceData)
    ensures IsSubsequence(Removed(gs, g), gs)
  {
    if gs != [] {
      var rest := Removed(gs[1..], g);
      DeleteKeepsOrder(gs[1..], g);
      if gs[0] != g {
        assert ([gs[0]] + rest)[1..] == rest;
      } else if rest != [] {
        assert rest[0] in rest;
      }
    }
  }

  /** Deleting a record that is not in the list changes nothing. */
  lemma {:induction false} DeleteAbsentIsNoOp(gs: seq<GeofenceData>, g: GeofenceData)
    requires g !in gs
    ensures Removed(gs, g) == gs
  {
    if gs != [] {
      assert gs[0] != g;
      assert g !in gs[1..];
      DeleteAbsentIsNoOp(gs[1..], g);
      assert gs == [gs[0]] + gs[1..];
    }
  }

  /** Deleting the same record twice gives the list of deleting it once. */
  lemma DeleteIdempotent(gs: seq<GeofenceData>, g: GeofenceData)
    ensures Removed(Removed(gs, g), g) == Removed(gs, g)
  {
    // the first delete leaves no copy of g, so the second is a no-op
  }

  /** Filtering a concatenation filters each part. */
  lemma {:induction false} DeleteDistributes(a: seq<GeofenceData>, b: seq<GeofenceData>, g: GeofenceData)
    ensures Removed(a + b, g) == Removed(a, g) + Removed(b, g)
  {
    if a != [] {
      assert (a + b)[0] == a[0];
      assert (a + b)[1..] == a[1..] + b;
      DeleteDistributes(a[1..], b, g);
    } else {
      assert a + b == b;
    }
  }

  /** Deleting a record right after adding it leaves the list the delete of
      the old list would: every earlier copy goes too. */
  lemma AddThenDelete(gs: seq<GeofenceData>, g: GeofenceData)
    ensures Removed(Saved(gs, None, g), g) == Removed(gs, g)
  {
    DeleteDistributes(gs, [g], g);
    assert Removed([g], g) == [];
    assert Removed(gs, g) + [] == Removed(gs, g);
  }

  /** Deleting two records in either order gives the same list. */
  lemma {:induction false} DeletesCommute(gs: seq<GeofenceData>, a: GeofenceData, b: GeofenceData)
    ensures Removed(Removed(gs, a), b) == Removed(Removed(gs, b), a)
  {
    if gs != [] {
      DeletesCommute(gs[1..], a, b);
      var x := gs[0];
      if x != a && x != b {
        assert Removed(gs, a) == [x] + Removed(gs[1..], a);
        assert Removed(gs, b) == [x] + Removed(gs[1..], b);
        assert ([x] + Removed(gs[1..], a))[1..] == Removed(gs[1..], a);
        assert ([x] + Removed(gs[1..], b))[1..] == Removed(gs[1..], b);
      } else if x == a && x != b {
        assert Removed(gs, b) == [x] + Removed(gs[1..], b);
        assert ([x] + Removed(gs[1..], b))[1..] == Removed(gs[1..], b);
      } else if x != a && x == b {
        assert Removed(gs, a) == [x] + Removed(gs[1..], a);
        assert ([x] + Removed(gs[1..], a))[1..] == Removed(gs[1..], a);
      }
    }
  }

  /** Deleting the draft after an edit removes exactly what deleting the
      selected record and then the draft would. */
  lemma {:induction false} EditThenDelete(gs: seq<GeofenceData>, selected: GeofenceData, draft: GeofenceData)
    ensures Removed(Replaced(gs, selected, draft), draft) == Removed(Removed(gs, selected), draft)
  {
    if gs != [] {
      var x := gs[0];
      var r := Replaced(gs, selected, draft);
      EditThenDelete(gs[1..], selected, draft);
      assert r == [if x == selected then draft else x] + Replaced(gs[1..], selected, draft);
      assert r[1..] == Replaced(gs[1..], selected, draft);
      if x != selected {
        assert Removed(gs, selected) == [x] + Removed(gs[1..], selected);
        assert ([x] + Removed(gs[1..], selected))[1..] == Removed(gs[1..], selected);
      }
    }
  }
}
