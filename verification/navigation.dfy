/** The navigation bar over the JSON-backed store (`PatientData` records):
    the current patient's position, the previous/next buttons, the
    "k / n" position label and the search action. Selecting a patient
    hands it to the form (`onPatientSelected`); here the selection is the
    result. */
module Navigation {
  import opened Basics
  import opened PatientRecord
  import PatientStore
  import ContentView
  import NameOrder

  /** `currentIndex`: the position of the first record carrying the current
      patient's id, or -1 when there is no current patient or no such
      record. */
  function CurrentIndex(currentPatient: Option<PatientData>, allPatients: seq<PatientData>): (ci: int)
    ensures -1 <= ci < |allPatients|
    ensures ci == -1 <==> currentPatient.None?
                          || forall i :: 0 <= i < |allPatients| ==> allPatients[i].id != currentPatient.value.id
    ensures ci >= 0 ==> allPatients[ci].id == currentPatient.value.id
                        && forall j :: 0 <= j < ci ==> allPatients[j].id != currentPatient.value.id
  {
    match currentPatient
    case None => -1
    case Some(current) =>
      match PatientStore.IndexOfId(allPatients, current.id)
      case None => -1
      case Some(index) => index
  }

  /** `hasPrevious`: the current patient's id is listed, and not first. */
  predicate HasPrevious(currentPatient: Option<PatientData>, allPatients: seq<PatientData>)
    ensures HasPrevious(currentPatient, allPatients)
            <==> currentPatient.Some?
                 && (exists i :: 0 <= i < |allPatients| && allPatients[i].id == currentPatient.value.id)
                 && allPatients[0].id != currentPatient.value.id
  {
    CurrentIndex(currentPatient, allPatients) > 0
  }

  /** `hasNext`: the current patient's id occurs somewhere before the last
      position. */
  predicate HasNext(currentPatient: Option<PatientData>, allPatients: seq<PatientData>)
    ensures HasNext(currentPatient, allPatients)
            <==> currentPatient.Some?
                 && exists i :: 0 <= i < |allPatients| - 1 && allPatients[i].id == currentPatient.value.id
  {
    var ci := CurrentIndex(currentPatient, allPatients);
    ci >= 0 && ci < |allPatients| - 1
  }

  /** The "previous" button: the record just before the current one, or
      nothing when the button is disabled. */
  function Previous(currentPatient: Option<PatientData>, allPatients: seq<PatientData>): (r: Option<PatientData>)
    ensures r.Some? <==> HasPrevious(currentPatient, allPatients)
    ensures r.Some? ==> r.value in allPatients
                        && r.value == allPatients[CurrentIndex(currentPatient, allPatients) - 1]
  {
    if HasPrevious(currentPatient, allPatients)
    then Some(allPatients[CurrentIndex(currentPatient, allPatients) - 1])
    else None
  }

  /** The "next" button. */
  function Next(currentPatient: Option<PatientData>, allPatients: seq<PatientData>): (r: Option<PatientData>)
    ensures r.Some? <==> HasNext(currentPatient, allPatients)
    ensures r.Some? ==> r.value in allPatients
                        && r.value == allPatients[CurrentIndex(currentPatient, allPatients) + 1]
  {
    if HasNext(currentPatient, allPatients)
    then Some(allPatients[CurrentIndex(currentPatient, allPatients) + 1])
    else None
  }

  /** The two numbers of the "k / n" label. */
  datatype Position = Position(shown: int, total: int)

  /** The label: a one-based position (0 when no listed patient is
      selected) out of the list length. */
  function PositionLabel(currentPatient: Option<PatientData>, allPatients: seq<PatientData>): (pos: Position)
    ensures pos.total == |allPatients|
    ensures 0 <= pos.shown <= pos.total
    ensures pos.shown == 0 <==> CurrentIndex(currentPatient, allPatients) == -1
    ensures pos.shown > 0 ==> allPatients[pos.shown - 1].id == currentPatient.value.id
  {
    Position(CurrentIndex(currentPatient, allPatients) + 1, |allPatients|)
  }

  /** Both buttons are disabled when no patient is selected and when the
      list holds at most one record; a list of two or more with a selected
      listed patient always enables at least one of them. */
  lemma ButtonsEnabled(currentPatient: Option<PatientData>, allPatients: seq<PatientData>)
    ensures currentPatient.None? || |allPatients| <= 1
            ==> !HasPrevious(currentPatient, allPatients) && !HasNext(currentPatient, allPatients)
    ensures CurrentIndex(currentPatient, allPatients) >= 0 && |allPatients| >= 2
            ==> HasPrevious(currentPatient, allPatients) || HasNext(currentPatient, allPatients)
    ensures HasPrevious(currentPatient, allPatients) && HasNext(currentPatient, allPatients)
            ==> |allPatients| >= 3
  {
  }

  /** No two records share an id. */
  ghost predicate DistinctIds(allPatients: seq<PatientData>)
  {
    forall i, j :: 0 <= i < j < |allPatients| ==> allPatients[i].id != allPatients[j].id
  }

  /** With distinct ids, "next" moves the position up by one, and "previous"
      from there leads back to the record at the starting position. */
  lemma NextThenPrevious(currentPatient: Option<PatientData>, allPatients: seq<PatientData>)
    requires DistinctIds(allPatients)
    requires HasNext(currentPatient, allPatients)
    ensures var ci := CurrentIndex(currentPatient, allPatients);
            var moved := Next(currentPatient, allPatients);
            && CurrentIndex(moved, allPatients) == ci + 1
            && Previous(moved, allPatients) == Some(allPatients[ci])
  {
  }

  /** With distinct ids, "previous" moves the position down by one, and
      "next" from there leads back. */
  lemma PreviousThenNext(currentPatient: Option<PatientData>, allPatients: seq<PatientData>)
    requires DistinctIds(allPatients)
    requires HasPrevious(currentPatient, allPatients)
    ensures var ci := CurrentIndex(currentPatient, allPatients);
            var moved := Previous(currentPatient, allPatients);
            && CurrentIndex(moved, allPatients) == ci - 1
            && Next(moved, allPatients) == Some(allPatients[ci])
  {
  }

  /** Positions are found by id, so two records sharing an id make "next"
      stall: from the first, "next" selects the second, whose position is
      again that of the first. */
  lemma SharedIdStallsNext(a: PatientData, b: PatientData)
    requires a.id == b.id && a != b
    ensures Next(Some(a), [a, b]) == Some(b)
    ensures CurrentIndex(Some(b), [a, b]) == 0
    ensures Next(Some(b), [a, b]) == Some(b)
  {
  }

  /** What the search action does. */
  datatype SearchStep =
    | Ignored
    | Searched(saved: seq<PatientData>, results: seq<PatientData>)

  /** `performSearch()`: a blank (trimmed) search text does nothing;
      otherwise the pending edits of the current patient are written to the
      store (`onForceSave` is taken to be the form's
      `forceSavePendingChanges`), and the store is searched for the trimmed
      text: a blank normalised query lists the whole saved store by name,
      any other exactly the saved records whose lowercased name contains it. */
  function PerformSearch(searchText: string, trim: string -> string, lower: string -> string,
                         currentPatient: Option<PatientData>, patients: seq<PatientData>): (step: SearchStep)
    ensures step.Ignored? <==> |trim(searchText)| == 0
    ensures step.Searched? && currentPatient.None? ==> step.saved == patients
    ensures step.Searched? && currentPatient.Some?
            ==> step.saved == PatientStore.UpdatePatient(patients, currentPatient.value)
    ensures step.Searched? ==> |step.saved| == |patients|
    ensures step.Searched? && |lower(trim(trim(searchText)))| == 0
            ==> step.results == PatientStore.FetchPatients(step.saved)
    ensures step.Searched? && |lower(trim(trim(searchText)))| > 0
            ==> forall x: PatientData :: multiset(step.results)[x]
                    == if Contains(lower(x.name), lower(trim(trim(searchText))))
                       then multiset(step.saved)[x] else 0
    ensures step.Searched? ==> NameOrder.SortedByName(step.results)
    ensures step.Searched? && currentPatient.Some?
            && PatientStore.IndexOfId(patients, currentPatient.value.id).Some?
            ==> currentPatient.value in step.saved
    ensures step.Searched? ==> forall x :: x in step.results ==> x in step.saved
  {
    var trimmedSearch := trim(searchText);
    if |trimmedSearch| == 0 then Ignored
    else
      var saved := ContentView.ForceSavePendingChanges(currentPatient, patients);
      var results := PatientStore.SearchPatients(saved, trimmedSearch, trim, lower);
      assert forall x :: x in results ==> x in saved by {
        forall x | x in results ensures x in saved {
          assert multiset(results)[x] > 0;
        }
      }
      Searched(saved, results)
  }

  /** Because the edits are saved before searching, the current patient is
      found under its edited name: when that name contains the query, the
      edited record is among the results. */
  lemma SearchSeesPendingEdits(searchText: string, trim: string -> string, lower: string -> string,
                               current: PatientData, patients: seq<PatientData>)
    requires |trim(searchText)| > 0 && |lower(trim(trim(searchText)))| > 0
    requires PatientStore.IndexOfId(patients, current.id).Some?
    requires Contains(lower(current.name), lower(trim(trim(searchText))))
    ensures current in PerformSearch(searchText, trim, lower, Some(current), patients).results
  {
    var step := PerformSearch(searchText, trim, lower, Some(current), patients);
    PatientStore.SearchIsExact(step.saved, trim(searchText), trim, lower, current);
  }
}
