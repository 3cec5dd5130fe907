/** The navigation bar over the Core Data store (`Patient` objects). It
    differs from the JSON-store bar in two ways: the position is found by
    object identity (`firstIndex(of:)`, modelled as record equality), and
    the search action first reselects a neighbouring patient, reading the
    list at positions that are not always inside it. A read outside the
    list traps the application; here it is an explicit outcome. The search
    itself (`PersistenceController.searchPatients`) is not part of this
    model. */
module CoreDataNavigation {
  import opened Basics
  import opened PatientRecord

  /** `currentIndex`: the first position holding the current patient, or -1. */
  function CurrentIndex(currentPatient: Option<PatientData>, allPatients: seq<PatientData>): (ci: int)
    ensures -1 <= ci < |allPatients|
    ensures ci == -1 <==> currentPatient.None? || currentPatient.value !in allPatients
    ensures ci >= 0 ==> allPatients[ci] == currentPatient.value
                        && forall j :: 0 <= j < ci ==> allPatients[j] != currentPatient.value
  {
    match currentPatient
    case None => -1
    case Some(current) =>
      match FirstIndexOf(allPatients, current)
      case None => -1
      case Some(index) => index
  }

  /** `hasPrevious`, including its emptiness test: the current patient is
      listed and is not the first record. */
  predicate HasPrevious(currentPatient: Option<PatientData>, allPatients: seq<PatientData>)
    ensures HasPrevious(currentPatient, allPatients)
            <==> currentPatient.Some? && currentPatient.value in allPatients
                 && allPatients[0] != currentPatient.value
  {
    CurrentIndex(currentPatient, allPatients) > 0 && |allPatients| != 0
  }

  /** `hasNext`: the current patient occurs somewhere before the last
      position. */
  predicate HasNext(currentPatient: Option<PatientData>, allPatients: seq<PatientData>)
    ensures HasNext(currentPatient, allPatients)
            <==> currentPatient.Some?
                 && exists i :: 0 <= i < |allPatients| - 1 && allPatients[i] == currentPatient.value
  {
    var ci := CurrentIndex(currentPatient, allPatients);
    ci < |allPatients| - 1 && ci >= 0
  }

  /** The emptiness test in `hasPrevious` never decides anything: a
      positive position already implies a non-empty list. */
  lemma HasPreviousIsPositiveIndex(currentPatient: Option<PatientData>, allPatients: seq<PatientData>)
    ensures HasPrevious(currentPatient, allPatients) <==> CurrentIndex(currentPatient, allPatients) > 0
  {
  }

  /** The "previous" button. */
  function Previous(currentPatient: Option<PatientData>, allPatients: seq<PatientData>): (r: Option<PatientData>)
    ensures r.Some? <==> HasPrevious(currentPatient, allPatients)
    ensures r.Some? ==> r.value == allPatients[CurrentIndex(currentPatient, allPatients) - 1]
  {
    if HasPrevious(currentPatient, allPatients)
    then Some(allPatients[CurrentIndex(currentPatient, allPatients) - 1])
    else None
  }

  /** The "next" button. */
  function Next(currentPatient: Option<PatientData>, allPatients: seq<PatientData>): (r: Option<PatientData>)
    ensures r.Some? <==> HasNext(currentPatient, allPatients)
    ensures r.Some? ==> r.value == allPatients[CurrentIndex(currentPatient, allPatients) + 1]
  {
    if HasNext(currentPatient, allPatients)
    then Some(allPatients[CurrentIndex(currentPatient, allPatients) + 1])
    else None
  }

  /** No record occurs twice. */
  ghost predicate Distinct(allPatients: seq<PatientData>)
  {
    forall i, j :: 0 <= i < j < |allPatients| ==> allPatients[i] != allPatients[j]
  }

  /** With distinct records, "next" then "previous" comes back to the
      current patient, and so does "previous" then "next". */
  lemma StepsAreInverse(currentPatient: Option<PatientData>, allPatients: seq<PatientData>)
    requires Distinct(allPatients)
    ensures HasNext(currentPatient, allPatients)
            ==> Previous(Next(currentPatient, allPatients), allPatients) == currentPatient
    ensures HasPrevious(currentPatient, allPatients)
            ==> Next(Previous(currentPatient, allPatients), allPatients) == currentPatient
  {
    var ci := CurrentIndex(currentPatient, allPatients);
    if HasNext(currentPatient, allPatients) {
      assert CurrentIndex(Next(currentPatient, allPatients), allPatients) == ci + 1;
    }
    if HasPrevious(currentPatient, allPatients) {
      assert CurrentIndex(Previous(currentPatient, allPatients), allPatients) == ci - 1;
    }
  }

  /** Which branch of the search action's reselection ran. */
  datatype Branch =
    | EmptyList          // the list is empty: reads at the current position
    | PreviousNeighbour  // `hasPrevious`: reads just before the current position
    | NextNeighbour      // `hasNext`: reads just after the current position
    | FirstFallback      // position 0 with neither neighbour: reads position 1
    | LastFallback       // last position with neither neighbour: reads one before it
    | NoBranch           // nothing selected

  /** The outcome of reading the list at a position. */
  datatype Read = NoRead | Selected(patient: PatientData) | OutOfBounds(index: int)

  /** Subscripting the list: inside it a record, outside it a trap. */
  function ReadAt(allPatients: seq<PatientData>, index: int): (r: Read)
    ensures r.OutOfBounds? <==> !(0 <= index < |allPatients|)
    ensures r.OutOfBounds? ==> r.index == index
    ensures r.Selected? ==> r.patient == allPatients[index]
  {
    if 0 <= index < |allPatients| then Selected(allPatients[index]) else OutOfBounds(index)
  }

  datatype Reselection = Reselection(branch: Branch, read: Read)

  /** The reselection ladder of `performSearch()`, before the search. It
      reads outside the list exactly when the list is empty or holds only the
      current patient, never takes the last-position fallback, reads nothing
      exactly when the current patient is not listed, and otherwise selects a
      neighbour of the current position: the previous one when there is one,
      else the next. */
  function Reselect(currentPatient: Option<PatientData>, allPatients: seq<PatientData>): (r: Reselection)
    ensures var ci := CurrentIndex(currentPatient, allPatients);
            r.read.OutOfBounds? <==> |allPatients| == 0 || (|allPatients| == 1 && ci == 0)
    ensures r.branch != LastFallback
    ensures r.read.NoRead? <==> |allPatients| > 0 && CurrentIndex(currentPatient, allPatients) == -1
    ensures var ci := CurrentIndex(currentPatient, allPatients);
            r.read.Selected? ==> (ci > 0 && r.read.patient == allPatients[ci - 1])
                                 || (ci == 0 && r.read.patient == allPatients[1])
  {
    var ci := CurrentIndex(currentPatient, allPatients);
    if |allPatients| == 0 then Reselection(EmptyList, ReadAt(allPatients, ci))
    else if HasPrevious(currentPatient, allPatients) then Reselection(PreviousNeighbour, ReadAt(allPatients, ci - 1))
    else if HasNext(currentPatient, allPatients) then Reselection(NextNeighbour, ReadAt(allPatients, ci + 1))
    else if ci == 0 then Reselection(FirstFallback, ReadAt(allPatients, ci + 1))
    else if ci == |allPatients| - 1 then Reselection(LastFallback, ReadAt(allPatients, ci - 1))
    else Reselection(NoBranch, NoRead)
  }

  /** The reselection traps exactly when the list is empty (it reads
      position -1) or holds only the current patient (it reads position 1);
      the last-position fallback can never run; otherwise it selects the
      previous neighbour when there is one, else the next, and selects
      nothing when the current patient is not listed. */
  lemma ReselectOutcomes(currentPatient: Option<PatientData>, allPatients: seq<PatientData>)
    ensures var ci := CurrentIndex(currentPatient, allPatients);
            var r := Reselect(currentPatient, allPatients);
            && (r.read.OutOfBounds? <==> |allPatients| == 0 || (|allPatients| == 1 && ci == 0))
            && (|allPatients| == 0 ==> r.read == OutOfBounds(-1))
            && (|allPatients| == 1 && ci == 0 ==> r == Reselection(FirstFallback, OutOfBounds(1)))
            && r.branch != LastFallback
            && (r.read.NoRead? <==> |allPatients| > 0 && ci == -1)
            && (ci > 0 ==> r.read == Selected(allPatients[ci - 1]))
            && (ci == 0 && |allPatients| >= 2 ==> r.read == Selected(allPatients[1]))
  {
  }

  /** `FirstFallback` runs only on a one-record list, so every read it makes
      is out of bounds. */
  lemma FirstFallbackAlwaysTraps(currentPatient: Option<PatientData>, allPatients: seq<PatientData>)
    requires Reselect(currentPatient, allPatients).branch == FirstFallback
    ensures |allPatients| == 1
    ensures Reselect(currentPatient, allPatients).read == OutOfBounds(1)
  {
  }

  /** What the search action does. */
  datatype SearchStep =
    | Ignored
    | Trapped(index: int)
    | Searched(reselected: Option<PatientData>, query: string)

  /** `performSearch()`: a blank (trimmed) search text does nothing;
      otherwise pending edits are saved (outside this view), a neighbour is
      reselected, and the search runs with the trimmed text unless the
      reselection read outside the list. */
  function PerformSearch(searchText: string, trim: string -> string,
                         currentPatient: Option<PatientData>, allPatients: seq<PatientData>): (step: SearchStep)
    ensures step.Ignored? <==> |trim(searchText)| == 0
    ensures step.Trapped? <==> |trim(searchText)| > 0
                               && (|allPatients| == 0
                                   || (|allPatients| == 1 && CurrentIndex(currentPatient, allPatients) == 0))
    ensures step.Searched? ==> step.query == trim(searchText)
    ensures step.Searched? && step.reselected.Some? ==> step.reselected.value in allPatients
    ensures step.Searched? ==> (step.reselected.None? <==> CurrentIndex(currentPatient, allPatients) == -1)
    ensures step.Searched? && step.reselected.Some? ==>
              step.reselected == Previous(currentPatient, allPatients)
              || (CurrentIndex(currentPatient, allPatients) == 0 && step.reselected == Next(currentPatient, allPatients))
  {
    ReselectOutcomes(currentPatient, allPatients);
    var trimmedSearch := trim(searchText);
    if |trimmedSearch| == 0 then Ignored
    else
      match Reselect(currentPatient, allPatients).read
      case OutOfBounds(index) => Trapped(index)
      case Selected(patient) => Searched(Some(patient), trimmedSearch)
      case NoRead => Searched(None, trimmedSearch)
  }

  /** With two or more records and a listed current patient, a search
      always reselects one of the current patient's neighbours. */
  lemma SearchReselectsNeighbour(searchText: string, trim: string -> string,
                                 currentPatient: Option<PatientData>, allPatients: seq<PatientData>)
    requires |trim(searchText)| > 0
    requires |allPatients| >= 2 && CurrentIndex(currentPatient, allPatients) >= 0
    ensures var ci := CurrentIndex(currentPatient, allPatients);
            var step := PerformSearch(searchText, trim, currentPatient, allPatients);
            && step.Searched? && step.reselected.Some?
            && (step.reselected == Previous(currentPatient, allPatients)
                || (ci == 0 && step.reselected == Next(currentPatient, allPatients)))
  {
    ReselectOutcomes(currentPatient, allPatients);
  }
}
