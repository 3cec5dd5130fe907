/** The in-memory side of `PatientDataStore` (the application carries two
    copies of the class, identical in these operations): the `patients`
    array and the CRUD and search operations over it. Each operation takes
    the array before the call and, when it mutates, returns the array after
    it; saving to the JSON file is not modelled. */
module PatientStore {
  import opened Basics
  import opened PatientRecord
  import opened NameOrder

  /** The ids of the records, in order. */
  function Ids(patients: seq<PatientData>): (ids: seq<Id>)
    ensures |ids| == |patients|
    ensures forall i :: 0 <= i < |patients| ==> ids[i] == patients[i].id
  {
    seq(|patients|, i requires 0 <= i < |patients| => patients[i].id)
  }

  /** `patients.firstIndex(where: { $0.id == id })`. */
  function IndexOfId(patients: seq<PatientData>, id: Id): (r: Option<nat>)
    ensures r.None? <==> forall i :: 0 <= i < |patients| ==> patients[i].id != id
    ensures r.Some? ==> r.value < |patients| && patients[r.value].id == id
    ensures r.Some? ==> forall j :: 0 <= j < r.value ==> patients[j].id != id
  {
    var r := FirstIndexOf(Ids(patients), id);
    assert r.None? ==> forall i :: 0 <= i < |patients| ==> Ids(patients)[i] != id;
    r
  }

  /** `fetchPatients()`: the records sorted by name; the stored array itself
      is not reordered (the operation returns a copy). */
  function FetchPatients(patients: seq<PatientData>): (r: seq<PatientData>)
    ensures SortedByName(r)
    ensures multiset(r) == multiset(patients)
  {
    SortByName(patients)
  }

  /** `addPatient(_:)`: appends, whatever the id. */
  function AddPatient(patients: seq<PatientData>, patient: PatientData): (r: seq<PatientData>)
    ensures |r| == |patients| + 1
    ensures r[|patients|] == patient
    ensures r[..|patients|] == patients
  {
    patients + [patient]
  }

  /** `updatePatient(_:)`: replaces the first record with the same id; when
      no record has that id nothing changes. */
  function UpdatePatient(patients: seq<PatientData>, patient: PatientData): (r: seq<PatientData>)
    ensures |r| == |patients|
    ensures (forall i :: 0 <= i < |patients| ==> patients[i].id != patient.id) ==> r == patients
    ensures forall k :: 0 <= k < |patients| && patients[k].id == patient.id
                        && (forall j :: 0 <= j < k ==> patients[j].id != patient.id) ==>
              r[k] == patient && forall j :: 0 <= j < |patients| && j != k ==> r[j] == patients[j]
  {
    match IndexOfId(patients, patient.id)
    case None => patients
    case Some(index) => patients[index := patient]
  }

  /** Updating twice with the same record is the same as updating once: the
      replaced record keeps the id, so it is still the first match. */
  lemma UpdateIdempotent(patients: seq<PatientData>, patient: PatientData)
    ensures UpdatePatient(UpdatePatient(patients, patient), patient) == UpdatePatient(patients, patient)
  {
    match IndexOfId(patients, patient.id)
    case None =>
    case Some(k) =>
      var once := UpdatePatient(patients, patient);
      assert once == patients[k := patient];
      assert forall j :: 0 <= j < k ==> once[j].id != patient.id;
      assert IndexOfId(once, patient.id) == Some(k);
  }

  /** `patients.removeAll { $0.id == id }`, keeping the others in order. */
  function RemoveAllWithId(patients: seq<PatientData>, id: Id): (r: seq<PatientData>)
    ensures forall x :: x in r ==> x.id != id && x in patients
    ensures forall x: PatientData :: x.id != id ==> multiset(r)[x] == multiset(patients)[x]
    ensures |r| <= |patients|
  {
    if |patients| == 0 then []
    else
      assert patients == [patients[0]] + patients[1..];
      (if patients[0].id == id then [] else [patients[0]]) + RemoveAllWithId(patients[1..], id)
  }

  /** `deletePatient(_:)`: removes every record with the patient's id. */
  function DeletePatient(patients: seq<PatientData>, patient: PatientData): (r: seq<PatientData>)
    ensures forall i :: 0 <= i < |r| ==> r[i].id != patient.id
    ensures forall x: PatientData :: x.id != patient.id ==> multiset(r)[x] == multiset(patients)[x]
  {
    RemoveAllWithId(patients, patient.id)
  }

  /** Removal acts on each part of a list separately, so the surviving
      records keep their relative order. */
  lemma {:induction false} RemoveDistributes(xs: seq<PatientData>, ys: seq<PatientData>, id: Id)
    ensures RemoveAllWithId(xs + ys, id) == RemoveAllWithId(xs, id) + RemoveAllWithId(ys, id)
  {
    if |xs| > 0 {
      assert (xs + ys)[1..] == xs[1..] + ys;
      RemoveDistributes(xs[1..], ys, id);
    } else {
      assert xs + ys == ys;
    }
  }

  /** Removing an id no record carries changes nothing. */
  lemma {:induction false} RemoveAbsent(patients: seq<PatientData>, id: Id)
    requires forall i :: 0 <= i < |patients| ==> patients[i].id != id
    ensures RemoveAllWithId(patients, id) == patients
  {
    if |patients| > 0 {
      RemoveAbsent(patients[1..], id);
      assert patients == [patients[0]] + patients[1..];
    }
  }

  /** Deleting is idempotent. */
  lemma DeleteIdempotent(patients: seq<PatientData>, patient: PatientData)
    ensures DeletePatient(DeletePatient(patients, patient), patient) == DeletePatient(patients, patient)
  {
    RemoveAbsent(DeletePatient(patients, patient), patient.id);
  }

  /** Adding a record with an id not yet in the store and then deleting it
      restores the store. */
  lemma AddThenDeleteRestores(patients: seq<PatientData>, patient: PatientData)
    requires forall i :: 0 <= i < |patients| ==> patients[i].id != patient.id
    ensures DeletePatient(AddPatient(patients, patient), patient) == patients
  {
    RemoveDistributes(patients, [patient], patient.id);
    RemoveAbsent(patients, patient.id);
    assert RemoveAllWithId([patient], patient.id) == [];
  }

  /** The records whose lowercased name contains `query`, in store order
      (`patients.filter { $0.name.lowercased().contains(query) }`). */
  function Matching(patients: seq<PatientData>, query: string, lower: string -> string): (r: seq<PatientData>)
    ensures forall x: PatientData :: multiset(r)[x]
                        == if Contains(lower(x.name), query) then multiset(patients)[x] else 0
  {
    if |patients| == 0 then []
    else
      assert patients == [patients[0]] + patients[1..];
      (if Contains(lower(patients[0].name), query) then [patients[0]] else [])
      + Matching(patients[1..], query, lower)
  }

  /** `searchPatients(by:)`: the query is trimmed and lowercased (both
      string primitives are parameters); a blank query returns
      `fetchPatients()`, any other the matching records sorted by name. */
  function SearchPatients(patients: seq<PatientData>, name: string,
                          trim: string -> string, lower: string -> string): (r: seq<PatientData>)
    ensures |lower(trim(name))| == 0 ==> r == FetchPatients(patients)
    ensures |lower(trim(name))| > 0 ==> SortedByName(r)
    ensures |lower(trim(name))| > 0 ==>
              forall x: PatientData :: multiset(r)[x]
                          == if Contains(lower(x.name), lower(trim(name))) then multiset(patients)[x] else 0
  {
    var trimmedName := lower(trim(name));
    if |trimmedName| == 0 then FetchPatients(patients)
    else SortByName(Matching(patients, trimmedName, lower))
  }

  /** Search results come from the store, every one of them matches, and
      every matching record is found. */
  lemma SearchIsExact(patients: seq<PatientData>, name: string,
                      trim: string -> string, lower: string -> string, x: PatientData)
    requires |lower(trim(name))| > 0
    ensures x in SearchPatients(patients, name, trim, lower)
            <==> x in patients && Contains(lower(x.name), lower(trim(name)))
  {
    var r := SearchPatients(patients, name, trim, lower);
    assert x in r <==> multiset(r)[x] > 0;
    assert x in patients <==> multiset(patients)[x] > 0;
  }
}
