/** The editing form of the main window: thirteen text fields mirrored to
    and from the current record, the ear vectors read from the fields, the
    bilateral figure computed from them, and the forced save. The one-second
    debounced autosave is not modelled. */
module ContentView {
  import opened Basics
  import opened PatientRecord
  import PatientStore
  import Calculations
  import opened InlineCalculations

  /** The thirteen `@State` text fields of the form. */
  datatype Form = Form(
    patientName: string,
    patientAge: string,
    patientJob: string,
    rightEar500: string,
    rightEar1000: string,
    rightEar2000: string,
    rightEar4000: string,
    rightEar8000: string,
    leftEar500: string,
    leftEar1000: string,
    leftEar2000: string,
    leftEar4000: string,
    leftEar8000: string)

  function FormRightFields(f: Form): seq<string>
  {
    [f.rightEar500, f.rightEar1000, f.rightEar2000, f.rightEar4000, f.rightEar8000]
  }

  function FormLeftFields(f: Form): seq<string>
  {
    [f.leftEar500, f.leftEar1000, f.leftEar2000, f.leftEar4000, f.leftEar8000]
  }

  /** The fields in the order of `PatientRecord.TextFields`. */
  function FormFields(f: Form): seq<string>
  {
    [f.patientName, f.patientAge, f.patientJob] + FormRightFields(f) + FormLeftFields(f)
  }

  /** Helper for the round-trip lemmas: a form is determined by its fields. */
  lemma FormFieldsDetermineForm(f: Form, g: Form)
    requires FormFields(f) == FormFields(g)
    ensures f == g
  {
    assert FormFields(f)[0] == f.patientName && FormFields(g)[0] == g.patientName;
    assert FormFields(f)[1] == f.patientAge && FormFields(g)[1] == g.patientAge;
    assert FormFields(f)[2] == f.patientJob && FormFields(g)[2] == g.patientJob;
    assert FormFields(f)[3..8] == FormRightFields(f) && FormFields(g)[3..8] == FormRightFields(g);
    assert FormFields(f)[8..] == FormLeftFields(f) && FormFields(g)[8..] == FormLeftFields(g);
  }

  /** `clearForm()`: every field empty. */
  function ClearForm(): (f: Form)
    ensures FormFields(f) == BlankFields()
  {
    Form("", "", "", "", "", "", "", "", "", "", "", "", "")
  }

  /** `loadPatient(_:)`: copies the record's thirteen text fields into the
      form, field for field. */
  function LoadPatient(patient: PatientData): (f: Form)
    ensures FormFields(f) == TextFields(patient)
  {
    Form(patient.name, patient.age, patient.job,
         patient.rightEar500, patient.rightEar1000, patient.rightEar2000,
         patient.rightEar4000, patient.rightEar8000,
         patient.leftEar500, patient.leftEar1000, patient.leftEar2000,
         patient.leftEar4000, patient.leftEar8000)
  }

  /** `updateCurrentPatient()`: without a current patient nothing happens;
      otherwise the form's fields are copied back into it and its
      modification time is refreshed. */
  function UpdateCurrentPatient(currentPatient: Option<PatientData>, f: Form, now: Date): (r: Option<PatientData>)
    ensures currentPatient.None? <==> r.None?
    ensures r.Some? ==> r.value.id == currentPatient.value.id
    ensures r.Some? ==> r.value.dateCreated == currentPatient.value.dateCreated
    ensures r.Some? ==> r.value.dateModified == now
    ensures r.Some? ==> TextFields(r.value) == FormFields(f)
  {
    match currentPatient
    case None => None
    case Some(patient) =>
      var edited := patient.(
        name := f.patientName, age := f.patientAge, job := f.patientJob,
        rightEar500 := f.rightEar500, rightEar1000 := f.rightEar1000,
        rightEar2000 := f.rightEar2000, rightEar4000 := f.rightEar4000,
        rightEar8000 := f.rightEar8000,
        leftEar500 := f.leftEar500, leftEar1000 := f.leftEar1000,
        leftEar2000 := f.leftEar2000, leftEar4000 := f.leftEar4000,
        leftEar8000 := f.leftEar8000);
      Some(UpdateModifiedDate(edited, now))
  }

  /** Loading a patient and writing the untouched form back reproduces the
      patient; only the modification time changes. */
  lemma LoadThenUpdateRoundTrip(patient: PatientData, now: Date)
    ensures UpdateCurrentPatient(Some(patient), LoadPatient(patient), now)
            == Some(UpdateModifiedDate(patient, now))
  {
    var r := UpdateCurrentPatient(Some(patient), LoadPatient(patient), now);
    TextFieldsDetermineRecord(r.value, UpdateModifiedDate(patient, now));
  }

  /** Writing a form into the current patient and loading that patient
      gives the same form back. */
  lemma UpdateThenLoadRoundTrip(patient: PatientData, f: Form, now: Date)
    ensures LoadPatient(UpdateCurrentPatient(Some(patient), f, now).value) == f
  {
    FormFieldsDetermineForm(LoadPatient(UpdateCurrentPatient(Some(patient), f, now).value), f);
  }

  /** The form view's `getRightEarValues()`: parse-or-0 of the five
      right-ear fields in frequency order. It reads what the record getter
      would read after the form is saved into a record. */
  function RightEarValues(f: Form, parse: Parser): (values: seq<real>)
    ensures |values| == 5
    ensures forall i :: 0 <= i < 5 ==> values[i] == ParseOrZero(parse, FormRightFields(f)[i])
  {
    EarValues(FormRightFields(f), parse)
  }

  /** The form view's `getLeftEarValues()`. */
  function LeftEarValues(f: Form, parse: Parser): (values: seq<real>)
    ensures |values| == 5
    ensures forall i :: 0 <= i < 5 ==> values[i] == ParseOrZero(parse, FormLeftFields(f)[i])
  {
    EarValues(FormLeftFields(f), parse)
  }

  /** After `loadPatient`, the form's vectors are the record's vectors. */
  lemma LoadedFormReadsLikeRecord(patient: PatientData, parse: Parser)
    ensures RightEarValues(LoadPatient(patient), parse) == PatientRecord.RightEarValues(patient, parse)
    ensures LeftEarValues(LoadPatient(patient), parse) == PatientRecord.LeftEarValues(patient, parse)
  {
  }

  /** A cleared form reads as silence in both ears when the parser rejects
      the empty string. */
  lemma ClearedFormIsSilent(parse: Parser)
    requires parse("") == None
    ensures RightEarValues(ClearForm(), parse) == [0.0, 0.0, 0.0, 0.0, 0.0]
    ensures LeftEarValues(ClearForm(), parse) == [0.0, 0.0, 0.0, 0.0, 0.0]
  {
  }

  /** The zero-argument `calculateBilateralHearingLoss()` of the form: the
      mean of the two ears' means over the form's vectors, classified with
      the ladder. Both vectors always have five values, so the figure is
      never NaN and equals the stand-alone bilateral value. */
  function BilateralHearingLoss(f: Form, parse: Parser): (r: Reading)
    ensures r.value == Finite(Calculations.CalculateBilateralHearingLoss(
                                RightEarValues(f, parse), LeftEarValues(f, parse)).value)
    ensures r.band == Ladder(r.value.v)
  {
    InlineCalculations.BilateralHearingLoss(RightEarValues(f, parse), LeftEarValues(f, parse))
  }

  /** All figures shown in the results section of the form. */
  function Results(f: Form, parse: Parser): Assessment
  {
    Assess(RightEarValues(f, parse), LeftEarValues(f, parse))
  }

  /** `forceSavePendingChanges()`: writes the current patient (if any) to
      the store by id, then the list is re-read (by the caller). The store
      keeps its size, and a current patient the store knows is in it
      afterwards, edits included. */
  function ForceSavePendingChanges(currentPatient: Option<PatientData>, patients: seq<PatientData>): (r: seq<PatientData>)
    ensures currentPatient.None? ==> r == patients
    ensures currentPatient.Some? ==> r == PatientStore.UpdatePatient(patients, currentPatient.value)
    ensures |r| == |patients|
    ensures currentPatient.Some? && PatientStore.IndexOfId(patients, currentPatient.value.id).Some?
            ==> currentPatient.value in r
  {
    match currentPatient
    case None => patients
    case Some(patient) => PatientStore.UpdatePatient(patients, patient)
  }
}
