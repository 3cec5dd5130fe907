/** The patient record `PatientData`: an id, three demographic text fields,
    ten hearing-level text fields (five frequencies per ear) and two
    timestamps. All measurements are kept as the text the user typed; the
    numbers are obtained by parsing on demand. */
module PatientRecord {
  import opened Basics

  /** A record identifier (a `UUID` in the application; generation is not
      modelled, ids are given). */
  type Id = int

  /** A point in time (`Date`), opaque: only equality matters here. */
  type Date = int

  /** Swift's `Double(String)` failable initialiser, left uninterpreted. */
  type Parser = string -> Option<real>

  datatype PatientData = PatientData(
    id: Id,
    name: string,
    age: string,
    job: string,
    rightEar500: string,
    rightEar1000: string,
    rightEar2000: string,
    rightEar4000: string,
    rightEar8000: string,
    leftEar500: string,
    leftEar1000: string,
    leftEar2000: string,
    leftEar4000: string,
    leftEar8000: string,
    dateCreated: Date,
    dateModified: Date)

  /** The five right-ear fields in frequency order 500, 1000, 2000, 4000,
      8000 Hz. */
  function RightEarFields(p: PatientData): seq<string>
  {
    [p.rightEar500, p.rightEar1000, p.rightEar2000, p.rightEar4000, p.rightEar8000]
  }

  /** The five left-ear fields in frequency order. */
  function LeftEarFields(p: PatientData): seq<string>
  {
    [p.leftEar500, p.leftEar1000, p.leftEar2000, p.leftEar4000, p.leftEar8000]
  }

  /** The thirteen user-editable text fields, in declaration order. */
  function TextFields(p: PatientData): seq<string>
  {
    [p.name, p.age, p.job] + RightEarFields(p) + LeftEarFields(p)
  }

  /** Thirteen empty strings. */
  function BlankFields(): seq<string>
  {
    seq(13, _ => "")
  }

  /** Helper for the round-trip lemmas: two records with the same id,
      timestamps and text fields are equal:
      `TextFields` loses nothing. */
  lemma TextFieldsDetermineRecord(p: PatientData, q: PatientData)
    requires p.id == q.id && p.dateCreated == q.dateCreated && p.dateModified == q.dateModified
    requires TextFields(p) == TextFields(q)
    ensures p == q
  {
    assert TextFields(p)[0] == p.name && TextFields(q)[0] == q.name;
    assert TextFields(p)[1] == p.age && TextFields(q)[1] == q.age;
    assert TextFields(p)[2] == p.job && TextFields(q)[2] == q.job;
    assert TextFields(p)[3..8] == RightEarFields(p) && TextFields(q)[3..8] == RightEarFields(q);
    assert TextFields(p)[8..] == LeftEarFields(p) && TextFields(q)[8..] == LeftEarFields(q);
  }

  /** `init(id:)`: the given id, every text field empty. The clock is read
      twice, once per timestamp, so the two readings are separate inputs
      and nothing relates them. */
  function Init(id: Id, created: Date, modified: Date): (p: PatientData)
    ensures p.id == id
    ensures TextFields(p) == BlankFields()
    ensures p.dateCreated == created && p.dateModified == modified
  {
    PatientData(id, "", "", "", "", "", "", "", "", "", "", "", "", "", created, modified)
  }

  /** `updateModifiedDate()`: only the modification time changes. */
  function UpdateModifiedDate(p: PatientData, now: Date): (q: PatientData)
    ensures q.dateModified == now
    ensures q.id == p.id && q.dateCreated == p.dateCreated
    ensures TextFields(q) == TextFields(p)
  {
    p.(dateModified := now)
  }

  /** `Double(text) ?? 0`. */
  function ParseOrZero(parse: Parser, text: string): real
  {
    match parse(text)
    case Some(v) => v
    case None => 0.0
  }

  /** Parse-or-zero applied position by position. */
  function EarValues(fields: seq<string>, parse: Parser): (values: seq<real>)
    ensures |values| == |fields|
    ensures forall i :: 0 <= i < |fields| ==> values[i] == ParseOrZero(parse, fields[i])
  {
    seq(|fields|, i requires 0 <= i < |fields| => ParseOrZero(parse, fields[i]))
  }

  /** `getRightEarValues()`: five numbers, position i from the i-th right-ear
      field (500 Hz first), unparseable or empty text read as 0. */
  function RightEarValues(p: PatientData, parse: Parser): (values: seq<real>)
    ensures |values| == 5
    ensures values[0] == ParseOrZero(parse, p.rightEar500)
    ensures values[1] == ParseOrZero(parse, p.rightEar1000)
    ensures values[2] == ParseOrZero(parse, p.rightEar2000)
    ensures values[3] == ParseOrZero(parse, p.rightEar4000)
    ensures values[4] == ParseOrZero(parse, p.rightEar8000)
  {
    EarValues(RightEarFields(p), parse)
  }

  /** `getLeftEarValues()`: the same for the left-ear fields. */
  function LeftEarValues(p: PatientData, parse: Parser): (values: seq<real>)
    ensures |values| == 5
    ensures values[0] == ParseOrZero(parse, p.leftEar500)
    ensures values[1] == ParseOrZero(parse, p.leftEar1000)
    ensures values[2] == ParseOrZero(parse, p.leftEar2000)
    ensures values[3] == ParseOrZero(parse, p.leftEar4000)
    ensures values[4] == ParseOrZero(parse, p.leftEar8000)
  {
    EarValues(LeftEarFields(p), parse)
  }

  /** Each ear's vector depends on that ear's fields only: editing the name,
      the demographics, the dates or the other ear never changes it. */
  lemma EarsAreIndependent(p: PatientData, q: PatientData, parse: Parser)
    ensures RightEarFields(p) == RightEarFields(q) ==> RightEarValues(p, parse) == RightEarValues(q, parse)
    ensures LeftEarFields(p) == LeftEarFields(q) ==> LeftEarValues(p, parse) == LeftEarValues(q, parse)
  {
  }

  /** An empty field reads as 0 dB, exactly like a typed 0: in any field of
      either ear the two cannot be told apart from the vector. */
  lemma BlankReadsAsZero(p: PatientData, q: PatientData, i: nat, parse: Parser)
    requires parse("") == None
    requires parse("0") == Some(0.0)
    requires i < 5
    ensures ParseOrZero(parse, "") == ParseOrZero(parse, "0") == 0.0
    ensures RightEarFields(p)[i] == "" && RightEarFields(q) == RightEarFields(p)[i := "0"]
            ==> RightEarValues(p, parse) == RightEarValues(q, parse)
    ensures LeftEarFields(p)[i] == "" && LeftEarFields(q) == LeftEarFields(p)[i := "0"]
            ==> LeftEarValues(p, parse) == LeftEarValues(q, parse)
  {
  }

  /** A freshly initialised record yields all-zero vectors for both ears,
      provided the parser rejects the empty string (as `Double("")` does). */
  lemma FreshRecordIsSilent(id: Id, created: Date, modified: Date, parse: Parser)
    requires parse("") == None
    ensures RightEarValues(Init(id, created, modified), parse) == [0.0, 0.0, 0.0, 0.0, 0.0]
    ensures LeftEarValues(Init(id, created, modified), parse) == [0.0, 0.0, 0.0, 0.0, 0.0]
  {
  }
}

/** The Core Data entity `Patient`: the same fields as `PatientData`, so
    records are shared with `PatientRecord`; only the creation path is its
    own (`create(in:)` draws a fresh id and reads the clock twice; all three
    are passed in here). Its `updateModifiedDate`, `getRightEarValues` and
    `getLeftEarValues` are field-for-field the same as `PatientData`'s and
    are modelled by `PatientRecord.UpdateModifiedDate`,
    `PatientRecord.RightEarValues` and `PatientRecord.LeftEarValues`. */
module CoreDataPatient {
  import opened Basics
  import opened PatientRecord

  /** `create(in:)`: a new patient with every text field empty. Given the
      same id and clock readings, it builds exactly the record
      `PatientData(id:)` builds. */
  function Create(freshId: Id, created: Date, modified: Date): (p: PatientData)
    ensures p == Init(freshId, created, modified)
    ensures p.id == freshId && TextFields(p) == BlankFields()
    ensures p.dateCreated == created && p.dateModified == modified
  {
    PatientData(freshId, "", "", "", "", "", "", "", "", "", "", "", "", "", created, modified)
  }

  /** A freshly created patient yields all-zero vectors for both ears. */
  lemma FreshPatientIsSilent(freshId: Id, created: Date, modified: Date, parse: Parser)
    requires parse("") == None
    ensures RightEarValues(Create(freshId, created, modified), parse) == [0.0, 0.0, 0.0, 0.0, 0.0]
    ensures LeftEarValues(Create(freshId, created, modified), parse) == [0.0, 0.0, 0.0, 0.0, 0.0]
  {
    FreshRecordIsSilent(freshId, created, modified, parse);
  }
}
