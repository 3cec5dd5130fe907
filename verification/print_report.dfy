/** The printable report: per patient, a five-row frequency table of the
    raw text values, the seven computed figures (through the inline
    calculator copy), and a divider between consecutive reports. Layout,
    fonts, localisation and printing are not modelled. */
module PrintReport {
  import opened PatientRecord
  import PatientStore
  import Calculations
  import opened InlineCalculations
  import ContentView

  /** One cell of the frequency table: "-" for an empty value, otherwise
      the value as typed followed by " dB". */
  function CellText(value: string): (text: string)
    ensures |value| == 0 ==> text == "-"
    ensures |value| > 0 ==> |text| == |value| + 3 && text[..|value|] == value && text[|value|..] == " dB"
  {
    if |value| == 0 then "-" else value + " dB"
  }

  /** Rendering a cell loses nothing: different values give different text. */
  lemma CellTextInjective(a: string, b: string)
    requires CellText(a) == CellText(b)
    ensures a == b
  {
    if |a| > 0 && |b| > 0 {
      assert |a| + 3 == |b| + 3;
      assert a == CellText(a)[..|a|] && b == CellText(b)[..|b|];
    }
  }

  /** A row of the frequency table. */
  datatype Row = Row(frequency: string, right: string, left: string)

  /** `frequencyRow(frequency:rightValue:leftValue:)`: each ear's cell is
      rendered from that ear's value alone. */
  function FrequencyRow(frequency: string, rightValue: string, leftValue: string): (row: Row)
    ensures row.frequency == frequency
    ensures row.right == CellText(rightValue) && row.left == CellText(leftValue)
  {
    Row(frequency, CellText(rightValue), CellText(leftValue))
  }

  /** The five rows of a patient's table, 500 Hz first; row i shows the
      i-th right-ear and left-ear fields. */
  function FrequencyTable(patient: PatientData): (rows: seq<Row>)
    ensures |rows| == 5
    ensures forall i :: 0 <= i < 5 ==>
              rows[i].right == CellText(RightEarFields(patient)[i])
              && rows[i].left == CellText(LeftEarFields(patient)[i])
    ensures rows[0].frequency == "500" && rows[1].frequency == "1000" && rows[2].frequency == "2000"
            && rows[3].frequency == "4000" && rows[4].frequency == "8000"
  {
    [FrequencyRow("500", patient.rightEar500, patient.leftEar500),
     FrequencyRow("1000", patient.rightEar1000, patient.leftEar1000),
     FrequencyRow("2000", patient.rightEar2000, patient.leftEar2000),
     FrequencyRow("4000", patient.rightEar4000, patient.leftEar4000),
     FrequencyRow("8000", patient.rightEar8000, patient.leftEar8000)]
  }

  /** The figures of one report, computed from the record's ear vectors. */
  function Figures(patient: PatientData, parse: Parser): Assessment
  {
    Assess(RightEarValues(patient, parse), LeftEarValues(patient, parse))
  }

  /** The printed figures are those the form showed for the same patient,
      and they carry the stand-alone calculator's values, with its bands
      everywhere except inside the gaps. */
  lemma ReportMatchesScreenAndCalculator(patient: PatientData, parse: Parser)
    ensures Figures(patient, parse) == ContentView.Results(ContentView.LoadPatient(patient), parse)
    ensures MatchesCalculator(Figures(patient, parse),
                              RightEarValues(patient, parse), LeftEarValues(patient, parse))
  {
    ContentView.LoadedFormReadsLikeRecord(patient, parse);
    AssessmentMatchesCalculator(RightEarValues(patient, parse), LeftEarValues(patient, parse));
  }

  /** An element of the scrolled report: a patient's report or a divider. */
  datatype Item = Report(patient: PatientData) | Divider

  /** One pass of the `ForEach` body: the report, followed by a divider
      unless the report's id equals `lastId` (the id of the last patient). */
  function Entry(patient: PatientData, lastId: Id): seq<Item>
  {
    [Report(patient)] + (if patient.id != lastId then [Divider] else [])
  }

  /** The `ForEach` over the patients. */
  function LayoutFrom(patients: seq<PatientData>, lastId: Id): seq<Item>
  {
    if |patients| == 0 then [] else Entry(patients[0], lastId) + LayoutFrom(patients[1..], lastId)
  }

  /** The whole report view for a list of patients: every patient's report
      once, in order, ending with the last patient's report (no trailing
      divider), with a divider directly after each report whose id differs
      from the last patient's and nowhere else. */
  function Layout(patients: seq<PatientData>): (items: seq<Item>)
    ensures ReportsOf(items) == patients
    ensures |patients| > 0 ==> |items| > 0 && items[|items| - 1] == Report(patients[|patients| - 1])
    ensures |patients| > 0 ==>
              DividerCount(items)
              == |patients| - multiset(PatientStore.Ids(patients))[patients[|patients| - 1].id]
    ensures |patients| > 0 ==>
              forall k :: 0 <= k < |items| && items[k].Divider? ==>
                k > 0 && items[k - 1].Report? && items[k - 1].patient.id != patients[|patients| - 1].id
    ensures |patients| > 0 ==>
              forall k :: 0 <= k < |items| && items[k].Report? && items[k].patient.id != patients[|patients| - 1].id ==>
                k + 1 < |items| && items[k + 1].Divider?
  {
    if |patients| == 0 then []
    else
      var lastId := patients[|patients| - 1].id;
      LayoutFromCounts(patients, lastId);
      OthersCountByIds(patients, lastId);
      LayoutFromEndsWithReport(patients, lastId);
      LayoutFrom(patients, lastId)
  }

  /** When the last patient carries `lastId`, no divider follows its report. */
  lemma {:induction false} LayoutFromEndsWithReport(patients: seq<PatientData>, lastId: Id)
    requires |patients| > 0 && patients[|patients| - 1].id == lastId
    ensures var items := LayoutFrom(patients, lastId);
            |items| > 0 && items[|items| - 1] == Report(patients[|patients| - 1])
  {
    if |patients| == 1 {
      assert LayoutFrom(patients[1..], lastId) == [];
    } else {
      LayoutFromEndsWithReport(patients[1..], lastId);
      assert patients[1..][|patients[1..]| - 1] == patients[|patients| - 1];
    }
  }

  /** The reports in a layout, dividers dropped. */
  function ReportsOf(items: seq<Item>): seq<PatientData>
  {
    if |items| == 0 then []
    else (if items[0].Report? then [items[0].patient] else []) + ReportsOf(items[1..])
  }

  /** The number of dividers in a layout. */
  function DividerCount(items: seq<Item>): nat
  {
    if |items| == 0 then 0
    else (if items[0].Divider? then 1 else 0) + DividerCount(items[1..])
  }

  lemma {:induction false} ReportsOfAppend(a: seq<Item>, b: seq<Item>)
    ensures ReportsOf(a + b) == ReportsOf(a) + ReportsOf(b)
    ensures DividerCount(a + b) == DividerCount(a) + DividerCount(b)
  {
    if |a| > 0 {
      assert (a + b)[1..] == a[1..] + b;
      ReportsOfAppend(a[1..], b);
    } else {
      assert a + b == b;
    }
  }

  lemma EntryShape(patient: PatientData, lastId: Id)
    ensures ReportsOf(Entry(patient, lastId)) == [patient]
    ensures DividerCount(Entry(patient, lastId)) == if patient.id != lastId then 1 else 0
  {
    ReportsOfAppend([Report(patient)], if patient.id != lastId then [Divider] else []);
    assert [Report(patient)][1..] == [];
    if patient.id != lastId {
      assert [Divider][1..] == [];
    }
  }

  /** The number of records in `patients` whose id is not `id`. */
  function OthersCount(patients: seq<PatientData>, id: Id): nat
  {
    if |patients| == 0 then 0
    else (if patients[0].id != id then 1 else 0) + OthersCount(patients[1..], id)
  }

  lemma {:induction false} OthersCountByIds(patients: seq<PatientData>, id: Id)
    ensures OthersCount(patients, id) == |patients| - multiset(PatientStore.Ids(patients))[id]
  {
    if |patients| > 0 {
      OthersCountByIds(patients[1..], id);
      assert PatientStore.Ids(patients) == [patients[0].id] + PatientStore.Ids(patients[1..]);
    }
  }

  /** Every patient is reported once, in order, and a report is followed by
      a divider exactly when its id differs from `lastId`. */
  lemma {:induction false} LayoutFromCounts(patients: seq<PatientData>, lastId: Id)
    ensures ReportsOf(LayoutFrom(patients, lastId)) == patients
    ensures DividerCount(LayoutFrom(patients, lastId)) == OthersCount(patients, lastId)
    ensures var items := LayoutFrom(patients, lastId);
            forall k :: 0 <= k < |items| && items[k].Divider? ==>
              k > 0 && items[k - 1].Report? && items[k - 1].patient.id != lastId
    ensures var items := LayoutFrom(patients, lastId);
            forall k :: 0 <= k < |items| && items[k].Report? && items[k].patient.id != lastId ==>
              k + 1 < |items| && items[k + 1].Divider?
  {
    if |patients| > 0 {
      LayoutFromCounts(patients[1..], lastId);
      EntryShape(patients[0], lastId);
      ReportsOfAppend(Entry(patients[0], lastId), LayoutFrom(patients[1..], lastId));
      assert patients == [patients[0]] + patients[1..];
    }
  }

  /** With distinct ids, the last patient's id occurs once. */
  lemma LastIdOccursOnce(patients: seq<PatientData>)
    requires |patients| > 0
    requires forall i, j :: 0 <= i < j < |patients| ==> patients[i].id != patients[j].id
    ensures multiset(PatientStore.Ids(patients))[patients[|patients| - 1].id] == 1
  {
    var n := |patients|;
    var lastId := patients[n - 1].id;
    var ids := PatientStore.Ids(patients);
    assert ids == ids[..n - 1] + [lastId];
    var front := ids[..n - 1];
    assert forall k :: 0 <= k < |front| ==> front[k] != lastId;
    assert lastId !in front;
    assert multiset(ids[..n - 1])[lastId] == 0;
    assert multiset(ids) == multiset(ids[..n - 1]) + multiset{lastId};
  }

  /** With distinct ids the report view has one divider between each pair
      of consecutive reports: n-1 dividers for n reports. */
  lemma LayoutShape(patients: seq<PatientData>)
    requires |patients| > 0
    requires forall i, j :: 0 <= i < j < |patients| ==> patients[i].id != patients[j].id
    ensures DividerCount(Layout(patients)) == |patients| - 1
  {
    LastIdOccursOnce(patients);
  }
}
