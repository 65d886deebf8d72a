/** The CSV export of the results page (app/results/page.tsx): a header row
    and one row per stored result. The text rendering of the rows and the
    download are not modelled; the cells are kept as values. */
module ResultsPage {
  import opened Wrappers
  import TrialSession

  /** A result as read back from session storage: the angles may be
      missing. */
  datatype StoredResult = StoredResult(correct: bool, time: int, targetAngle: Option<real>, selectedAngle: Option<real>)

  /** One CSV cell: a number, a text, or the time column, whose
      `(time / 1000).toFixed(2)` formatting is kept abstract. */
  datatype Cell = Number(value: real) | Text(text: string) | Seconds(ms: int)

  const Header := [Text("Stimulus"), Text("Correct"), Text("Time (seconds)"), Text("Target Angle"), Text("Selected Angle")]

  /** `angle || "N/A"`: missing and 0 are both falsy. */
  function AngleCell(angle: Option<real>): (c: Cell)
    ensures c == Text("N/A") <==> angle.None? || angle.value == 0.0
    ensures angle.Some? && angle.value != 0.0 ==> c == Number(angle.value)
  {
    if angle.None? || angle.value == 0.0 then Text("N/A") else Number(angle.value)
  }

  /** The row of the result at position `index`. */
  function Row(result: StoredResult, index: nat): seq<Cell> {
    [Number((index + 1) as real),
     Text(if result.correct then "Yes" else "No"),
     Seconds(result.time),
     AngleCell(result.targetAngle),
     AngleCell(result.selectedAngle)]
  }

  /** `csvData`: the header, then the results in order, numbered from 1. */
  function CsvData(results: seq<StoredResult>): (rows: seq<seq<Cell>>)
    ensures |rows| == |results| + 1 && rows[0] == Header
    ensures forall i :: 0 <= i < |results| ==>
      && |rows[i + 1]| == 5
      && rows[i + 1][0] == Number((i + 1) as real)
      && (rows[i + 1][1] == Text("Yes") <==> results[i].correct)
      && (rows[i + 1][1] == Text("No") <==> !results[i].correct)
      && rows[i + 1][2] == Seconds(results[i].time)
      && rows[i + 1][3] == AngleCell(results[i].targetAngle)
      && rows[i + 1][4] == AngleCell(results[i].selectedAngle)
  {
    [Header] + seq(|results|, i requires 0 <= i < |results| => Row(results[i], i))
  }

  /** The stored form of a result recorded by the test page. */
  function Stored(r: TrialSession.TrialResult): StoredResult {
    StoredResult(r.correct, r.time, Some(r.targetAngle), Some(r.selectedAngle))
  }

  /** For results recorded by the test page, a row says "Yes" exactly when
      its target and selected angle cells agree (two zero angles both show
      "N/A"). */
  lemma YesIffAnglesAgree(results: seq<TrialSession.TrialResult>, i: nat)
    requires i < |results|
    requires results[i].correct <==> results[i].selectedAngle == results[i].targetAngle
    ensures var rows := CsvData(seq(|results|, j requires 0 <= j < |results| => Stored(results[j])));
      rows[i + 1][1] == Text("Yes") <==> rows[i + 1][3] == rows[i + 1][4]
  {
    var stored := seq(|results|, j requires 0 <= j < |results| => Stored(results[j]));
    assert stored[i] == Stored(results[i]);
  }
}
