/**
  The submission flow: record the answers, total each subscale, classify each
  total, and lay the three results out as a table in the fixed order
  Depression, Anxiety, Stress.
 */
module Report {
  import opened Instrument
  import opened Severity
  import opened Scoring

  /** One row of the result table: subscale name, total and severity text. */
  datatype Row = Row(scale: string, score: int, severity: string)

  /**
    `row` is the row of subscale `s` for `total`: it shows the subscale's name,
    the total, and the band of that same total under the subscale's own cutoff key.
   */
  ghost predicate RowOf(row: Row, s: Subscale, total: int) {
    row.scale == Name(s) && row.score == total &&
    SeverityLabel(total, Key(s)).Some? &&
    row.severity == Label(SeverityLabel(total, Key(s)).value)
  }

  /** The result table for the totals `d`, `a` and `s`. */
  function ResultTable(d: int, a: int, s: int): (rows: seq<Row>)
    ensures |rows| == |Order| == 3
    ensures RowOf(rows[0], Order[0], d) && RowOf(rows[1], Order[1], a) && RowOf(rows[2], Order[2], s)
  {
    [ Row("Depression", d, Label(SeverityLabel(d, 'd').value)),
      Row("Anxiety", a, Label(SeverityLabel(a, 'a').value)),
      Row("Stress", s, Label(SeverityLabel(s, 's').value)) ]
  }

  /** The table a full set of recorded responses produces. */
  function TableOf(rs: seq<Response>): seq<Row> {
    ResultTable(2 * RawSum(rs, 'D'), 2 * RawSum(rs, 'A'), 2 * RawSum(rs, 'S'))
  }

  /**
    Handles a submitted form: records one answer per question, computes the
    three totals and builds the result table. A chosen label that is not on
    the answer scale fails the submission at that question.
   */
  method Submit(answers: seq<string>) returns (result: Result<seq<Row>>)
    requires |answers| == |QuestionTags|
    ensures result.Ok? <==> forall i :: 0 <= i < |answers| ==> answers[i] in OptionLabels
    ensures result.Ok? ==> exists rs :: Recorded(rs, answers) && result.value == TableOf(rs)
    ensures result.Ok? ==>
              forall i :: 0 <= i < |result.value| ==>
                0 <= result.value[i].score <= 42 && result.value[i].score % 2 == 0
    ensures result.Err? ==>
              result.error.question < |answers| && answers[result.error.question] !in OptionLabels
  {
    var collected := CollectResponses(answers);
    if collected.Err? {
      return Err(collected.error);
    }
    var rs := collected.value;
    var d := SubscaleTotal(rs, 'D');
    var a := SubscaleTotal(rs, 'A');
    var s := SubscaleTotal(rs, 'S');
    RecordedTotalBounds(rs, answers, Depression);
    RecordedTotalBounds(rs, answers, Anxiety);
    RecordedTotalBounds(rs, answers, Stress);
    result := Ok(ResultTable(d, a, s));
  }

  /** Answering "Never" to every question gives totals of 0 and "Normal" on every row. */
  lemma AllNeverAllNormal(rs: seq<Response>, answers: seq<string>)
    requires Recorded(rs, answers)
    requires forall i :: 0 <= i < |answers| ==> answers[i] == OptionLabels[0]
    ensures TableOf(rs) == [Row("Depression", 0, "Normal"),
                            Row("Anxiety", 0, "Normal"),
                            Row("Stress", 0, "Normal")]
  {
    OptionLabelsDistinct();
    assert forall i :: 0 <= i < |rs| ==> rs[i].score == 0;
    RawSumUniform(rs, 'D', 0);
    RawSumUniform(rs, 'A', 0);
    RawSumUniform(rs, 'S', 0);
  }

  /**
    Answering "Almost Always" to every question gives 42 on every row, and
    every row is "Extremely Severe".
   */
  lemma AllAlmostAlwaysAllExtreme(rs: seq<Response>, answers: seq<string>)
    requires Recorded(rs, answers)
    requires forall i :: 0 <= i < |answers| ==> answers[i] == OptionLabels[3]
    ensures TableOf(rs) == [Row("Depression", 42, "Extremely Severe"),
                            Row("Anxiety", 42, "Extremely Severe"),
                            Row("Stress", 42, "Extremely Severe")]
  {
    OptionLabelsDistinct();
    assert forall i :: 0 <= i < |rs| ==> rs[i].score == 3;
    RecordedScales(rs, answers);
    SevenPerSubscale();
    assert Count(Scales(rs), Tag(Depression)) == 7;
    assert Count(Scales(rs), Tag(Anxiety)) == 7;
    assert Count(Scales(rs), Tag(Stress)) == 7;
    RawSumUniform(rs, 'D', 3);
    RawSumUniform(rs, 'A', 3);
    RawSumUniform(rs, 'S', 3);
  }
}
