/**
  Collecting the answers and scoring them: each chosen label becomes its
  position on the answer scale and is recorded with its question's subscale
  tag; each subscale's total is twice the sum of the scores recorded under
  its tag.
 */
module Scoring {
  import opened Instrument

  /** One recorded answer: the subscale tag of the question and the score chosen. */
  datatype Response = Response(scale: char, score: int)

  /** A chosen label that is not on the answer scale, at the question it was given for. */
  datatype CollectError = UnknownLabel(question: nat, answer: string)

  datatype Result<T> = Ok(value: T) | Err(error: CollectError)

  /** Position of the first occurrence of `x` in `labels`, or None when it does not occur. */
  function IndexOf(labels: seq<string>, x: string): (r: Option<nat>)
    ensures r.None? <==> x !in labels
    ensures r.Some? ==> r.value < |labels| && labels[r.value] == x
    ensures r.Some? ==> forall j :: 0 <= j < r.value ==> labels[j] != x
  {
    if labels == [] then None
    else if labels[0] == x then Some(0)
    else match IndexOf(labels[1..], x)
      case None => None
      case Some(i) => Some(i + 1)
  }

  /**
    `rs` records `answers`: one response per question, in question order,
    tagged with that question's subscale and scored with the position of the
    chosen label on the answer scale.
   */
  ghost predicate Recorded(rs: seq<Response>, answers: seq<string>) {
    |rs| == |answers| == |QuestionTags| &&
    forall i :: 0 <= i < |rs| ==>
      rs[i].scale == QuestionTags[i] &&
      0 <= rs[i].score < |OptionLabels| && OptionLabels[rs[i].score] == answers[i]
  }

  /** The answers determine their recorded responses. */
  lemma RecordedUnique(rs1: seq<Response>, rs2: seq<Response>, answers: seq<string>)
    requires Recorded(rs1, answers) && Recorded(rs2, answers)
    ensures rs1 == rs2
  {
  }

  /**
    Walks the question bank and records, for each question, its tag and the
    score of the label chosen for it. A label that is not on the scale stops
    the walk at that question.
   */
  method CollectResponses(answers: seq<string>) returns (result: Result<seq<Response>>)
    requires |answers| == |QuestionTags|
    ensures result.Ok? <==> forall i :: 0 <= i < |answers| ==> answers[i] in OptionLabels
    ensures result.Ok? ==> Recorded(result.value, answers)
    ensures result.Err? ==>
              var i := result.error.question;
              i < |answers| && result.error.answer == answers[i] && answers[i] !in OptionLabels &&
              forall j :: 0 <= j < i ==> answers[j] in OptionLabels
  {
    var responses: seq<Response> := [];
    for i := 0 to |QuestionTags|
      invariant |responses| == i
      invariant forall j :: 0 <= j < i ==>
                  answers[j] in OptionLabels &&
                  responses[j].scale == QuestionTags[j] &&
                  0 <= responses[j].score < |OptionLabels| &&
                  OptionLabels[responses[j].score] == answers[j]
    {
      var scale := QuestionTags[i];
      match IndexOf(OptionLabels, answers[i]) {
        case None =>
          return Err(UnknownLabel(i, answers[i]));
        case Some(score) =>
          responses := responses + [Response(scale, score)];
      }
    }
    return Ok(responses);
  }

  /** The raw sum of a subscale: the scores of the responses tagged `tag`. */
  function RawSum(rs: seq<Response>, tag: char): int {
    if rs == [] then 0
    else RawSum(rs[..|rs| - 1], tag) + (if rs[|rs| - 1].scale == tag then rs[|rs| - 1].score else 0)
  }

  /** The tags of the responses, in order. */
  function Scales(rs: seq<Response>): (tags: seq<char>)
    ensures |tags| == |rs| && forall i :: 0 <= i < |rs| ==> tags[i] == rs[i].scale
  {
    seq(|rs|, i requires 0 <= i < |rs| => rs[i].scale)
  }

  /** A subscale total: the raw sum of the responses tagged `tag`, doubled. */
  method SubscaleTotal(rs: seq<Response>, tag: char) returns (total: int)
    ensures total == 2 * RawSum(rs, tag)
  {
    var raw := 0;
    for i := 0 to |rs|
      invariant raw == RawSum(rs[..i], tag)
    {
      assert rs[..i + 1][..i] == rs[..i];
      if rs[i].scale == tag {
        raw := raw + rs[i].score;
      }
    }
    assert rs[..|rs|] == rs;
    total := raw * 2;
  }

  /** The raw sum of a concatenation is the sum of the raw sums. */
  lemma {:induction false} RawSumConcat(xs: seq<Response>, ys: seq<Response>, tag: char)
    ensures RawSum(xs + ys, tag) == RawSum(xs, tag) + RawSum(ys, tag)
  {
    if ys == [] {
      assert xs + ys == xs;
    } else {
      var n := |ys| - 1;
      assert (xs + ys)[..|xs + ys| - 1] == xs + ys[..n];
      RawSumConcat(xs, ys[..n], tag);
    }
  }

  /** A response of another subscale, inserted anywhere, leaves the raw sum unchanged. */
  lemma RawSumIgnoresOtherSubscales(xs: seq<Response>, r: Response, ys: seq<Response>, tag: char)
    requires r.scale != tag
    ensures RawSum(xs + [r] + ys, tag) == RawSum(xs + ys, tag)
  {
    RawSumConcat(xs + [r], ys, tag);
    RawSumConcat(xs, [r], tag);
    RawSumConcat(xs, ys, tag);
    assert [r][..0] == [];
  }

  /**
    With every score on the answer scale, a raw sum lies between 0 and three
    times the number of responses tagged with its subscale.
   */
  lemma {:induction false} RawSumBounds(rs: seq<Response>, tag: char)
    requires forall i :: 0 <= i < |rs| ==> 0 <= rs[i].score < |OptionLabels|
    ensures 0 <= RawSum(rs, tag) <= 3 * Count(Scales(rs), tag)
  {
    if rs != [] {
      var n := |rs| - 1;
      assert Scales(rs)[..n] == Scales(rs[..n]);
      RawSumBounds(rs[..n], tag);
    }
  }

  /** When every response has the same score `v`, the raw sum is `v` per tagged response. */
  lemma {:induction false} RawSumUniform(rs: seq<Response>, tag: char, v: int)
    requires forall i :: 0 <= i < |rs| ==> rs[i].score == v
    ensures RawSum(rs, tag) == v * Count(Scales(rs), tag)
  {
    if rs != [] {
      var n := |rs| - 1;
      assert Scales(rs)[..n] == Scales(rs[..n]);
      RawSumUniform(rs[..n], tag, v);
    }
  }

  /** Recorded responses carry the tags of the question bank, in order. */
  lemma RecordedScales(rs: seq<Response>, answers: seq<string>)
    requires Recorded(rs, answers)
    ensures Scales(rs) == QuestionTags
  {
  }

  /** Every total of a full set of recorded answers is even and lies in 0..42. */
  lemma RecordedTotalBounds(rs: seq<Response>, answers: seq<string>, s: Subscale)
    requires Recorded(rs, answers)
    ensures 0 <= 2 * RawSum(rs, Tag(s)) <= 42
    ensures (2 * RawSum(rs, Tag(s))) % 2 == 0
  {
    RecordedScales(rs, answers);
    SevenPerSubscale();
    RawSumBounds(rs, Tag(s));
  }
}
