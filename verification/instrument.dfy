/**
  The fixed configuration of the "Are you okay?" questionnaire, a DASS-21 style
  instrument: the shared answer scale, the subscale tag of each of its 21
  questions, and the severity cutoffs of each subscale. The question prompts
  are display text and are not part of this model; only their tags matter.
 */
module Instrument {

  datatype Option<T> = None | Some(value: T)

  /** The three subscales the instrument measures. */
  datatype Subscale = Depression | Anxiety | Stress

  /** The tag a question of this subscale carries in the question bank. */
  function Tag(s: Subscale): char {
    match s
    case Depression => 'D'
    case Anxiety => 'A'
    case Stress => 'S'
  }

  /** The key of this subscale in the cutoff table (lower case, unlike the tag). */
  function Key(s: Subscale): char {
    match s
    case Depression => 'd'
    case Anxiety => 'a'
    case Stress => 's'
  }

  /** The name of this subscale in the result table. */
  function Name(s: Subscale): string {
    match s
    case Depression => "Depression"
    case Anxiety => "Anxiety"
    case Stress => "Stress"
  }

  /** The fixed order of the rows of the result table. */
  const Order: seq<Subscale> := [Depression, Anxiety, Stress]

  /** The answer scale: each score 0..3 and its label. */
  const Options: map<int, string> :=
    map[0 := "Never", 1 := "Sometimes", 2 := "Often", 3 := "Almost Always"]

  /** The labels of the answer scale in the order the map lists its values. */
  const OptionLabels: seq<string> := ["Never", "Sometimes", "Often", "Almost Always"]

  /** The subscale tag of each question, in question order. */
  const QuestionTags: seq<char> :=
    ['S', 'A', 'D', 'A', 'D', 'S', 'A', 'S', 'A', 'D', 'S',
     'S', 'D', 'S', 'A', 'D', 'D', 'S', 'A', 'A', 'D']

  /** The four thresholds of each subscale: Mild, Moderate, Severe, Extremely Severe. */
  const SeverityCutoffs: map<char, seq<int>> :=
    map['d' := [10, 14, 21, 28], 'a' := [8, 10, 15, 20], 's' := [15, 19, 26, 34]]

  /** Four thresholds in strictly increasing order. */
  predicate Ascending(c: seq<int>) {
    |c| == 4 && forall i, j :: 0 <= i < j < 4 ==> c[i] < c[j]
  }

  /** How many entries of `tags` equal `tag`. */
  function Count(tags: seq<char>, tag: char): (n: nat)
    ensures n <= |tags|
  {
    if tags == [] then 0
    else Count(tags[..|tags| - 1], tag) + (if tags[|tags| - 1] == tag then 1 else 0)
  }

  /** Listing the values of the option map gives each label at the position of its score. */
  lemma OptionLabelsFollowScores()
    ensures |OptionLabels| == 4
    ensures forall k :: k in Options <==> 0 <= k < |OptionLabels|
    ensures forall k :: 0 <= k < |OptionLabels| ==> Options[k] == OptionLabels[k]
  {
  }

  /** No label appears twice, so a label determines its score. */
  lemma OptionLabelsDistinct()
    ensures forall i, j :: 0 <= i < j < |OptionLabels| ==> OptionLabels[i] != OptionLabels[j]
  {
  }

  /** Every question belongs to one of the three subscales. */
  lemma QuestionTagsKnown()
    ensures |QuestionTags| == 21
    ensures forall i :: 0 <= i < |QuestionTags| ==>
              QuestionTags[i] in {Tag(Depression), Tag(Anxiety), Tag(Stress)}
  {
  }

  /** Counting a prefix one entry longer adds that entry. */
  lemma CountSnoc(tags: seq<char>, k: nat, tag: char)
    requires k < |tags|
    ensures Count(tags[..k + 1], tag) == Count(tags[..k], tag) + (if tags[k] == tag then 1 else 0)
  {
    assert tags[..k + 1][..k] == tags[..k];
  }

  /** The question bank holds seven questions of each subscale. */
  lemma SevenPerSubscale()
    ensures forall s :: Count(QuestionTags, Tag(s)) == 7
  {
    forall k, t {:trigger Count(QuestionTags[..k], t)} | 0 < k <= |QuestionTags|
      ensures Count(QuestionTags[..k], t)
              == Count(QuestionTags[..k - 1], t) + (if QuestionTags[k - 1] == t then 1 else 0)
    {
      CountSnoc(QuestionTags, k - 1, t);
    }
    assert QuestionTags[..0] == [];
    assert QuestionTags[..21] == QuestionTags;
    assert Count(QuestionTags[..21], 'D') == 7;
    assert Count(QuestionTags[..21], 'A') == 7;
    assert Count(QuestionTags[..21], 'S') == 7;
  }

  /** Every subscale has a cutoff entry, there is no other, and each entry is strictly increasing. */
  lemma CutoffsWellFormed()
    ensures SeverityCutoffs.Keys == {Key(Depression), Key(Anxiety), Key(Stress)}
    ensures forall key :: key in SeverityCutoffs ==> Ascending(SeverityCutoffs[key])
  {
  }
}
