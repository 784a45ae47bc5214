# DASS-21 style scoring — a Dafny model

"Are you okay?" is a self-assessment questionnaire inspired by DASS-21. It asks
21 questions. Each question belongs to one of three subscales: Depression,
Anxiety or Stress. Each question is answered on a four-point scale, from
"Never" (0) to "Almost Always" (3). Each subscale's total is twice the sum of
its answers. The total is then placed in one of five severity bands (Normal,
Mild, Moderate, Severe, Extremely Severe), using four cutoffs per subscale.

This project models that scoring core of `file.py` and proves its properties:

- `instrument.dfy` (module `Instrument`) holds the configuration: the answer
  scale, the subscale tag of each question (the prompts are left out), and the
  cutoff table. It proves that the configuration is well formed.
- `severity.dfy` (module `Severity`) holds the classifier, which is the
  comparison chain of `get_severity_label`. It proves that the chain counts the
  cutoffs the score has reached, that the bands are the intervals between
  cutoffs, that it is monotone, that a score on a cutoff gets the band that
  cutoff opens, and that an unknown key fails.
- `scoring.dfy` (module `Scoring`) holds the loop that turns each chosen label
  into its score and records it with the question's tag. It also holds the
  per-subscale totals, as a loop proved equal to a functional sum, and the
  lemmas about that sum.
- `report.dfy` (module `Report`) holds the result table and the whole
  submission flow, plus the "all Never" and "all Almost Always" outcomes.

Points where the model follows the code rather than a stricter reading of the instrument:

- A response records the question's subscale tag and the score. It does not
  record the question's index.
- A subscale missing from the cutoff table fails when that subscale is
  classified, not at start-up.
- Nothing rejects an incomplete submission. The answer widget always holds a
  selection, so every question has an answer.

## Model

| member | source | states |
|---|---|---|
| `Instrument.OptionLabelsFollowScores` | file.py:10-15 | The option map has exactly the keys 0..3, and listing its values puts each label at the position equal to its score. |
| `Instrument.OptionLabelsDistinct` | file.py:10-15 | No two answer labels are equal, so a label determines its score. |
| `Instrument.QuestionTagsKnown` | file.py:20-43 | There are 21 questions, and each is tagged D, A or S. |
| `Instrument.SevenPerSubscale` | file.py:20-43 | Each subscale tag occurs exactly 7 times in the question bank. |
| `Instrument.CutoffsWellFormed` | file.py:48-52 | The cutoff table has exactly the keys d, a and s, and each entry is four strictly increasing thresholds. |
| `Severity.SeverityLabel` | file.py:54-60 | Classification gives a band exactly when the key is in the cutoff table; any other key fails the lookup. |
| `Severity.RankIsCutoffsReached` | file.py:54-60 | For ascending cutoffs, the rank of the band chosen by the highest-first chain equals the number of cutoffs the score reaches. |
| `Severity.BandIsInterval` | file.py:54-60 | For ascending cutoffs, band k is chosen if and only if the score is at least cutoff k-1 (when k > 0) and below cutoff k (when k < 4). |
| `Severity.ClassifyMonotone` | file.py:54-60 | If s1 <= s2, the band of s1 is no more severe than the band of s2. |
| `Severity.NormalIffBelowFirstCutoff` | file.py:48-60 | A score is Normal if and only if it is below its subscale's first cutoff. |
| `Severity.CutoffOpensBand` | file.py:48-60 | A score equal to cutoff k gets band k+1 (the band that cutoff opens), and one point less gets band k. |
| `Severity.EveryBandReachable` | file.py:48-60 | For every subscale, every one of the five bands is the band of some score. |
| `Severity.BoundaryExamples` | file.py:48-60 | Depression 9 is Normal and 10 is Mild; Anxiety 19 is Severe and 20 is Extremely Severe; Stress 34 is Extremely Severe. |
| `Scoring.IndexOf` | file.py:129 | Finds the first position holding the label. It gives None exactly when the label is absent. |
| `Scoring.CollectResponses` | file.py:117-130 | Gives one response per question, in order, with the question's tag and a score in 0..3 whose label is the chosen one. It fails if and only if some label is not on the scale, and it fails at the first such question. |
| `Scoring.RecordedUnique` | file.py:117-130 | The answers determine the recorded responses uniquely. |
| `Scoring.RecordedScales` | file.py:119-130 | Recorded responses carry the question bank's tags in question order. |
| `Scoring.SubscaleTotal` | file.py:140-146 | The loop's total is twice the sum of the scores of the responses tagged with the subscale. |
| `Scoring.RawSumConcat` | file.py:140-142 | The sum of a concatenation is the sum of the sums of its parts. |
| `Scoring.RawSumIgnoresOtherSubscales` | file.py:140-142 | Inserting a response of another subscale anywhere leaves a subscale's sum unchanged. |
| `Scoring.RawSumBounds` | file.py:140-142 | If every score is in 0..3, a sum lies between 0 and three times the number of responses with that tag. |
| `Scoring.RawSumUniform` | file.py:140-142 | If every response has score v, a sum is v times the number of responses with that tag. |
| `Scoring.RecordedTotalBounds` | file.py:140-146 | For a full set of recorded answers, every total is even and lies in 0..42. |
| `Report.ResultTable` | file.py:148-156 | The table has three rows, in the order Depression, Anxiety, Stress. Each row shows its subscale's name and total, and the band of that same total under its own lower-case cutoff key. |
| `Report.Submit` | file.py:117-156 | Fails if and only if some chosen label is not on the scale, and then names such a question. Otherwise it returns the table of the unique recorded responses, with every score even and in 0..42. |
| `Report.AllNeverAllNormal` | file.py:140-156 | Answering "Never" to every question gives totals 0, 0, 0, all Normal. |
| `Report.AllAlmostAlwaysAllExtreme` | file.py:140-156 | Answering "Almost Always" to every question gives totals 42, 42, 42, all Extremely Severe. |

## Left out

- The Streamlit page, its headings, the form and the submit button are not modelled (file.py:107-116, 131-135, 158-186). Nothing is rendered.
- The radio widgets are not modelled. `CollectResponses` and `Submit` take the chosen labels as a sequence with one entry per question.
- The "not yet submitted" early return is not modelled. The model starts from a submitted form.
- The Firebase credential loading and app initialisation are left out (file.py:69-77). They are external I/O through a foreign library.
- `generate_csv` is left out (file.py:83-84). It is a wrapper over pandas' CSV writer. Only the row content of the table is modelled, by `ResultTable`.
- `generate_chart_image` is left out (file.py:90-100). It does matplotlib rendering and PNG encoding.
- The question prompts are left out. They are display text; only each question's subscale tag is kept.
- Subscale tags ('D', 'A', 'S') and cutoff keys ('d', 'a', 's') are one-letter strings in the source. The model writes them as `char`. No other key length reaches the lookup.
- Python's exceptions are modelled as values. The `KeyError` for an unknown cutoff key becomes `None`. The `ValueError` from `list.index` for an unknown label becomes `Err(UnknownLabel(..))`.
- `Severity.Classify` requires exactly four cutoffs. Every entry of the cutoff table has four, so the `IndexError` a shorter list would raise is not modelled.
