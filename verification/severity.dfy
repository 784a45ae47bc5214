/**
  The severity classifier: a doubled subscale total is compared against that
  subscale's four cutoffs, highest first, and falls into one of five ordered
  bands.
 */
module Severity {
  import opened Instrument

  /** The five severity bands, mildest first. */
  datatype Band = Normal | Mild | Moderate | Severe | ExtremelySevere

  /** The text the result table shows for a band. */
  function Label(b: Band): string {
    match b
    case Normal => "Normal"
    case Mild => "Mild"
    case Moderate => "Moderate"
    case Severe => "Severe"
    case ExtremelySevere => "Extremely Severe"
  }

  /** The position of a band in the order Normal < Mild < Moderate < Severe < Extremely Severe. */
  function Rank(b: Band): (r: nat)
    ensures r <= 4
  {
    match b
    case Normal => 0
    case Mild => 1
    case Moderate => 2
    case Severe => 3
    case ExtremelySevere => 4
  }

  /** The band at position `k`; cutoff `k - 1` opens it. */
  function BandAt(k: nat): (b: Band)
    requires k <= 4
    ensures Rank(b) == k
  {
    if k == 0 then Normal
    else if k == 1 then Mild
    else if k == 2 then Moderate
    else if k == 3 then Severe
    else ExtremelySevere
  }

  /** The comparison chain of the classifier, from the highest cutoff down. */
  function Classify(score: int, cutoffs: seq<int>): Band
    requires |cutoffs| == 4
  {
    if score >= cutoffs[3] then ExtremelySevere
    else if score >= cutoffs[2] then Severe
    else if score >= cutoffs[1] then Moderate
    else if score >= cutoffs[0] then Mild
    else Normal
  }

  /**
    The band of `score` for the subscale whose cutoff key is `key`; a key with
    no entry in the cutoff table fails the lookup and gives None.
   */
  function SeverityLabel(score: int, key: char): (r: Option<Band>)
    ensures r.Some? <==> key in SeverityCutoffs
  {
    if key in SeverityCutoffs then Some(Classify(score, SeverityCutoffs[key])) else None
  }

  /** How many of the thresholds in `c` the score has reached. */
  function Reached(c: seq<int>, score: int): (n: nat)
    ensures n <= |c|
  {
    if c == [] then 0
    else Reached(c[..|c| - 1], score) + (if c[|c| - 1] <= score then 1 else 0)
  }

  /**
    Reference reading of the chain: over ascending cutoffs, the rank of the
    band is the number of cutoffs the score has reached.
   */
  lemma {:induction false} RankIsCutoffsReached(score: int, c: seq<int>)
    requires Ascending(c)
    ensures Rank(Classify(score, c)) == Reached(c, score)
  {
    assert c[..4][..3] == c[..3] && c[..3][..2] == c[..2] && c[..2][..1] == c[..1];
    assert c[..1][..0] == [];
    assert c[..4] == c;
    assert Reached(c[..1], score) == (if c[0] <= score then 1 else 0);
    assert Reached(c[..2], score) == Reached(c[..1], score) + (if c[1] <= score then 1 else 0);
    assert Reached(c[..3], score) == Reached(c[..2], score) + (if c[2] <= score then 1 else 0);
  }

  /**
    Over ascending cutoffs every band is the integer interval between the
    cutoff that opens it (inclusive) and the next one (exclusive).
   */
  lemma BandIsInterval(score: int, c: seq<int>, k: nat)
    requires Ascending(c) && k <= 4
    ensures Rank(Classify(score, c)) == k <==>
              (k == 0 || c[k - 1] <= score) && (k == 4 || score < c[k])
  {
  }

  /** A higher score never gets a milder band. */
  lemma ClassifyMonotone(s1: int, s2: int, c: seq<int>)
    requires |c| == 4 && s1 <= s2
    ensures Rank(Classify(s1, c)) <= Rank(Classify(s2, c))
  {
  }

  /** A score is Normal exactly when it is below its subscale's first cutoff. */
  lemma NormalIffBelowFirstCutoff(score: int, key: char)
    requires key in SeverityCutoffs
    ensures SeverityLabel(score, key) == Some(Normal) <==> score < SeverityCutoffs[key][0]
  {
  }

  /**
    A score equal to cutoff `k` gets the band that cutoff opens, and one
    point less gets the band below.
   */
  lemma CutoffOpensBand(key: char, k: nat)
    requires key in SeverityCutoffs && k < 4
    ensures SeverityLabel(SeverityCutoffs[key][k], key) == Some(BandAt(k + 1))
    ensures SeverityLabel(SeverityCutoffs[key][k] - 1, key) == Some(BandAt(k))
  {
  }

  /** Every band is reached by some score, for every subscale. */
  lemma EveryBandReachable(key: char, b: Band)
    requires key in SeverityCutoffs
    ensures exists score :: SeverityLabel(score, key) == Some(b)
  {
    CutoffsWellFormed();
    var c := SeverityCutoffs[key];
    if b == Normal {
      CutoffOpensBand(key, 0);
      assert SeverityLabel(c[0] - 1, key) == Some(b);
    } else {
      CutoffOpensBand(key, Rank(b) - 1);
      assert SeverityLabel(c[Rank(b) - 1], key) == Some(b);
    }
  }

  /** The boundary cases of the published tables. */
  lemma BoundaryExamples()
    ensures SeverityLabel(9, Key(Depression)) == Some(Normal)
    ensures SeverityLabel(10, Key(Depression)) == Some(Mild)
    ensures SeverityLabel(19, Key(Anxiety)) == Some(Severe)
    ensures SeverityLabel(20, Key(Anxiety)) == Some(ExtremelySevere)
    ensures SeverityLabel(34, Key(Stress)) == Some(ExtremelySevere)
  {
  }
}
