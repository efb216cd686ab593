// Per-risk scoring of the risk mitigation matrix: the score of a risk, the
// severity band it falls into, and the canned mitigation strategy of a band.

module Scoring {

  /** The three severity bands a risk score is sorted into. */
  datatype Level = Low | Medium | High

  /** Severity order of the bands: Low < Medium < High. */
  function Severity(l: Level): nat
  {
    match l
    case Low => 0
    case Medium => 1
    case High => 2
  }

  /** The lowest and highest value a probability or impact slider offers. */
  const MinRating: int := 1
  const MaxRating: int := 5

  /** Score at or above which a risk is High. */
  const HighThreshold: int := 6
  /** Score at or above which a risk is at least Medium. */
  const MediumThreshold: int := 3

  const AvoidStrategy: string := "Avoid / Immediate Mitigation"
  const MonitorStrategy: string := "Monitor & Control"
  const AcceptStrategy: string := "Accept & Review"

  /** A rating the sliders can produce. */
  predicate ValidRating(r: int)
  {
    MinRating <= r <= MaxRating
  }

  /** The risk score: probability times impact. */
  function Score(probability: int, impact: int): (s: int)
    requires ValidRating(probability) && ValidRating(impact)
    ensures s == probability * impact
    ensures 1 <= s <= 25
  {
    probability * impact
  }

  /** The band of a score, by descending threshold checks. */
  function Classify(score: int): (l: Level)
    ensures l == High <==> score >= HighThreshold
    ensures l == Medium <==> MediumThreshold <= score < HighThreshold
    ensures l == Low <==> score < MediumThreshold
  {
    if score >= HighThreshold then High
    else if score >= MediumThreshold then Medium
    else Low
  }

  /** The fixed strategy of each band. */
  function Mitigation(l: Level): (m: string)
    ensures l == High ==> m == AvoidStrategy
    ensures l == Medium ==> m == MonitorStrategy
    ensures l == Low ==> m == AcceptStrategy
  {
    if l == High then AvoidStrategy
    else if l == Medium then MonitorStrategy
    else AcceptStrategy
  }

  /** Reads a strategy string back to its band; the inverse of Mitigation. */
  function StrategyLevel(m: string): (l: Option<Level>)
    ensures l.Some? ==> Mitigation(l.value) == m
  {
    if m == AvoidStrategy then Some(High)
    else if m == MonitorStrategy then Some(Medium)
    else if m == AcceptStrategy then Some(Low)
    else None
  }

  datatype Option<T> = None | Some(value: T)

  /** Every band's strategy reads back to that band. */
  lemma MitigationRoundTrip(l: Level)
    ensures StrategyLevel(Mitigation(l)) == Some(l)
  {
  }

  /** Distinct bands have distinct strategies. */
  lemma MitigationInjective(a: Level, b: Level)
    ensures Mitigation(a) == Mitigation(b) ==> a == b
  {
  }

  /** A higher score is never placed in a less severe band. */
  lemma ClassifyMonotone(s1: int, s2: int)
    requires s1 <= s2
    ensures Severity(Classify(s1)) <= Severity(Classify(s2))
  {
  }

  /** The band edges: 6 is High, 5 and 3 are Medium, 2 is Low. */
  lemma ClassifyBoundaries()
    ensures Classify(6) == High && Classify(5) == Medium
    ensures Classify(3) == Medium && Classify(2) == Low
  {
  }

  /** A pair of ratings lands in Low only for the three pairs 1x1, 1x2, 2x1. */
  lemma LowRatingsExactly(probability: int, impact: int)
    requires ValidRating(probability) && ValidRating(impact)
    ensures Classify(Score(probability, impact)) == Low <==>
      (probability == 1 && impact <= 2) || (impact == 1 && probability <= 2)
  {
  }

  /** Raising either rating never lowers the band. */
  lemma ScoreMonotone(p1: int, i1: int, p2: int, i2: int)
    requires ValidRating(p1) && ValidRating(i1) && ValidRating(p2) && ValidRating(i2)
    requires p1 <= p2 && i1 <= i2
    ensures Score(p1, i1) <= Score(p2, i2)
    ensures Severity(Classify(Score(p1, i1))) <= Severity(Classify(Score(p2, i2)))
  {
  }
}
