// The risk mitigation matrix as a whole: one assessed row per input risk, in
// input order, and the summary drawn from the table (band counts and the one
// interpretation sentence chosen by the most severe band present).

module Assessment {
  import opened Scoring

  /** A named risk with its two slider ratings. */
  datatype Risk = Risk(name: string, probability: int, impact: int)

  /** One row of the matrix. */
  datatype Row = Row(name: string, probability: int, impact: int,
                     score: int, level: Level, strategy: string)

  /** Totals and the overall sentence shown under the matrix. */
  datatype Summary = Summary(total: nat, high: nat, medium: nat, low: nat,
                             interpretation: string)

  const CriticalText: string :=
    "Critical risks are present and require immediate management attention."
  const ModerateText: string :=
    "Moderate risks exist and should be continuously monitored."
  const AcceptableText: string :=
    "Overall project risk exposure is low and acceptable."

  predicate ValidRisk(r: Risk)
  {
    ValidRating(r.probability) && ValidRating(r.impact)
  }

  predicate ValidRisks(risks: seq<Risk>)
  {
    forall k :: 0 <= k < |risks| ==> ValidRisk(risks[k])
  }

  /** A row whose score, band and strategy are consistent with its own ratings. */
  predicate DerivedFrom(row: Row, r: Risk)
  {
    && row.name == r.name
    && row.probability == r.probability
    && row.impact == r.impact
    && row.score == r.probability * r.impact
    && 1 <= row.score <= 25
    && row.level == Classify(row.score)
    && row.strategy == Mitigation(row.level)
  }

  /** The row of the matrix for one risk. */
  function Assess(r: Risk): (row: Row)
    requires ValidRisk(r)
  {
    var s := Score(r.probability, r.impact);
    var l := Classify(s);
    Row(r.name, r.probability, r.impact, s, l, Mitigation(l))
  }

  /** The matrix: each risk assessed on its own, in input order. */
  function Evaluate(risks: seq<Risk>): (rows: seq<Row>)
    requires ValidRisks(risks)
    ensures |rows| == |risks|
    ensures forall k :: 0 <= k < |risks| ==> DerivedFrom(rows[k], risks[k])
  {
    if risks == [] then []
    else [Assess(risks[0])] + Evaluate(risks[1..])
  }

  /** Evaluating a concatenation evaluates each part in place. */
  lemma EvaluateAppend(a: seq<Risk>, b: seq<Risk>)
    requires ValidRisks(a) && ValidRisks(b)
    ensures ValidRisks(a + b)
    ensures Evaluate(a + b) == Evaluate(a) + Evaluate(b)
  {
  }

  /** Number of rows in band l. */
  function CountLevel(rows: seq<Row>, l: Level): (n: nat)
    ensures n <= |rows|
  {
    if rows == [] then 0
    else (if rows[0].level == l then 1 else 0) + CountLevel(rows[1..], l)
  }

  /** Counting a concatenation adds the counts of its parts. */
  lemma {:induction false} CountLevelAppend(a: seq<Row>, b: seq<Row>, l: Level)
    ensures CountLevel(a + b, l) == CountLevel(a, l) + CountLevel(b, l)
  {
    if a == [] {
      assert a + b == b;
    } else {
      assert (a + b)[1..] == a[1..] + b;
      CountLevelAppend(a[1..], b, l);
    }
  }

  /** A single row counts once, in its own band only. */
  lemma CountLevelSingle(row: Row, l: Level)
    ensures CountLevel([row], l) == if row.level == l then 1 else 0
  {
  }

  /** Whether some row is in band l. */
  predicate Present(rows: seq<Row>, l: Level)
  {
    exists k :: 0 <= k < |rows| && rows[k].level == l
  }

  /** A band's count is positive exactly when a row of that band exists. */
  lemma {:induction false} CountPositiveIff(rows: seq<Row>, l: Level)
    ensures CountLevel(rows, l) > 0 <==> Present(rows, l)
  {
    if rows != [] {
      CountPositiveIff(rows[1..], l);
      if Present(rows[1..], l) {
        var k :| 0 <= k < |rows[1..]| && rows[1..][k].level == l;
        assert rows[k + 1].level == l;
      }
      if Present(rows, l) && rows[0].level != l {
        var k :| 0 <= k < |rows| && rows[k].level == l;
        assert rows[1..][k - 1].level == l;
      }
    }
  }

  /** The three band counts add up to the number of rows. */
  lemma {:induction false} CountsSum(rows: seq<Row>)
    ensures CountLevel(rows, High) + CountLevel(rows, Medium) + CountLevel(rows, Low) == |rows|
  {
    if rows != [] {
      CountsSum(rows[1..]);
    }
  }

  /** The overall sentence, picked from the High and Medium counts by priority. */
  function Interpretation(high: nat, medium: nat): (text: string)
    ensures text == CriticalText <==> high > 0
    ensures text == ModerateText <==> high == 0 && medium > 0
    ensures text == AcceptableText <==> high == 0 && medium == 0
  {
    assert |CriticalText| == 70 && |ModerateText| == 58 && |AcceptableText| == 52;
    if high > 0 then CriticalText
    else if medium > 0 then ModerateText
    else AcceptableText
  }

  /** The summary shown under the matrix. */
  function Summarize(rows: seq<Row>): (s: Summary)
    ensures s.total == |rows|
    ensures s.high == CountLevel(rows, High)
    ensures s.medium == CountLevel(rows, Medium)
    ensures s.low == CountLevel(rows, Low)
    ensures s.high + s.medium + s.low == s.total
    ensures s.high > 0 <==> Present(rows, High)
    ensures s.medium > 0 <==> Present(rows, Medium)
    ensures s.low > 0 <==> Present(rows, Low)
    ensures s.interpretation == Interpretation(s.high, s.medium)
  {
    CountsSum(rows);
    CountPositiveIff(rows, High);
    CountPositiveIff(rows, Medium);
    CountPositiveIff(rows, Low);
    Summary(|rows|, CountLevel(rows, High), CountLevel(rows, Medium),
            CountLevel(rows, Low),
            Interpretation(CountLevel(rows, High), CountLevel(rows, Medium)))
  }

  /** The sentence that belongs to a band when it is the most severe one present. */
  function Sentence(l: Level): string
  {
    match l
    case High => CriticalText
    case Medium => ModerateText
    case Low => AcceptableText
  }

  /** The most severe band among the rows; Low for an empty table. */
  function MostSevere(rows: seq<Row>): (l: Level)
    ensures forall k :: 0 <= k < |rows| ==> Severity(rows[k].level) <= Severity(l)
    ensures rows != [] ==> Present(rows, l)
    ensures rows == [] ==> l == Low
  {
    if rows == [] then Low
    else
      var rest := MostSevere(rows[1..]);
      if Severity(rows[0].level) >= Severity(rest) then rows[0].level else rest
  }

  /** The sentence chosen from the counts is the one of the most severe band present. */
  lemma InterpretationIsMostSevere(rows: seq<Row>)
    ensures Summarize(rows).interpretation == Sentence(MostSevere(rows))
  {
  }

  /** The sentence depends only on which bands are present, not on how many rows each has. */
  lemma InterpretationByPresence(a: seq<Row>, b: seq<Row>)
    requires Present(a, High) <==> Present(b, High)
    requires Present(a, Medium) <==> Present(b, Medium)
    ensures Summarize(a).interpretation == Summarize(b).interpretation
  {
  }

  /** One High row forces the critical sentence, whatever else the table holds. */
  lemma OneHighIsCritical(rows: seq<Row>, k: nat)
    requires k < |rows| && rows[k].level == High
    ensures Summarize(rows).interpretation == CriticalText
  {
  }

  /** An empty table has zero counts and the acceptable sentence. */
  lemma EmptyTable()
    ensures Summarize([]) == Summary(0, 0, 0, 0, AcceptableText)
  {
  }

  /** The four hard-coded risks rated with probabilities 1,2,5,4 and impacts 1,2,5,1. */
  lemma MixedRatingsScenario()
    ensures var risks := [Risk("Schedule Delay", 1, 1), Risk("Cost Overrun", 2, 2),
                          Risk("Technical Failure", 5, 5), Risk("Resource Shortage", 4, 1)];
            ValidRisks(risks) &&
            Evaluate(risks) ==
              [Row("Schedule Delay", 1, 1, 1, Low, AcceptStrategy),
               Row("Cost Overrun", 2, 2, 4, Medium, MonitorStrategy),
               Row("Technical Failure", 5, 5, 25, High, AvoidStrategy),
               Row("Resource Shortage", 4, 1, 4, Medium, MonitorStrategy)] &&
            Summarize(Evaluate(risks)) == Summary(4, 1, 2, 1, CriticalText)
  {
    var risks := [Risk("Schedule Delay", 1, 1), Risk("Cost Overrun", 2, 2),
                  Risk("Technical Failure", 5, 5), Risk("Resource Shortage", 4, 1)];
    var rows := Evaluate(risks);
    assert rows[0].level == Low && rows[1].level == Medium;
    assert rows[2].level == High && rows[3].level == Medium;
    assert rows[3..][1..] == [] && rows[2..][1..] == rows[3..];
    assert rows[1..][1..] == rows[2..];
    assert CountLevel(rows[3..], High) == 0 && CountLevel(rows[3..], Medium) == 1;
    assert CountLevel(rows[2..], High) == 1 && CountLevel(rows[2..], Medium) == 1;
    assert CountLevel(rows[1..], High) == 1 && CountLevel(rows[1..], Medium) == 2;
    assert CountLevel(rows, High) == 1 && CountLevel(rows, Medium) == 2;
    CountsSum(rows);
  }

  /** The four hard-coded risks at the sliders' starting value 3: every score is 9, all High. */
  lemma SliderStartScenario()
    ensures var risks := [Risk("Schedule Delay", 3, 3), Risk("Cost Overrun", 3, 3),
                          Risk("Technical Failure", 3, 3), Risk("Resource Shortage", 3, 3)];
            ValidRisks(risks) &&
            Evaluate(risks) ==
              [Row("Schedule Delay", 3, 3, 9, High, AvoidStrategy),
               Row("Cost Overrun", 3, 3, 9, High, AvoidStrategy),
               Row("Technical Failure", 3, 3, 9, High, AvoidStrategy),
               Row("Resource Shortage", 3, 3, 9, High, AvoidStrategy)] &&
            Summarize(Evaluate(risks)) == Summary(4, 4, 0, 0, CriticalText)
  {
  }
}
