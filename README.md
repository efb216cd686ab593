# Risk mitigation matrix — verified model

This project models the risk-scoring rule of the risk mitigation matrix
(`app.py`). Each named risk has two slider ratings: a probability and an
impact, each an integer from 1 to 5. The risk score is their product. The
score is sorted into a severity band by descending thresholds: 6 and above
is High, 3 and above is Medium, anything lower is Low. Each band maps to a
fixed mitigation strategy. The matrix keeps one row per risk, in input
order. Under the matrix the app shows how many rows fall in each band and
one interpretation sentence: the critical sentence when any row is High,
otherwise the moderate sentence when any row is Medium, otherwise the
low-and-acceptable sentence.

Two modules:

- `Scoring` (`scoring.dfy`): the `Level` bands with their severity order,
  `Score`, `Classify`, `Mitigation` and its inverse `StrategyLevel`, and the
  lemmas about bounds, band edges and monotonicity.
- `Assessment` (`assessment.dfy`): risks and matrix rows, `Evaluate` (the
  table), `CountLevel` and `Summarize` (the counts), `Interpretation` (the
  sentence), and `MostSevere`, an independent definition of "the most severe
  band present" that the chosen sentence is proved to agree with.

Everything is modelled as pure functions. The source adds the score, level
and strategy columns to its DataFrame in place, one column after the other,
and `.apply` runs the classification and the strategy lookup once per row.
The model instead builds each finished row at once, by recursion over the
risks. Nothing is lost by this: the frame is only read after the three
columns are added.

The rating bounds are preconditions (`ValidRating`, `ValidRisks`). The app
has no error path for an out-of-range rating; only the sliders' `min_value`
and `max_value` keep ratings in range. An "invalid rating" error result is
therefore not modelled; this model follows the code on that point.

## Model

| member | source | states |
|---|---|---|
| `Scoring.Score` | app.py:84 | for slider ratings in [1,5] the score is probability times impact and lies in [1,25] |
| `Scoring.Classify` | app.py:58-64 | High exactly when score >= 6, Medium exactly when 3 <= score < 6, Low exactly when score < 3 |
| `Scoring.ClassifyBoundaries` | app.py:58-64 | the band edges: 6 is High, 5 and 3 are Medium, 2 is Low |
| `Scoring.ClassifyMonotone` | app.py:58-64 | a higher score is never placed in a less severe band |
| `Scoring.LowRatingsExactly` | app.py:84-85 | a risk is Low exactly for the rating pairs 1x1, 1x2 and 2x1 |
| `Scoring.ScoreMonotone` | app.py:84-85 | raising either rating never lowers the score nor the band |
| `Scoring.Mitigation` | app.py:66-72 | High maps to "Avoid / Immediate Mitigation", Medium to "Monitor & Control", Low to "Accept & Review" |
| `Scoring.StrategyLevel` | app.py:66-72 | a strategy string read back to a band is one that `Mitigation` maps to that string |
| `Scoring.MitigationRoundTrip` | app.py:66-72 | every band's strategy reads back to that same band |
| `Scoring.MitigationInjective` | app.py:66-72 | two different bands never share a strategy string |
| `Assessment.Evaluate` | app.py:78-86 | one row per input risk, in input order; each row keeps its name and ratings, its score is its own probability times impact in [1,25], its level is the band of that score and its strategy the band's strategy |
| `Assessment.EvaluateAppend` | app.py:78-86 | the table of a concatenation is the concatenation of the tables: rows are derived independently and stay in place |
| `Assessment.CountLevel` | app.py:92-94 | a band's count never exceeds the number of rows |
| `Assessment.CountLevelAppend` | app.py:92-94 | the count of a band over two tables joined together is the sum of their counts |
| `Assessment.CountLevelSingle` | app.py:92-94 | a single row adds one to its own band's count and nothing to the others |
| `Assessment.CountPositiveIff` | app.py:92-94 | a band's count is positive exactly when some row has that band |
| `Assessment.CountsSum` | app.py:92-94 | the High, Medium and Low counts add up to the number of rows |
| `Assessment.Interpretation` | app.py:96-101 | the critical sentence exactly when high > 0; the moderate sentence exactly when high = 0 and medium > 0; the low-and-acceptable sentence exactly when both are 0 |
| `Assessment.Summarize` | app.py:92-105 | total is the number of rows, high, medium and low are the numbers of rows in each band, the three counts add up to the total, each count is positive exactly when its band is present, and the sentence is chosen from the High and Medium counts |
| `Assessment.MostSevere` | app.py:96-101 | the most severe band among the rows is at least as severe as every row's band and is itself present; it is Low for an empty table |
| `Assessment.InterpretationIsMostSevere` | app.py:96-101 | the sentence chosen from the counts is the sentence of the most severe band present |
| `Assessment.InterpretationByPresence` | app.py:96-101 | two tables with the same High and Medium presence get the same sentence, whatever their counts |
| `Assessment.OneHighIsCritical` | app.py:96-101 | a single High row yields the critical sentence whatever the other rows are |
| `Assessment.EmptyTable` | app.py:92-101 | an empty table has all counts 0 and the low-and-acceptable sentence |
| `Assessment.MixedRatingsScenario` | app.py:78-101 | the four hard-coded risks rated with probabilities 1,2,5,4 and impacts 1,2,5,1 give scores 1,4,25,4, levels Low, Medium, High, Medium, counts 1 High, 2 Medium, 1 Low, and the critical sentence |
| `Assessment.SliderStartScenario` | app.py:37-101 | the four hard-coded risks at the sliders' starting value 3 all score 9 and are High with the avoid strategy, counts 4 High, 0 Medium, 0 Low, and the critical sentence |

## Left out

- The page setup, title, sliders, button, table rendering and the summary's
  Markdown text (app.py:1-53, 77, 88-89, 103-115): user interface; the model
  takes only the sliders' range [1,5] as a precondition.
- The constant "Recommendation" sentence (app.py:113-114): fixed text, no logic.
- The hard-coded list of four risk names (app.py:20-25): configuration; `Evaluate`
  takes any sequence, and `MixedRatingsScenario` and `SliderStartScenario` use those four names.
- pandas mechanics (`DataFrame`, `apply`, boolean filtering, `len`): modelled
  as sequences and recursive counts.
- Band labels as strings: the app stores the level as the text "High",
  "Medium" or "Low", and `mitigation` sends every label other than "High" and
  "Medium" to "Accept & Review". The model uses the `Level` datatype, so only
  the three labels `classify_risk` can produce exist.
- An error for ratings outside [1,5]: the app has no such check, so the
  bounds are preconditions rather than an error result.
