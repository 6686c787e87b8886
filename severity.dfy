/** Severity levels of a check and the threshold relation. The relation
    is fixed by its nine-case truth table in the plugin's tests: a
    threshold includes its own level and every narrower one. */
module Severity {

  datatype SeverityThreshold = PRIORITY | POTENTIAL | OPPORTUNITY

  /** `threshold.includes(severity)`, case by case from the truth table. */
  predicate Includes(threshold: SeverityThreshold, severity: SeverityThreshold) {
    match threshold
    case PRIORITY => severity == PRIORITY
    case POTENTIAL => severity == PRIORITY || severity == POTENTIAL
    case OPPORTUNITY => true
  }

  /** Position in the order PRIORITY < POTENTIAL < OPPORTUNITY (narrowest first). */
  function Rank(s: SeverityThreshold): (r: nat)
    ensures r < 3
  {
    match s
    case PRIORITY => 0
    case POTENTIAL => 1
    case OPPORTUNITY => 2
  }

  /** The table is exactly "at or below the threshold in the order". */
  lemma IncludesIffRank(threshold: SeverityThreshold, severity: SeverityThreshold)
    ensures Includes(threshold, severity) <==> Rank(severity) <= Rank(threshold)
  {
  }

  /** Widening the threshold never drops a severity. */
  lemma IncludesMonotonic(t1: SeverityThreshold, t2: SeverityThreshold, severity: SeverityThreshold)
    requires Rank(t1) <= Rank(t2)
    ensures Includes(t1, severity) ==> Includes(t2, severity)
  {
    IncludesIffRank(t1, severity);
    IncludesIffRank(t2, severity);
  }

  /** The extreme rows of the table. */
  lemma IncludesExtremes(severity: SeverityThreshold)
    ensures Includes(PRIORITY, severity) <==> severity == PRIORITY
    ensures Includes(OPPORTUNITY, severity)
    ensures Includes(severity, severity)
  {
  }
}
