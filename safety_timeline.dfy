/**
 * The record shape shared by the demo-data generator and the dashboards:
 * one row of the safety timeline CSV (timestamp, system_decision,
 * warning_streak, risk_level), the three decision labels, and the
 * decision-to-level map the decision dashboard plots with.
 */
module SafetyTimeline {

  datatype Option<T> = None | Some(value: T)

  /** The three decision labels. Decisions travel as text, as in the CSV. */
  const Normal: string := "Normal"
  const Warning: string := "Warning"
  const Critical: string := "Critical"

  const Categories: set<string> := {Normal, Warning, Critical}

  /** DECISION_MAP: decision label to its plotted level. */
  const DecisionMap: map<string, int> := map[Normal := 0, Warning := 1, Critical := 2]

  /** The y-axis tick labels of the decision timeline, indexed by level. */
  const LevelLabels: seq<string> := [Normal, Warning, Critical]

  /**
   * One row of the timeline. Timestamps are instants counted in seconds;
   * the decision is whatever text the file holds.
   */
  datatype Row = Row(timestamp: int, decision: string, warningStreak: int, riskLevel: int)

  predicate IsKnownDecision(decision: string) {
    decision in Categories
  }

  predicate AllKnown(rows: seq<Row>) {
    forall i :: 0 <= i < |rows| ==> IsKnownDecision(rows[i].decision)
  }

  /**
   * Mapping a decision column through DECISION_MAP: a decision outside the
   * map yields a missing value rather than an error.
   */
  function DecisionLevel(decision: string): (level: Option<int>)
    ensures level.Some? <==> IsKnownDecision(decision)
    ensures level.Some? ==> 0 <= level.value <= 2
    ensures decision == Normal ==> level == Some(0)
    ensures decision == Warning ==> level == Some(1)
    ensures decision == Critical ==> level == Some(2)
  {
    if decision in DecisionMap then Some(DecisionMap[decision]) else None
  }

  /** The tick label shown at a level of the decision axis, if any. */
  function LevelLabel(level: int): (name: Option<string>)
    ensures name.Some? <==> 0 <= level <= 2
    ensures name.Some? ==> IsKnownDecision(name.value)
  {
    if 0 <= level < |LevelLabels| then Some(LevelLabels[level]) else None
  }

  /** DECISION_MAP is a bijection from the three labels onto {0, 1, 2}. */
  lemma DecisionMapIsBijection()
    ensures DecisionMap.Keys == Categories
    ensures DecisionMap.Values == {0, 1, 2}
    ensures forall a, b :: a in DecisionMap && b in DecisionMap && DecisionMap[a] == DecisionMap[b] ==> a == b
  {
    assert DecisionMap[Normal] == 0 && DecisionMap[Warning] == 1 && DecisionMap[Critical] == 2;
    forall v | v in DecisionMap.Values ensures v in {0, 1, 2} {
      var k :| k in DecisionMap && DecisionMap[k] == v;
    }
  }

  /** The tick labels invert DECISION_MAP, in both directions. */
  lemma LevelLabelsInvertDecisionMap(decision: string, level: int)
    ensures DecisionLevel(decision) == Some(level) <==> LevelLabel(level) == Some(decision)
  {
    if LevelLabel(level) == Some(decision) {
      assert level == 0 || level == 1 || level == 2;
    }
  }

  /**
   * Run length: how many consecutive entries of flags, ending at and
   * including index i, hold. It is 0 when flags[i] itself does not hold.
   * Both streak columns of the timeline are run lengths of this kind.
   */
  function RunLength(flags: seq<bool>, i: nat): (n: nat)
    requires i < |flags|
    ensures n <= i + 1
    ensures n == 0 <==> !flags[i]
    decreases i
  {
    if !flags[i] then 0
    else if i == 0 then 1
    else RunLength(flags, i - 1) + 1
  }

  /**
   * The run length is that of the maximal run ending at i: the last n
   * entries up to i hold, and the one before them, if any, does not.
   */
  lemma {:induction false} RunLengthIsMaximalRun(flags: seq<bool>, i: nat)
    requires i < |flags|
    ensures var n := RunLength(flags, i);
      && (forall k :: i - n < k <= i ==> flags[k])
      && (n <= i ==> !flags[i - n])
    decreases i
  {
    if flags[i] && i > 0 {
      RunLengthIsMaximalRun(flags, i - 1);
    }
  }
}
