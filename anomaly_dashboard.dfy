/**
 * The anomaly dashboard's recommendation panel: the number of rows the
 * chosen anomaly signal flags decides one of three verdicts.
 */
module AnomalyDashboard {

  /** Above this many flagged rows the system should degrade safely. */
  const SafeDegradedAbove: int := 200
  /** Above this many (and up to SafeDegradedAbove) it should be watched. */
  const MonitorAbove: int := 50

  datatype Recommendation = SafeDegraded | MonitorClosely | WithinRange {
    /** How severe the verdict is: the error, warning and success panels. */
    function Severity(): (level: nat)
      ensures level <= 2
    {
      match this
      case SafeDegraded => 2
      case MonitorClosely => 1
      case WithinRange => 0
    }
  }

  /** Flag columns hold 0 for a normal row and 1 for an anomaly. */
  predicate IsFlagColumn(flags: seq<int>) {
    forall i :: 0 <= i < |flags| ==> flags[i] == 0 || flags[i] == 1
  }

  /**
   * The sum of the selected signal column. For a 0/1 column it is the
   * number of flagged rows, so it lies between 0 and the row count.
   */
  function AnomalyCount(flags: seq<int>): (n: int)
    ensures IsFlagColumn(flags) ==> n == multiset(flags)[1]
    ensures IsFlagColumn(flags) ==> 0 <= n <= |flags|
    decreases |flags|
  {
    if flags == [] then 0
    else
      assert flags == [flags[0]] + flags[1..];
      flags[0] + AnomalyCount(flags[1..])
  }

  /** The three-tier verdict over the anomaly count. */
  function Recommend(count: int): (r: Recommendation)
    ensures r == SafeDegraded <==> count > SafeDegradedAbove
    ensures r == MonitorClosely <==> MonitorAbove < count <= SafeDegradedAbove
    ensures r == WithinRange <==> count <= MonitorAbove
  {
    if count > SafeDegradedAbove then SafeDegraded
    else if count > MonitorAbove then MonitorClosely
    else WithinRange
  }

  /** More anomalies never give a milder verdict. */
  lemma RecommendIsMonotone(smaller: int, larger: int)
    requires smaller <= larger
    ensures Recommend(smaller).Severity() <= Recommend(larger).Severity()
  {
  }

  /** The panel's verdict for a table's selected 0/1 column. */
  function RecommendFor(flags: seq<int>): (r: Recommendation)
    requires IsFlagColumn(flags)
    ensures r == SafeDegraded <==> multiset(flags)[1] > SafeDegradedAbove
    ensures r == WithinRange <==> multiset(flags)[1] <= MonitorAbove
    ensures |flags| <= MonitorAbove ==> r == WithinRange
    ensures |flags| <= SafeDegradedAbove ==> r != SafeDegraded
  {
    Recommend(AnomalyCount(flags))
  }

  /** Flagging one more row never gives a milder verdict. */
  lemma {:induction false} FlaggingMoreNeverRelaxes(flags: seq<int>, i: nat)
    requires IsFlagColumn(flags)
    requires i < |flags| && flags[i] == 0
    ensures IsFlagColumn(flags[i := 1])
    ensures AnomalyCount(flags[i := 1]) == AnomalyCount(flags) + 1
    ensures RecommendFor(flags).Severity() <= RecommendFor(flags[i := 1]).Severity()
  {
    var raised := flags[i := 1];
    assert IsFlagColumn(raised);
    assert multiset(raised) == multiset(flags) - multiset{0} + multiset{1} by {
      assert flags == flags[..i] + [0] + flags[i + 1..];
      assert raised == flags[..i] + [1] + flags[i + 1..];
    }
    RecommendIsMonotone(AnomalyCount(flags), AnomalyCount(raised));
  }
}
