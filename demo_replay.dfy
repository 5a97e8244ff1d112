/**
 * The demo timeline replayed through the decision dashboard: what the
 * dashboard shows for a table the generator wrote.
 */
module DemoReplay {
  import opened SafetyTimeline
  import opened DemoData
  import opened DecisionDashboard

  /**
   * The keys of the table the generator saves
   * (scripts/generate_demo_data.py:47-52), written out by hand: the model
   * has no CSV writer to derive them from.
   */
  const DemoColumns: set<string> := {"timestamp", "system_decision", "warning_streak", "risk_level"}

  /**
   * The generated file carries exactly the columns the dashboard requires,
   * so it passes the schema check. This records that the two files agree
   * on the four names; it says nothing about the column contents.
   */
  lemma DemoFilePassesSchema()
    ensures DemoColumns == RequiredColumns
    ensures ValidateSchema(DemoColumns)
    ensures MissingColumns(DemoColumns) == {}
  {
  }

  /** Every generated decision is one of the three known ones. */
  lemma DemoDecisionsAreKnown(start: int, rolls: seq<real>)
    ensures AllKnown(DemoTimeline(start, rolls))
  {
    var t := DemoTimeline(start, rolls);
    forall i | 0 <= i < |t| ensures IsKnownDecision(t[i].decision) {
      GeneratedAt(rolls, i);
      assert t[i].decision == Generated(rolls)[i].decision;
    }
  }

  /**
   * The generated timestamps are strictly increasing, so ordering the table
   * by timestamp leaves it exactly as written.
   */
  lemma DemoTimelineIsAlreadyOrdered(start: int, rolls: seq<real>)
    ensures SortByTimestamp(DemoTimeline(start, rolls)) == DemoTimeline(start, rolls)
  {
    var t := DemoTimeline(start, rolls);
    var ts := DemoTimestamps(start, |rolls|);
    assert StrictlyIncreasingTimestamps(t) by {
      forall i, j | 0 <= i < j < |t| ensures t[i].timestamp < t[j].timestamp {
        assert t[i].timestamp == ts[i] && t[j].timestamp == ts[j];
      }
    }
    SortedPermutationIsUnique(t, SortByTimestamp(t));
  }

  /** The three headline counts of the demo replay add up to the row count. */
  lemma DemoCountsPartition(start: int, rolls: seq<real>)
    ensures var s := Summarize(SortByTimestamp(DemoTimeline(start, rolls)));
      s.normal + s.warning + s.critical == |rolls|
  {
    DemoTimelineIsAlreadyOrdered(start, rolls);
    DemoDecisionsAreKnown(start, rolls);
  }

  /**
   * On generated data the two streak channels never overlap: a row has a
   * calm streak exactly when its warning streak is 0.
   */
  lemma DemoCalmStreakMirrorsWarningStreak(start: int, rolls: seq<real>, i: nat)
    requires i < |rolls|
    ensures var t := DemoTimeline(start, rolls);
      CalmStreak(IsCalmColumn(t))[i] == 0 <==> t[i].warningStreak != 0
  {
    var t := DemoTimeline(start, rolls);
    GeneratedAt(rolls, i);
    assert t[i].decision == Generated(rolls)[i].decision;
    assert t[i].warningStreak == Generated(rolls)[i].streak;
    assert IsCalmColumn(t)[i] <==> t[i].decision == Normal;
  }

  /**
   * The Warning rows the dashboard plots all carry a warning streak of 1
   * or 2: a longer streak would have escalated them to Critical.
   */
  lemma DemoWarningRowsHaveShortStreaks(start: int, rolls: seq<real>)
    ensures var w := Where(DemoTimeline(start, rolls), Warning);
      forall k :: 0 <= k < |w| ==> w[k].warningStreak == 1 || w[k].warningStreak == 2
  {
    var t := DemoTimeline(start, rolls);
    var w := Where(t, Warning);
    forall k | 0 <= k < |w| ensures w[k].warningStreak == 1 || w[k].warningStreak == 2 {
      var j := IndexInTable(t, w, k);
      GeneratedAt(rolls, j);
      assert t[j].decision == Generated(rolls)[j].decision;
    }
  }

  /** Every selected row is a row of the table. */
  lemma IndexInTable(t: seq<Row>, w: seq<Row>, k: nat) returns (j: nat)
    requires multiset(w) <= multiset(t) && k < |w|
    ensures j < |t| && t[j] == w[k]
  {
    assert w[k] in multiset(w);
    assert w[k] in multiset(t);
    j :| 0 <= j < |t| && t[j] == w[k];
  }
}
