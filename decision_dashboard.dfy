/**
 * The decision-timeline dashboard: it checks that a loaded table has the
 * required columns, orders it by timestamp, counts each decision, picks
 * out the Warning rows and adds a calm-streak column (the run length of
 * consecutive Normal decisions).
 */
module DecisionDashboard {
  import opened SafetyTimeline

  // ---------------------------------------------------------------------
  // Schema check
  // ---------------------------------------------------------------------

  const RequiredColumns: set<string> := {"timestamp", "system_decision", "warning_streak", "risk_level"}

  /** The required columns a table lacks, as reported to the user. */
  function MissingColumns(columns: set<string>): (missing: set<string>)
    ensures missing <= RequiredColumns
    ensures forall c :: c in RequiredColumns ==> (c in missing <==> c !in columns)
  {
    RequiredColumns - columns
  }

  /** A table passes when no required column is missing. */
  function ValidateSchema(columns: set<string>): (ok: bool)
    ensures ok <==> RequiredColumns <= columns
    ensures ok <==> "timestamp" in columns && "system_decision" in columns
                    && "warning_streak" in columns && "risk_level" in columns
  {
    MissingColumns(columns) == {}
  }

  /** Columns beyond the required ones never change the verdict. */
  lemma ExtraColumnsIgnored(columns: set<string>, extra: set<string>)
    requires extra !! RequiredColumns
    ensures ValidateSchema(columns + extra) == ValidateSchema(columns)
    ensures MissingColumns(columns + extra) == MissingColumns(columns)
  {
  }

  // ---------------------------------------------------------------------
  // Ordering by timestamp
  // ---------------------------------------------------------------------

  predicate SortedByTimestamp(rows: seq<Row>) {
    forall i, j :: 0 <= i < j < |rows| ==> rows[i].timestamp <= rows[j].timestamp
  }

  predicate StrictlyIncreasingTimestamps(rows: seq<Row>) {
    forall i, j :: 0 <= i < j < |rows| ==> rows[i].timestamp < rows[j].timestamp
  }

  function InsertByTimestamp(r: Row, sorted: seq<Row>): (out: seq<Row>)
    requires SortedByTimestamp(sorted)
    ensures SortedByTimestamp(out)
    ensures multiset(out) == multiset(sorted) + multiset{r}
    ensures |out| == |sorted| + 1
    ensures out[0] == r || (sorted != [] && out[0] == sorted[0])
    decreases |sorted|
  {
    if sorted == [] || r.timestamp <= sorted[0].timestamp then
      ConsKeepsOrder(r, sorted);
      [r] + sorted
    else
      var rest := InsertByTimestamp(r, sorted[1..]);
      assert sorted == [sorted[0]] + sorted[1..];
      ConsKeepsOrder(sorted[0], rest);
      [sorted[0]] + rest
  }

  /** A row no later than the head of a sorted table can go in front of it. */
  lemma ConsKeepsOrder(r: Row, sorted: seq<Row>)
    requires SortedByTimestamp(sorted)
    requires sorted != [] ==> r.timestamp <= sorted[0].timestamp
    ensures SortedByTimestamp([r] + sorted)
  {
    var out := [r] + sorted;
    forall i, j | 0 <= i < j < |out| ensures out[i].timestamp <= out[j].timestamp {
      if i > 0 {
        assert out[i] == sorted[i - 1] && out[j] == sorted[j - 1];
      } else {
        assert out[j] == sorted[j - 1];
        assert sorted[0].timestamp <= sorted[j - 1].timestamp;
      }
    }
  }

  /**
   * The table ordered by timestamp: sorted, and holding exactly the rows
   * it was given. Nothing is promised about the order of equal timestamps.
   */
  function SortByTimestamp(rows: seq<Row>): (sorted: seq<Row>)
    ensures SortedByTimestamp(sorted)
    ensures multiset(sorted) == multiset(rows)
    ensures |sorted| == |rows|
    decreases |rows|
  {
    if rows == [] then []
    else
      assert rows == [rows[0]] + rows[1..];
      InsertByTimestamp(rows[0], SortByTimestamp(rows[1..]))
  }

  /** Both orderings start with the earliest row. */
  lemma SortedPermutationHead(s: seq<Row>, t: seq<Row>)
    requires StrictlyIncreasingTimestamps(s)
    requires SortedByTimestamp(t)
    requires multiset(s) == multiset(t)
    requires s != []
    ensures |s| == |t| && s[0] == t[0]
  {
    assert |s| == |multiset(s)| == |multiset(t)| == |t|;
    assert t[0] in multiset(s);
    var k :| 0 <= k < |s| && s[k] == t[0];
    assert s[0] in multiset(t);
    var m :| 0 <= m < |t| && t[m] == s[0];
    assert t[0].timestamp <= t[m].timestamp;
  }

  /**
   * When no two rows share a timestamp, the sorted order is unique: any
   * sorted rearrangement of a strictly increasing table is that table.
   */
  lemma {:induction false} SortedPermutationIsUnique(s: seq<Row>, t: seq<Row>)
    requires StrictlyIncreasingTimestamps(s)
    requires SortedByTimestamp(t)
    requires multiset(s) == multiset(t)
    ensures s == t
    decreases |s|
  {
    if s == [] {
      assert |t| == |multiset(t)| == 0;
    } else {
      SortedPermutationHead(s, t);
      TailsArePermutations(s, t);
      TailKeepsOrder(s);
      TailKeepsOrder(t);
      SortedPermutationIsUnique(s[1..], t[1..]);
      assert s == [s[0]] + s[1..] && t == [t[0]] + t[1..];
    }
  }

  lemma TailKeepsOrder(s: seq<Row>)
    requires s != []
    ensures SortedByTimestamp(s) ==> SortedByTimestamp(s[1..])
    ensures StrictlyIncreasingTimestamps(s) ==> StrictlyIncreasingTimestamps(s[1..])
  {
  }

  /** Two permutations with the same first row are permutations after it. */
  lemma TailsArePermutations(s: seq<Row>, t: seq<Row>)
    requires s != [] && t != [] && s[0] == t[0]
    requires multiset(s) == multiset(t)
    ensures multiset(s[1..]) == multiset(t[1..])
  {
    assert s == [s[0]] + s[1..];
    assert t == [s[0]] + t[1..];
    calc {
      multiset(s[1..]);
      multiset(s) - multiset{s[0]};
      multiset(t) - multiset{s[0]};
      multiset(t[1..]);
    }
  }

  // ---------------------------------------------------------------------
  // Per-decision counts and the Warning rows
  // ---------------------------------------------------------------------

  /** The system_decision column. */
  function Decisions(rows: seq<Row>): (ds: seq<string>)
    ensures |ds| == |rows|
    ensures forall i :: 0 <= i < |rows| ==> ds[i] == rows[i].decision
  {
    seq(|rows|, i requires 0 <= i < |rows| => rows[i].decision)
  }

  /** How many rows carry exactly this decision text. */
  function CountDecision(rows: seq<Row>, decision: string): (n: nat)
    ensures n <= |rows|
    decreases |rows|
  {
    if rows == [] then 0
    else (if rows[0].decision == decision then 1 else 0) + CountDecision(rows[1..], decision)
  }

  /** The count is the multiplicity of the decision in the decision column. */
  lemma {:induction false} CountIsMultiplicity(rows: seq<Row>, decision: string)
    ensures CountDecision(rows, decision) == multiset(Decisions(rows))[decision]
    decreases |rows|
  {
    if rows != [] {
      assert Decisions(rows) == [rows[0].decision] + Decisions(rows[1..]);
      CountIsMultiplicity(rows[1..], decision);
    }
  }

  /** The rows that carry exactly this decision text, in table order. */
  function Where(rows: seq<Row>, decision: string): (selected: seq<Row>)
    ensures forall i :: 0 <= i < |selected| ==> selected[i].decision == decision
    ensures forall i :: 0 <= i < |rows| && rows[i].decision == decision ==> rows[i] in selected
    ensures multiset(selected) <= multiset(rows)
    ensures |selected| == CountDecision(rows, decision)
    decreases |rows|
  {
    if rows == [] then []
    else
      var rest := Where(rows[1..], decision);
      assert rows == [rows[0]] + rows[1..];
      assert forall i :: 1 <= i < |rows| ==> rows[i] == rows[1..][i - 1];
      if rows[0].decision == decision then [rows[0]] + rest else rest
  }

  /**
   * Selecting keeps relative order: the selection of two consecutive
   * stretches is the selection of the first followed by that of the second.
   */
  lemma {:induction false} WhereKeepsOrder(a: seq<Row>, b: seq<Row>, decision: string)
    ensures Where(a + b, decision) == Where(a, decision) + Where(b, decision)
    decreases |a|
  {
    if a != [] {
      assert (a + b)[1..] == a[1..] + b;
      WhereKeepsOrder(a[1..], b, decision);
    } else {
      assert a + b == b;
    }
  }

  /** Counting two stretches is adding their counts. */
  lemma {:induction false} CountAppend(a: seq<Row>, b: seq<Row>, decision: string)
    ensures CountDecision(a + b, decision) == CountDecision(a, decision) + CountDecision(b, decision)
    decreases |a|
  {
    if a != [] {
      assert (a + b)[1..] == a[1..] + b;
      CountAppend(a[1..], b, decision);
    } else {
      assert a + b == b;
    }
  }

  /** Taking row k out of a table takes its decision out of the counts. */
  lemma CountRemoveAt(b: seq<Row>, k: nat, decision: string)
    requires k < |b|
    ensures CountDecision(b, decision) ==
      CountDecision(b[..k] + b[k + 1..], decision) + (if b[k].decision == decision then 1 else 0)
  {
    assert b == (b[..k] + [b[k]]) + b[k + 1..];
    CountAppend(b[..k] + [b[k]], b[k + 1..], decision);
    CountAppend(b[..k], [b[k]], decision);
    CountAppend(b[..k], b[k + 1..], decision);
  }

  lemma MultisetRemoveAt(b: seq<Row>, k: nat)
    requires k < |b|
    ensures multiset(b[..k] + b[k + 1..]) == multiset(b) - multiset{b[k]}
  {
    assert b == b[..k] + [b[k]] + b[k + 1..];
    assert multiset(b) == multiset(b[..k]) + multiset{b[k]} + multiset(b[k + 1..]);
  }

  /** A row of one rearrangement sits somewhere in the other. */
  lemma IndexOfMember(a: seq<Row>, b: seq<Row>) returns (k: nat)
    requires a != [] && multiset(a) == multiset(b)
    ensures |a| == |b| && k < |b| && b[k] == a[0]
    ensures multiset(a[1..]) == multiset(b[..k] + b[k + 1..])
  {
    assert |a| == |multiset(a)| == |multiset(b)| == |b|;
    assert a[0] in multiset(b);
    assert a[0] in b;
    k :| 0 <= k < |b| && b[k] == a[0];
    MultisetRemoveAt(b, k);
    calc {
      multiset(a[1..]);
    == { assert a == [a[0]] + a[1..]; }
      multiset(a) - multiset{a[0]};
    ==
      multiset(b) - multiset{b[k]};
    ==
      multiset(b[..k] + b[k + 1..]);
    }
  }

  /** A count depends only on which rows there are, not on their order. */
  lemma {:induction false} CountIgnoresOrder(a: seq<Row>, b: seq<Row>, decision: string)
    requires multiset(a) == multiset(b)
    ensures CountDecision(a, decision) == CountDecision(b, decision)
    decreases |a|
  {
    if a == [] {
      assert |b| == |multiset(b)| == 0;
    } else {
      var k := IndexOfMember(a, b);
      CountIgnoresOrder(a[1..], b[..k] + b[k + 1..], decision);
      CountRemoveAt(b, k, decision);
    }
  }

  /**
   * The three counts never cover more than the rows; with only the three
   * known decisions present they partition the rows.
   */
  lemma {:induction false} CountsPartition(rows: seq<Row>)
    ensures CountDecision(rows, Normal) + CountDecision(rows, Warning) + CountDecision(rows, Critical) <= |rows|
    ensures AllKnown(rows) ==>
      CountDecision(rows, Normal) + CountDecision(rows, Warning) + CountDecision(rows, Critical) == |rows|
    decreases |rows|
  {
    if rows != [] {
      assert AllKnown(rows) ==> AllKnown(rows[1..]) by {
        if AllKnown(rows) {
          forall i | 0 <= i < |rows| - 1 ensures IsKnownDecision(rows[1..][i].decision) {
            assert rows[1..][i] == rows[i + 1];
          }
        }
      }
      CountsPartition(rows[1..]);
      assert Normal != Warning && Warning != Critical && Normal != Critical;
    }
  }

  /** The three headline metrics. */
  datatype Summary = Summary(normal: nat, warning: nat, critical: nat)

  function Summarize(rows: seq<Row>): (s: Summary)
    ensures rows == [] ==> s == Summary(0, 0, 0)
    ensures AllKnown(rows) ==> s.normal + s.warning + s.critical == |rows|
    ensures s.warning == |Where(rows, Warning)|
    ensures s.normal + s.warning + s.critical <= |rows|
  {
    CountsPartition(rows);
    Summary(CountDecision(rows, Normal), CountDecision(rows, Warning), CountDecision(rows, Critical))
  }

  /** Ordering the table first does not change the headline metrics. */
  lemma SortKeepsSummary(rows: seq<Row>)
    ensures Summarize(SortByTimestamp(rows)) == Summarize(rows)
  {
    var sorted := SortByTimestamp(rows);
    CountIgnoresOrder(sorted, rows, Normal);
    CountIgnoresOrder(sorted, rows, Warning);
    CountIgnoresOrder(sorted, rows, Critical);
  }

  // ---------------------------------------------------------------------
  // Calm streak
  // ---------------------------------------------------------------------

  /** The is_calm column: the decision is Normal. */
  function IsCalmColumn(rows: seq<Row>): (calm: seq<bool>)
    ensures |calm| == |rows|
    ensures forall i :: 0 <= i < |rows| ==> (calm[i] <==> rows[i].decision == Normal)
  {
    seq(|rows|, i requires 0 <= i < |rows| => rows[i].decision == Normal)
  }

  /** The calm_streak column: the run length of calm rows ending at each row. */
  function CalmStreak(isCalm: seq<bool>): (streak: seq<nat>)
    ensures |streak| == |isCalm|
  {
    seq(|isCalm|, i requires 0 <= i < |isCalm| => RunLength(isCalm, i))
  }

  /**
   * The calm streak is 1 + the previous row's when the row is calm and 0
   * otherwise, with 0 before the first row; it is 0 exactly on non-calm
   * rows and never exceeds the row's position plus one.
   */
  lemma CalmStreakRecurrence(isCalm: seq<bool>, i: nat)
    requires i < |isCalm|
    ensures var s := CalmStreak(isCalm);
      var prev := if i == 0 then 0 else s[i - 1];
      && s[i] == (if isCalm[i] then prev + 1 else 0)
      && (s[i] == 0 <==> !isCalm[i])
      && s[i] <= i + 1
  {
  }

  /** The cumulative count of non-calm rows up to and including row i. */
  function BreakCount(isCalm: seq<bool>, i: nat): (n: nat)
    requires i < |isCalm|
    ensures n <= i + 1
    ensures n == 0 <==> forall j :: 0 <= j <= i ==> isCalm[j]
    decreases i
  {
    (if isCalm[i] then 0 else 1) + (if i == 0 then 0 else BreakCount(isCalm, i - 1))
  }

  /** The calm rows among the first hi rows whose break count is g. */
  function GroupCalmSum(isCalm: seq<bool>, g: nat, hi: nat): (sum: nat)
    requires hi <= |isCalm|
    ensures sum <= hi
    ensures g == 0 && (forall j :: 0 <= j < hi ==> isCalm[j]) ==> sum == hi
    decreases hi
  {
    if hi == 0 then 0
    else GroupCalmSum(isCalm, g, hi - 1) + (if BreakCount(isCalm, hi - 1) == g && isCalm[hi - 1] then 1 else 0)
  }

  /**
   * The calm streak as the dashboard computes it: group rows by the running
   * count of non-calm rows and take the running sum of is_calm within the
   * group of row i.
   */
  function GroupedCumSum(isCalm: seq<bool>, i: nat): (sum: nat)
    requires i < |isCalm|
    ensures sum <= i + 1
    ensures (forall j :: 0 <= j <= i ==> isCalm[j]) ==> sum == i + 1
  {
    GroupCalmSum(isCalm, BreakCount(isCalm, i), i + 1)
  }

  lemma {:induction false} BreakCountMonotone(isCalm: seq<bool>, j: nat, i: nat)
    requires j <= i < |isCalm|
    ensures BreakCount(isCalm, j) <= BreakCount(isCalm, i)
    ensures j < i && !isCalm[i] ==> BreakCount(isCalm, j) < BreakCount(isCalm, i)
    decreases i - j
  {
    if j < i {
      BreakCountMonotone(isCalm, j, i - 1);
    }
  }

  lemma {:induction false} GroupCalmSumEmpty(isCalm: seq<bool>, g: nat, hi: nat)
    requires hi <= |isCalm|
    requires forall j :: 0 <= j < hi ==> BreakCount(isCalm, j) < g
    ensures GroupCalmSum(isCalm, g, hi) == 0
    decreases hi
  {
    if hi > 0 {
      GroupCalmSumEmpty(isCalm, g, hi - 1);
    }
  }

  /** The grouped running sum equals the run length of calm rows. */
  lemma {:induction false} GroupedCumSumIsCalmStreak(isCalm: seq<bool>, i: nat)
    requires i < |isCalm|
    ensures GroupedCumSum(isCalm, i) == CalmStreak(isCalm)[i]
    decreases i
  {
    var g := BreakCount(isCalm, i);
    if !isCalm[i] {
      forall j | 0 <= j < i ensures BreakCount(isCalm, j) < g {
        BreakCountMonotone(isCalm, j, i);
      }
      GroupCalmSumEmpty(isCalm, g, i);
    } else if i > 0 {
      assert g == BreakCount(isCalm, i - 1);
      assert GroupCalmSum(isCalm, g, i + 1) == GroupCalmSum(isCalm, g, i) + 1;
      assert GroupedCumSum(isCalm, i - 1) == GroupCalmSum(isCalm, g, i);
      GroupedCumSumIsCalmStreak(isCalm, i - 1);
      assert CalmStreak(isCalm)[i - 1] == RunLength(isCalm, i - 1);
      assert CalmStreak(isCalm)[i] == RunLength(isCalm, i) == RunLength(isCalm, i - 1) + 1;
    }
  }

  // ---------------------------------------------------------------------
  // The table and its in-place augmentation
  // ---------------------------------------------------------------------

  /**
   * The dashboard's table after ordering, with the is_calm and calm_streak
   * columns once they have been added.
   */
  class DecisionTable {
    var rows: seq<Row>
    var isCalm: seq<bool>
    var calmStreak: seq<nat>
    var augmented: bool

    /** Added columns always agree with the decision column. */
    ghost predicate Valid()
      reads this
    {
      augmented ==> isCalm == IsCalmColumn(rows) && calmStreak == CalmStreak(isCalm)
    }

    constructor (rows: seq<Row>)
      ensures Valid()
      ensures this.rows == rows && !augmented
    {
      this.rows := rows;
      isCalm := [];
      calmStreak := [];
      augmented := false;
    }

    /**
     * Adds is_calm and calm_streak. Nothing else in the table changes, and
     * adding them again to an augmented table gives the same columns.
     */
    method AddCalmColumns()
      requires Valid()
      modifies this
      ensures Valid() && augmented
      ensures rows == old(rows)
      ensures isCalm == IsCalmColumn(rows) && calmStreak == CalmStreak(isCalm)
      ensures old(augmented) ==> isCalm == old(isCalm) && calmStreak == old(calmStreak)
    {
      var calm := IsCalmColumn(rows);
      var streak := CalmStreakColumn(calm);
      isCalm := calm;
      calmStreak := streak;
      augmented := true;
    }
  }

  /**
   * The running computation of the calm_streak column: one pass with a
   * counter that grows on calm rows and drops to 0 on the others, filling
   * the new column row by row.
   */
  method CalmStreakColumn(isCalm: seq<bool>) returns (streak: seq<nat>)
    ensures streak == CalmStreak(isCalm)
  {
    streak := [];
    var run: nat := 0;
    for i := 0 to |isCalm|
      invariant run == if i == 0 then 0 else RunLength(isCalm, i - 1)
      invariant streak == CalmStreak(isCalm)[..i]
    {
      if isCalm[i] {
        run := run + 1;
      } else {
        run := 0;
      }
      assert CalmStreak(isCalm)[..i + 1] == CalmStreak(isCalm)[..i] + [run];
      streak := streak + [run];
    }
    assert CalmStreak(isCalm)[..|isCalm|] == CalmStreak(isCalm);
  }

  // ---------------------------------------------------------------------
  // One replay of the dashboard
  // ---------------------------------------------------------------------

  /** What the dashboard derives from a table that passes the schema check. */
  datatype Replay = Replay(rows: seq<Row>, summary: Summary, warnings: seq<Row>, calmStreak: seq<nat>)

  /**
   * Check the schema (the dashboard stops when it fails), order by
   * timestamp, count, select the Warning rows and add the calm streak.
   * The ordering is any sorted permutation of the loaded rows: rows that
   * share a timestamp may come out in either order, and the metrics do
   * not depend on which.
   */
  method ReplayDashboard(columns: set<string>, loaded: seq<Row>) returns (replay: Option<Replay>)
    ensures replay.None? <==> !ValidateSchema(columns)
    ensures replay.Some? ==>
      var r := replay.value;
      && SortedByTimestamp(r.rows)
      && multiset(r.rows) == multiset(loaded)
      && r.summary == Summarize(loaded)
      && r.warnings == Where(r.rows, Warning)
      && r.calmStreak == CalmStreak(IsCalmColumn(r.rows))
  {
    if !ValidateSchema(columns) {
      return None;
    }
    var table := new DecisionTable(SortByTimestamp(loaded));
    var summary := Summarize(table.rows);
    SortKeepsSummary(loaded);
    var warnings := Where(table.rows, Warning);
    table.AddCalmColumns();
    replay := Some(Replay(table.rows, summary, warnings, table.calmStreak));
  }

  /**
   * A Normal row, three Warning rows and a Normal row: the streak restarts
   * at the first calm row after the Warnings.
   */
  lemma CalmStreakScenario()
    ensures var rows := [Row(0, Normal, 0, 0), Row(120, Warning, 1, 1), Row(240, Warning, 2, 1),
                         Row(360, Warning, 3, 1), Row(480, Normal, 0, 0)];
      CalmStreak(IsCalmColumn(rows)) == [1, 0, 0, 0, 1]
  {
  }
}
