/**
 * The demo-data generator: a fixed number of draws, each classified by
 * two thresholds into Normal, Warning or Critical, with a running count
 * of consecutive non-Normal draws and an escalation rule that turns a
 * Warning into a Critical once that count reaches three.
 *
 * The pseudo-random draws are an input: `rolls` holds the values the
 * generator would draw, in draw order.
 */
module DemoData {
  import opened SafetyTimeline

  /** N_ROWS of the generator script. */
  const DemoRowCount: nat := 250
  /** START_TIME, 2025-01-01 08:00:00, in seconds since the Unix epoch. */
  const DemoStartTime: int := 1735718400
  /** The fixed "2min" frequency of the timestamp range, in seconds. */
  const StepSeconds: int := 120

  /** A draw below this is Normal. */
  const NormalBelow: real := 0.75
  /** A draw at or above NormalBelow and below this is Warning; above is Critical. */
  const WarningBelow: real := 0.93
  /** A Warning draw whose streak has reached this is emitted as Critical. */
  const EscalationStreak: nat := 3

  /** What one iteration appends: decision, warning_streak and risk_level. */
  datatype Emission = Emission(decision: string, streak: nat, risk: int)

  /**
   * One iteration of the generation loop, given the counter before the
   * draw. The returned streak is the counter after the draw.
   */
  function Emit(prevStreak: nat, roll: real): (e: Emission)
    ensures IsKnownDecision(e.decision)
    ensures DecisionLevel(e.decision) == Some(e.risk)
    ensures e.streak == 0 <==> e.decision == Normal
    ensures e.decision == Warning ==> 1 <= e.streak < EscalationStreak
  {
    var (risk, streak, decision) :=
      if roll < NormalBelow then (0, 0, Normal)
      else if roll < WarningBelow then (1, prevStreak + 1, Warning)
      else (2, prevStreak + 1, Critical);
    if streak >= EscalationStreak && risk == 1 then Emission(Critical, streak, 2)
    else Emission(decision, streak, risk)
  }

  /**
   * The rows the loop appends for the given draws when the counter starts
   * at prevStreak, in order.
   */
  function GenerateFrom(prevStreak: nat, rolls: seq<real>): (rows: seq<Emission>)
    ensures |rows| == |rolls|
    decreases |rolls|
  {
    if rolls == [] then []
    else
      var e := Emit(prevStreak, rolls[0]);
      [e] + GenerateFrom(e.streak, rolls[1..])
  }

  /** The rows the generator appends: the counter starts at 0. */
  function Generated(rolls: seq<real>): (rows: seq<Emission>)
    ensures |rows| == |rolls|
  {
    GenerateFrom(0, rolls)
  }

  /** The timestamp column: a fixed-step range of n instants from start. */
  function DemoTimestamps(start: int, n: nat): (ts: seq<int>)
    ensures |ts| == n
    ensures n > 0 ==> ts[0] == start
    ensures forall i :: 0 < i < n ==> ts[i] == ts[i - 1] + StepSeconds
    ensures forall i, j :: 0 <= i < j < n ==> ts[i] < ts[j]
  {
    seq(n, i requires 0 <= i < n => start + StepSeconds * i)
  }

  /** The table the generator writes: timestamps beside the generated rows. */
  function DemoTimeline(start: int, rolls: seq<real>): (t: seq<Row>)
    ensures |t| == |rolls|
  {
    var ts := DemoTimestamps(start, |rolls|);
    var g := Generated(rolls);
    seq(|rolls|, i requires 0 <= i < |rolls| => Row(ts[i], g[i].decision, g[i].streak, g[i].risk))
  }

  /**
   * The generation loop and the table built from its three lists. The
   * output is determined by start and the draws alone.
   */
  method GenerateDemoTimeline(start: int, rolls: seq<real>) returns (timeline: seq<Row>)
    ensures timeline == DemoTimeline(start, rolls)
  {
    var riskLevels: seq<int> := [];
    var warningStreaks: seq<nat> := [];
    var decisions: seq<string> := [];
    var currentStreak: nat := 0;

    for i := 0 to |rolls|
      invariant |riskLevels| == i && |warningStreaks| == i && |decisions| == i
      invariant forall k :: 0 <= k < i ==>
        Generated(rolls)[k] == Emission(decisions[k], warningStreaks[k], riskLevels[k])
      invariant Generated(rolls)[i..] == GenerateFrom(currentStreak, rolls[i..])
    {
      var roll := rolls[i];
      var risk: int;
      var decision: string;
      if roll < NormalBelow {
        risk := 0;
        currentStreak := 0;
        decision := Normal;
      } else if roll < WarningBelow {
        risk := 1;
        currentStreak := currentStreak + 1;
        decision := Warning;
      } else {
        risk := 2;
        currentStreak := currentStreak + 1;
        decision := Critical;
      }

      // Escalation rule
      if currentStreak >= EscalationStreak && risk == 1 {
        risk := 2;
        decision := Critical;
      }

      riskLevels := riskLevels + [risk];
      warningStreaks := warningStreaks + [currentStreak];
      decisions := decisions + [decision];

      assert rolls[i..][1..] == rolls[i + 1..];
      assert Generated(rolls)[i + 1..] == Generated(rolls)[i..][1..];
    }

    var timestamps := DemoTimestamps(start, |rolls|);
    timeline := seq(|rolls|, i requires 0 <= i < |rolls| =>
      Row(timestamps[i], decisions[i], warningStreaks[i], riskLevels[i]));
  }

  /**
   * Row i is one step of the loop applied to draw i, starting from the
   * previous row's streak, or from the initial counter before the first row.
   */
  lemma {:induction false} GenerateFromAt(prevStreak: nat, rolls: seq<real>, i: nat)
    requires i < |rolls|
    ensures GenerateFrom(prevStreak, rolls)[i] ==
      Emit(if i == 0 then prevStreak else GenerateFrom(prevStreak, rolls)[i - 1].streak, rolls[i])
    decreases i
  {
    if i > 0 {
      var e := Emit(prevStreak, rolls[0]);
      GenerateFromAt(e.streak, rolls[1..], i - 1);
    }
  }

  /**
   * Row i of the generated table is one step of the loop applied to draw
   * i, starting from the previous row's streak, or from 0 before the first.
   */
  lemma GeneratedAt(rolls: seq<real>, i: nat)
    requires i < |rolls|
    ensures Generated(rolls)[i] ==
      Emit(if i == 0 then 0 else Generated(rolls)[i - 1].streak, rolls[i])
  {
    GenerateFromAt(0, rolls, i);
  }

  /** What each emitted row satisfies, draw by draw. */
  lemma GeneratedRowFacts(rolls: seq<real>, i: nat)
    requires i < |rolls|
    ensures var r := Generated(rolls)[i];
      var prev := if i == 0 then 0 else Generated(rolls)[i - 1].streak;
      && (rolls[i] < NormalBelow ==> r.decision == Normal && r.risk == 0 && r.streak == 0)
      && (rolls[i] >= NormalBelow ==> r.streak == prev + 1)
      && (NormalBelow <= rolls[i] < WarningBelow && r.streak >= EscalationStreak ==>
            r.decision == Critical && r.risk == 2)
      && (NormalBelow <= rolls[i] < WarningBelow && r.streak < EscalationStreak ==>
            r.decision == Warning && r.risk == 1)
      && (rolls[i] >= WarningBelow ==> r.decision == Critical && r.risk == 2)
      && DecisionLevel(r.decision) == Some(r.risk)
      && (r.streak == 0 <==> r.decision == Normal)
      && (r.decision == Warning ==> r.streak == 1 || r.streak == 2)
  {
    GeneratedAt(rolls, i);
  }

  /** A Warning draw right after two non-Normal draws is emitted as Critical. */
  lemma EscalationAfterTwoNonNormalDraws(rolls: seq<real>, i: nat)
    requires 2 <= i < |rolls|
    requires rolls[i - 2] >= NormalBelow && rolls[i - 1] >= NormalBelow
    requires NormalBelow <= rolls[i] < WarningBelow
    ensures Generated(rolls)[i].decision == Critical
    ensures Generated(rolls)[i].risk == 2
  {
    GeneratedAt(rolls, i - 2);
    GeneratedAt(rolls, i - 1);
    GeneratedAt(rolls, i);
  }

  /** Which draws are non-Normal: the predicate warning_streak counts. */
  function NonNormalDraws(rolls: seq<real>): (flags: seq<bool>)
    ensures |flags| == |rolls|
  {
    seq(|rolls|, k requires 0 <= k < |rolls| => rolls[k] >= NormalBelow)
  }

  /**
   * warning_streak is the run length of non-Normal draws ending at the
   * row, escalated rows included.
   */
  lemma {:induction false} StreakIsNonNormalRunLength(rolls: seq<real>, i: nat)
    requires i < |rolls|
    ensures Generated(rolls)[i].streak == RunLength(NonNormalDraws(rolls), i)
    decreases i
  {
    GeneratedAt(rolls, i);
    if i > 0 {
      StreakIsNonNormalRunLength(rolls, i - 1);
    }
  }

  /**
   * The demo run: DemoRowCount draws from DemoStartTime give DemoRowCount
   * rows, two minutes apart, from DemoStartTime to
   * DemoStartTime + (DemoRowCount - 1) * StepSeconds, in order.
   */
  lemma DemoRunShape(rolls: seq<real>)
    requires |rolls| == DemoRowCount
    ensures var t := DemoTimeline(DemoStartTime, rolls);
      && |t| == DemoRowCount
      && t[0].timestamp == DemoStartTime
      && t[DemoRowCount - 1].timestamp == DemoStartTime + (DemoRowCount - 1) * StepSeconds
      && forall i :: 0 < i < DemoRowCount ==> t[i].timestamp == t[i - 1].timestamp + StepSeconds
  {
    var t := DemoTimeline(DemoStartTime, rolls);
    var ts := DemoTimestamps(DemoStartTime, |rolls|);
    forall i | 0 <= i < DemoRowCount ensures t[i].timestamp == ts[i] {
    }
  }

  /**
   * A Normal draw then three Warning draws: the third Warning escalates to
   * Critical, and the streak counts 0, 1, 2, 3.
   */
  lemma EscalationScenario()
    ensures var g := Generated([0.5, 0.8, 0.8, 0.8]);
      && [g[0].decision, g[1].decision, g[2].decision, g[3].decision] == [Normal, Warning, Warning, Critical]
      && [g[0].streak, g[1].streak, g[2].streak, g[3].streak] == [0, 1, 2, 3]
  {
    var rolls: seq<real> := [0.5, 0.8, 0.8, 0.8];
    GeneratedAt(rolls, 0);
    GeneratedAt(rolls, 1);
    GeneratedAt(rolls, 2);
    GeneratedAt(rolls, 3);
  }
}
