# Decision-stream analyzer of the safety-decision dashboards

This project models the analysis core of a set of read-only dashboards. The dashboards replay a log of safety-system decisions (Normal, Warning or Critical). The model has three parts:

- **The demo-data generator** (`demo_data.dfy`, module `DemoData`). It draws one value per row and classifies it with two thresholds. A draw below 0.75 is Normal, below 0.93 Warning, otherwise Critical. A running counter of consecutive non-Normal draws becomes the `warning_streak` column. A Warning whose counter has reached 3 is escalated to Critical with risk 2, and the escalation leaves the counter as it is. Timestamps start at `START_TIME` and step by two minutes. The generation loop is a method with a loop invariant. It is proved equal to a recursive specification, `Generated`, and the row-by-row properties are lemmas about that specification.
- **The decision-timeline dashboard** (`decision_dashboard.dfy`, module `DecisionDashboard`). It covers:
  - the required-column check;
  - ordering by timestamp;
  - the per-decision counts and the Warning-only rows;
  - the calm-streak column, i.e. the run length of consecutive Normal decisions.

  The calm streak is specified by a run length. It is proved equal to the dashboard's own group-by/cumulative-sum formulation (`GroupedCumSum`). It is also computed by a one-pass loop that builds the column row by row (`CalmStreakColumn`). The table gains its `is_calm`/`calm_streak` columns in place, through the `DecisionTable` class.
- **The anomaly recommendation panel** (`anomaly_dashboard.dfy`, module `AnomalyDashboard`). It sums the selected 0/1 anomaly column and gives a three-tier verdict: more than 200 flagged rows, more than 50, or neither.

`safety_timeline.dfy` (module `SafetyTimeline`) holds what these parts share:
- the row type of the timeline CSV;
- the three decision labels;
- `DECISION_MAP`;
- the run-length function.

`demo_replay.dfy` (module `DemoReplay`) states what the decision dashboard shows for a table the generator wrote.

Decisions are kept as text, as in the CSV. The dashboard does not reject unknown labels, so the model does not either. The count partition and the generated-data lemmas say when all labels are known. Timestamps are integers (seconds). The pseudo-random draws are an input sequence `rolls`. `GenerateDemoTimeline` ensures its output equals `DemoTimeline(start, rolls)`, a function of its inputs. So the same draws always give the same table.

Two points about the dashboard's ordering and labels:
- `sort_values("timestamp")` uses pandas' default quicksort, which promises no order among equal timestamps. `SortByTimestamp` is one concrete ordering (an insertion sort), and its contract promises only sorted order and a permutation. `ReplayDashboard` promises only that its table is some sorted permutation of the loaded rows. Its summary is stated on the loaded rows, so it does not depend on the tie order. Its Warning rows and calm streak are stated on whatever order it returns. `DemoTimelineIsAlreadyOrdered` shows that ties never arise for generated data, whose timestamps are distinct.
- The dashboard never rejects an unknown label. Such a row is counted under no category, and `DecisionLevel` gives `None` for it.

## Model

| member | source | states |
|---|---|---|
| `SafetyTimeline.DecisionLevel` | app/streamlit_app.py:30 | mapping a decision through DECISION_MAP gives a level exactly for the three known labels: Normal 0, Warning 1, Critical 2. Any other label gives a missing value. |
| `SafetyTimeline.LevelLabel` | app/streamlit_app.py:221-222 | the decision axis labels levels 0..2, and only those, each with a known decision |
| `SafetyTimeline.DecisionMapIsBijection` | app/streamlit_app.py:30 | DECISION_MAP's keys are exactly the three labels, its values exactly {0,1,2}, and it is injective |
| `SafetyTimeline.LevelLabelsInvertDecisionMap` | app/streamlit_app.py:216-222 | a label maps to a level if and only if the axis shows that label at that level (round trip both ways) |
| `SafetyTimeline.RunLength` | app/streamlit_app.py:264-270 | a run length at row i is at most i+1, and it is 0 exactly when the predicate fails at row i |
| `SafetyTimeline.RunLengthIsMaximalRun` | app/streamlit_app.py:264-270 | the run length n at row i is that of the maximal run: the last n entries hold and the entry before them does not |
| `DemoData.Emit` | scripts/generate_demo_data.py:22-40 | one draw's emitted row always has a known decision, a risk equal to DECISION_MAP of that decision, and streak 0 exactly when it is Normal. A Warning is only emitted with a streak of 1 or 2. |
| `DemoData.GenerateFrom` | scripts/generate_demo_data.py:21-44 | the loop appends exactly one row per draw |
| `DemoData.Generated` | scripts/generate_demo_data.py:19-44 | with the counter starting at 0, the generator emits one row per draw |
| `DemoData.DemoTimestamps` | scripts/generate_demo_data.py:12 | n timestamps that start at the start instant, step by two minutes and are strictly increasing |
| `DemoData.DemoTimeline` | scripts/generate_demo_data.py:47-52 | the written table has one row per draw |
| `DemoData.GenerateDemoTimeline` | scripts/generate_demo_data.py:15-52 | the loop over the draws builds exactly `DemoTimeline(start, rolls)`, so every list has one entry per draw and the output depends only on the draws and the start |
| `DemoData.GenerateFromAt` | scripts/generate_demo_data.py:19-44 | row i is one loop step on draw i, starting from the previous row's stored streak (or from the initial counter for the first row) |
| `DemoData.GeneratedAt` | scripts/generate_demo_data.py:19-44 | row i is one loop step on draw i, starting from the previous row's streak, or from 0 before the first row |
| `DemoData.GeneratedRowFacts` | scripts/generate_demo_data.py:24-43 | a draw below 0.75 gives Normal, risk 0, streak 0. A draw of at least 0.75 gives the previous streak + 1. A Warning draw with streak >= 3 is emitted Critical with risk 2; with a smaller streak it stays Warning with risk 1. A draw of at least 0.93 is Critical with risk 2. The risk equals the decision's level. The streak is 0 iff Normal. A Warning has streak 1 or 2. |
| `DemoData.EscalationAfterTwoNonNormalDraws` | scripts/generate_demo_data.py:37-40 | a Warning draw right after two non-Normal draws is always emitted as Critical with risk 2 |
| `DemoData.StreakIsNonNormalRunLength` | scripts/generate_demo_data.py:24-43 | the stored warning_streak is the run length of non-Normal draws ending at the row, so escalation never changes the counter |
| `DemoData.EscalationScenario` | scripts/generate_demo_data.py:19-44 | draws Normal, Warning, Warning, Warning emit Normal, Warning, Warning, Critical with streaks 0, 1, 2, 3 |
| `DemoData.DemoRunShape` | scripts/generate_demo_data.py:5-12 | 250 draws from 2025-01-01 08:00:00 give 250 rows two minutes apart, the last at the start + 249 × 120 seconds |
| `DecisionDashboard.MissingColumns` | app/streamlit_app.py:51 | the reported missing columns are exactly the required columns absent from the table |
| `DecisionDashboard.ValidateSchema` | app/streamlit_app.py:50-64 | the schema passes if and only if timestamp, system_decision, warning_streak and risk_level are all present |
| `DecisionDashboard.ExtraColumnsIgnored` | app/streamlit_app.py:23-28 | columns outside the required four change neither the verdict nor the missing set |
| `DecisionDashboard.InsertByTimestamp` | app/streamlit_app.py:170 | inserting one row into a sorted table keeps it sorted and adds exactly that row |
| `DecisionDashboard.ConsKeepsOrder` | app/streamlit_app.py:170 | a row no later than the head of a sorted table can be put in front and the table stays sorted |
| `DecisionDashboard.SortByTimestamp` | app/streamlit_app.py:170 | the ordered table is sorted by timestamp (non-decreasing) and is a permutation of the input rows |
| `DecisionDashboard.SortedPermutationHead` | app/streamlit_app.py:170 | when timestamps are distinct, every sorted permutation starts with the same row |
| `DecisionDashboard.SortedPermutationIsUnique` | app/streamlit_app.py:170 | when timestamps are distinct, the only sorted permutation of the rows is their timestamp order, so sorting is fully determined |
| `DecisionDashboard.CountDecision` | app/streamlit_app.py:202-204 | a category count never exceeds the row count |
| `DecisionDashboard.CountIsMultiplicity` | app/streamlit_app.py:202-204 | a category count equals the number of occurrences of that exact label in the decision column |
| `DecisionDashboard.Where` | app/streamlit_app.py:243 | the selection holds only rows with the label, holds every row with the label, takes no row more often than the table has it, and has as many rows as the label's count |
| `DecisionDashboard.WhereKeepsOrder` | app/streamlit_app.py:243 | selecting from two consecutive stretches gives the first stretch's selection followed by the second's, so relative order is preserved |
| `DecisionDashboard.CountAppend` | app/streamlit_app.py:202-204 | the count over two consecutive stretches is the sum of their counts |
| `DecisionDashboard.CountRemoveAt` | app/streamlit_app.py:202-204 | removing one row lowers the count of its own label by one and leaves the other counts unchanged |
| `DecisionDashboard.CountIgnoresOrder` | app/streamlit_app.py:202-204 | any two orderings of the same rows give the same counts |
| `DecisionDashboard.CountsPartition` | app/streamlit_app.py:202-204 | the three counts never sum to more than the row count, and sum to exactly it when every decision is Normal, Warning or Critical |
| `DecisionDashboard.Summarize` | app/streamlit_app.py:202-204 | the three metrics: all zero for an empty table, summing to the row count when all labels are known, and the Warning metric equals the number of Warning rows selected |
| `DecisionDashboard.SortKeepsSummary` | app/streamlit_app.py:170-204 | the metrics of the ordered table equal those of the table as loaded |
| `DecisionDashboard.IsCalmColumn` | app/streamlit_app.py:264 | is_calm holds for a row exactly when its decision is Normal |
| `DecisionDashboard.CalmStreak` | app/streamlit_app.py:265-270 | the calm_streak column has one entry per row |
| `DecisionDashboard.CalmStreakRecurrence` | app/streamlit_app.py:264-270 | the calm streak is the previous streak + 1 on a calm row and 0 otherwise, with 0 before the first row. It is 0 exactly on non-calm rows and at most i+1. |
| `DecisionDashboard.BreakCount` | app/streamlit_app.py:268 | the running count of non-calm rows up to row i is at most i + 1, and it is 0 exactly when every row so far is calm |
| `DecisionDashboard.GroupCalmSum` | app/streamlit_app.py:266-269 | the running sum of is_calm within one group over the first hi rows is at most hi, and it is hi when every one of those rows is calm and the group is the first (count 0) |
| `DecisionDashboard.GroupedCumSum` | app/streamlit_app.py:265-270 | the grouped running sum at row i is at most i + 1, and it is i + 1 when every row so far is calm. Its full meaning, the calm run length, is `GroupedCumSumIsCalmStreak`. |
| `DecisionDashboard.BreakCountMonotone` | app/streamlit_app.py:268 | the running count of non-calm rows never decreases, and it strictly increases at a non-calm row |
| `DecisionDashboard.GroupCalmSumEmpty` | app/streamlit_app.py:266-269 | a group that no earlier row belongs to has a running sum of 0 |
| `DecisionDashboard.GroupedCumSumIsCalmStreak` | app/streamlit_app.py:264-270 | the group-by/cumulative-sum computation (group by the running count of non-calm rows, running sum of is_calm within the group) equals the calm-streak run length at every row |
| `DecisionDashboard.DecisionTable.constructor` | app/streamlit_app.py:170 | a new table holds the given rows and has no calm columns yet |
| `DecisionDashboard.DecisionTable.AddCalmColumns` | app/streamlit_app.py:264-270 | adds is_calm and calm_streak computed from the decision column and leaves the rows unchanged. Adding them again to an augmented table leaves the columns as they were (idempotence). |
| `DecisionDashboard.CalmStreakColumn` | app/streamlit_app.py:264-270 | the one-pass running counter fills exactly the calm-streak column (an empty table gives an empty column) |
| `DecisionDashboard.ReplayDashboard` | app/streamlit_app.py:163-270 | the dashboard stops exactly when the schema check fails. Otherwise its table is a timestamp-sorted permutation of the loaded rows, with no order promised among equal timestamps. Its metrics are those of the loaded rows. Its Warning rows and calm streak are those of the table it shows. |
| `DecisionDashboard.CalmStreakScenario` | app/streamlit_app.py:264-270 | rows with decisions Normal, Warning, Warning, Warning, Normal get the calm streak 1, 0, 0, 0, 1 |
| `AnomalyDashboard.AnomalyCount` | dashboards/app.py:60 | for a 0/1 flag column, the sum is the number of rows flagged 1, between 0 and the row count |
| `AnomalyDashboard.Recommend` | dashboards/app.py:60-65 | more than 200 gives SAFE-DEGRADED, 51..200 gives monitor closely, and at most 50 gives within acceptable range (50 and 200 fall in the lower tier). Exactly one verdict per count. |
| `AnomalyDashboard.RecommendIsMonotone` | dashboards/app.py:60-65 | verdict severity never decreases as the count grows |
| `AnomalyDashboard.RecommendFor` | dashboards/app.py:60-65 | on a 0/1 column the verdict is SAFE-DEGRADED iff more than 200 rows are flagged and within range iff at most 50 are. A table of at most 50 rows is always within range, and one of at most 200 rows never degrades. |
| `AnomalyDashboard.FlaggingMoreNeverRelaxes` | dashboards/app.py:60-65 | flagging one more row raises the count by exactly one and never makes the verdict milder |
| `DemoReplay.DemoFilePassesSchema` | scripts/generate_demo_data.py:47-52 | the four column names the generator writes are exactly the dashboard's required columns, so the file passes the schema check (column names only) |
| `DemoReplay.DemoDecisionsAreKnown` | scripts/generate_demo_data.py:24-40 | every generated decision is Normal, Warning or Critical |
| `DemoReplay.DemoTimelineIsAlreadyOrdered` | app/streamlit_app.py:170 | ordering a generated table by timestamp leaves it unchanged |
| `DemoReplay.DemoCountsPartition` | app/streamlit_app.py:202-204 | on generated data the three metrics add up to the number of draws |
| `DemoReplay.DemoCalmStreakMirrorsWarningStreak` | app/streamlit_app.py:264-270 | on generated data a row's calm streak is 0 exactly when its warning streak is not 0 |
| `DemoReplay.DemoWarningRowsHaveShortStreaks` | app/streamlit_app.py:243-250 | every Warning row the dashboard plots from generated data has warning streak 1 or 2 |
| `DemoReplay.IndexInTable` | app/streamlit_app.py:243 | every selected row is a row of the table |

## Left out

- The pseudo-random source (`np.random.seed`, `np.random.rand`, seed 42). The draws are an input sequence. The model therefore does not pin down which 250 rows seed 42 produces. It only shows that the output is a function of the draws.
- CSV reading and writing, the demo-file existence check, the output path and the printed row count. These are I/O.
- Datetime parsing in `load_csv` and its error stop. Timestamps are integers of seconds, and `DemoStartTime` is 2025-01-01 08:00:00 as a Unix time.
- The Streamlit page: page setup, sidebar, mode radio, uploads, schema help text, `st.error`/`st.info`/`st.stop` rendering, metrics layout, markdown, the caching decorator and `value_counts` display. The one control-flow effect kept is that a failed schema check stops the replay (`ReplayDashboard` returns `None`).
- Plotting with matplotlib and seaborn, including `COLOR_MAP`. Only the decision axis's tick labels are modelled, as the inverse of `DECISION_MAP`.
- The anomaly flag columns themselves. They are precomputed in a file that is not part of this model. The sidebar's choice among the six signal columns (dashboards/app.py:12-22) is a UI selection. The model works on the values of whichever column is chosen.
- The text of the three recommendation messages. The verdict is a three-valued datatype.
- The `warning_streak` and `risk_level` values of an uploaded table are not checked by the dashboard, so the model does not relate them to the decisions. The relation is proved only for generated data.
- `AnomalyCount`: missing values (NaN) in a flag column are not modelled. The count is stated for 0/1 columns.
