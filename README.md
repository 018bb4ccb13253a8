# Head-to-head match analysis, modelled in Dafny

The analyser reads the past meetings of two football teams and reduces them
to a handful of counters:
- team-1 wins, team-2 wins and draws;
- matches over 1.5 goals and matches over 2.5 goals;
- the number of matches.

From those counters it derives:
- a predicted winner;
- the "likely over 1.5 / 2.5 goals" flags;
- the 1X and 2X double-chance flags;
- one recommended "best bet", picked by a fixed precedence chain of 70% thresholds.

A second, smaller version of the program runs a plainer daily screen. For
each of today's fixtures it checks whether every past meeting had more than
1.5 goals, and it keeps the fixtures that pass. A third routine counts a
team's recent form: wins, draws, losses, goals for and goals against.

Modules:
- `MatchData` (`match_data.dfy`) is the match record. A field the data source left out is `None`. Missing goals read as 0 and missing names as `""`, as the source's `.get(..., default)` calls do. "Over 1.5 goals" is stated exactly as `2 * goals > 3`.
- `HeadToHead` (`head_to_head.dfy`) models `analyze_h2h_results` of `soccer_head_to_head_analyser/head_to_head_analyzer.py`:
  - The tally loop is a method whose invariant ties the six counters to the left fold `TallyOf`.
  - The labels are functions of the final tally.
  - Lemmas relate the tally to independent counts over the match list, and the best-bet chain to a reference "first firing rule" over an explicit precedence list.
- `TeamForm` (`team_form.dfy`) models the counting loop of `fetch_team_form` in the same file, against the left fold `FormOf` and reference sums.
- `AllOver` (`all_over.dfy`) models `analyze_h2h_results` and the filter in `automate_daily_h2h_analysis` of `head_to_head_analyzer.py`:
  - the early-exit loop is proved equal to a full scan;
  - the daily loop is proved equal to the selection function `Selected`.

Rates are never divided. `c/n > 0.7` is `10*c > 7*n` and `c/n >= 0.5` is
`2*c >= n`. The best-bet labels and the predicted winner are datatype
variants that carry the team name, not formatted text. What the network
returned (today's fixtures, each pair's head-to-head list, a team's recent
matches) enters the model as parameters.

The best-bet block in `soccer_head_to_head_analyser/head_to_head_analyzer.py`
stands at the top of the function (lines 122-147), before the counters it
reads are assigned. As written, every call therefore fails. The model
computes the best bet last, from the final counters and the 1X/2X flags
(`HeadToHead.Summarize`). The as-written behaviour is modelled separately
(`HeadToHead.AnalyzeAsWritten`); see "## Findings".

## Model

| member | source | states |
|---|---|---|
| `HeadToHead.AnalyzeH2HResults` | soccer_head_to_head_analyser/head_to_head_analyzer.py:148-212 | An empty list gives no result. Otherwise the summary is the labels of the tally of the whole list, with both team names returned unchanged and the total equal to the list length. The loop keeps the six counters equal to the tally of the prefix seen so far. |
| `HeadToHead.Step` | soccer_head_to_head_analyser/head_to_head_analyzer.py:159-183 | One match adds one to the total. It adds one to team1 wins + team2 wins + draws exactly when the match is a draw or was won by a side named team1 or team2. A match over 2.5 goals is over 1.5. |
| `HeadToHead.TallyOf` | soccer_head_to_head_analyser/head_to_head_analyzer.py:152-183 | The counters after the loop: `total_matches` equals the number of matches (one increment per match), and over-2.5 count <= over-1.5 count <= total. Its other properties are in `TallyCounts`, `TallyOutcomes` and `TallySwap`. |
| `HeadToHead.TallyCounts` | soccer_head_to_head_analyser/head_to_head_analyzer.py:159-183 | Each counter equals an order-free count over the list: matches over 1.5, over 2.5, draws, wins by a side named team1, wins by a side named team2 but not team1. |
| `HeadToHead.TallyOutcomes` | soccer_head_to_head_analyser/head_to_head_analyzer.py:169-183 | team1 wins + team2 wins + draws <= total. Equality holds if and only if every decisive match was won by a side named team1 or team2; other wins are dropped. |
| `HeadToHead.TallySwap` | soccer_head_to_head_analyser/head_to_head_analyzer.py:172-183 | For distinct names, exchanging team1 and team2 exchanges the two win counters and leaves draws, over counts and total unchanged. |
| `HeadToHead.SwapNeedsDistinctNames` | soccer_head_to_head_analyser/head_to_head_analyzer.py:172-176 | With one name for both teams the first branch takes every win, so the swap property fails. |
| `HeadToHead.PredictedWinner` | soccer_head_to_head_analyser/head_to_head_analyzer.py:185-193 | A draw is predicted exactly when the wins are equal or draws exceed both win counts. A team with strictly more wins and at least as many wins as draws is predicted. A predicted team always has those two properties. |
| `HeadToHead.Summarize` | soccer_head_to_head_analyser/head_to_head_analyzer.py:185-211 | Returns both names, the total and the draws unchanged. The best bet is the chain applied to the final counters and the final 1X/2X flags (the reordering). A non-empty tally never gets the "no data" label. A 1X (2X) bet comes only with a true 1X (2X) comparison. Likely-over-2.5 implies likely-over-1.5 when the over counts are ordered. |
| `HeadToHead.Analysis` | soccer_head_to_head_analyser/head_to_head_analyzer.py:148-212 | No result exactly for an empty list. Otherwise a summary with both names unchanged, the list length as total and a best bet other than "no data". Its measures against the list are in `SummaryMeasures`. |
| `HeadToHead.SummaryMeasures` | soccer_head_to_head_analyser/head_to_head_analyzer.py:195-211 | Against the list itself: the summary carries both names, the length and the draw count. Likely-over-1.5 (2.5) holds iff at least half the matches are over 1.5 (2.5). Likely-over-2.5 implies likely-over-1.5. |
| `HeadToHead.DoubleChanceFlags` | soccer_head_to_head_analyser/head_to_head_analyzer.py:197-198 | 1X iff team1 wins + draws > team2 wins; 2X iff team2 wins + draws > team1 wins. Both are false iff there are no draws and the win counts are equal. |
| `HeadToHead.BestBet` | soccer_head_to_head_analyser/head_to_head_analyzer.py:123-147 | "No head-to-head data" exactly when the total is 0. A draw rate above 70% always gives the draw bet. A 1X (2X) bet needs its flag and names team1 (team2). "No safest bet" means none of the five single-rate tests passed. The full precedence is in `BestBetPrecedence`. |
| `HeadToHead.ExactRateBoundary` | soccer_head_to_head_analyser/head_to_head_analyzer.py:140-145 | Rates are exact: 13 team-1 wins and 1 draw in 20 matches is a combined rate of exactly 70%, not above it, so that tally gets "no safest bet". |
| `HeadToHead.BestBetPrecedence` | soccer_head_to_head_analyser/head_to_head_analyzer.py:123-145 | For a non-empty tally the best bet equals the first firing rule of the fixed order: draw, team1 win, team2 win, over 2.5, over 1.5, 1X, 2X. A rule is chosen only when it fires and every earlier rule fails. "No safest bet" comes only when all seven fail. |
| `HeadToHead.FirstFiringPicksFirst` | soccer_head_to_head_analyser/head_to_head_analyzer.py:130-143 | In any ordered rule list, the first rule that fires decides the bet, whatever fires after it. |
| `HeadToHead.FirstFiringNone` | soccer_head_to_head_analyser/head_to_head_analyzer.py:144-145 | When no rule in the list fires, the result is "no safest bet". |
| `HeadToHead.BestBetHasData` | soccer_head_to_head_analyser/head_to_head_analyzer.py:146-150 | A non-empty list never gets the "no head-to-head data" label, so that branch is dead. |
| `HeadToHead.BestBetAgreesWithPrediction` | soccer_head_to_head_analyser/head_to_head_analyzer.py:130-133 | A draw bet comes with a predicted draw. A team-1 win rate above 70% gives both the team-1 bet and team 1 as predicted winner. |
| `HeadToHead.DoubleChanceGuardImplied` | soccer_head_to_head_analyser/head_to_head_analyzer.py:140-143 | In rules 6 and 7 the 1X / 2X flag is implied by the 70% combined-rate test beside it. |
| `HeadToHead.AnalyzeAsWritten` | soccer_head_to_head_analyser/head_to_head_analyzer.py:120-128 | In the written statement order, every call fails reading `total_matches` before it is assigned. |
| `HeadToHead.ReorderingExample` | soccer_head_to_head_analyser/head_to_head_analyzer.py:120-212 | Three matches A–B: 2-1, 1-1, 0-3. The code as written fails. The corrected analyser's counters are (1, 1, 1, 3, 2, 3): team1 wins, team2 wins, draws, over 1.5, over 2.5, total. The summary has total 3, draws 1, both likely-over flags true, a predicted draw and "over 1.5 goals" as best bet. |
| `MatchData.CountWhere` | soccer_head_to_head_analyser/head_to_head_analyzer.py:159-183 | Reference count of the matches that pass a test, taken from the front and independent of the loop; never more than the number of matches. |
| `MatchData.CountWhereSnoc` | soccer_head_to_head_analyser/head_to_head_analyzer.py:159-183 | Counting a list with one more match at the end adds one exactly when that match qualifies. |
| `TeamForm.FetchTeamForm` | soccer_head_to_head_analyser/head_to_head_analyzer.py:10-29 | The five counters equal the fold of the match list from the team's side, and wins + draws + losses is the number of matches. |
| `TeamForm.FormStep` | soccer_head_to_head_analyser/head_to_head_analyzer.py:12-22 | One match adds exactly one to wins + draws + losses, and adds its total goals to goals for + goals against. |
| `TeamForm.FormOf` | soccer_head_to_head_analyser/head_to_head_analyzer.py:10-22 | The counters after the loop. Every match is exactly one of a win, a draw or a loss, so wins + draws + losses is the number of matches. Its other properties are in `FormResultCounts`, `FormGoalSums` and `FormGoalBalance`. |
| `TeamForm.FormResultCounts` | soccer_head_to_head_analyser/head_to_head_analyzer.py:17-22 | Wins, draws and losses each equal an order-free count of the matches of that result from the team's side. |
| `TeamForm.FormGoalSums` | soccer_head_to_head_analyser/head_to_head_analyzer.py:12-16 | Goals for is the sum of the team's side and goals against the sum of the opponent's side. Together they are every goal scored. |
| `TeamForm.FormGoalBalance` | soccer_head_to_head_analyser/head_to_head_analyzer.py:12-22 | Scoring more than conceding implies at least one win. Conceding more implies at least one loss. |
| `TeamForm.SumOverSnoc` | soccer_head_to_head_analyser/head_to_head_analyzer.py:15-16 | Summing a list with one more match at the end adds that match's value. |
| `AllOver.AnalyzeH2HResults` | head_to_head_analyzer.py:53-69 | The flag is true iff every match has at least two goals, with missing goals read as 0. It is true for an empty list. It equals the full scan, so the early `break` does not change it. Both names are returned unchanged. |
| `AllOver.ScanAll` | head_to_head_analyzer.py:54-63 | The full scan without early exit holds iff every match is over 1.5 goals, missing goals read as 0. |
| `AllOver.AutomateDailyH2HAnalysis` | head_to_head_analyzer.py:71-84 | The results equal the selection of today's fixtures: a fixture is kept when its fetch succeeded and its flag is true, in fixture order. Every kept report has the flag set. |
| `AllOver.Selected` | head_to_head_analyzer.py:73-82 | The reports kept from the fixtures in order: at most one per fixture, and every kept report has the flag set. Membership and order are in `SelectedMembers` and `SelectedConcat`. |
| `AllOver.SelectedMembers` | head_to_head_analyzer.py:78-82 | A report is selected iff it is the report of some fixture whose fetch succeeded and whose matches all have more than 1.5 goals. |
| `AllOver.SelectedConcat` | head_to_head_analyzer.py:73-82 | Selecting from two fixture lists in turn is the concatenation of the two selections, so fixture order is kept. |
| `AllOver.SelectedLength` | head_to_head_analyzer.py:78-82 | Exactly one report per fixture when every fixture passes. |

## Left out

- HTTP requests and their status checks (`fetch_today_fixtures`, `fetch_h2h`, and lines 1-9 of `fetch_team_form` in `soccer_head_to_head_analyser/head_to_head_analyzer.py`) are network I/O. What they return is a parameter: `AllOver.Fixture.h2h` is `None` for a failed fetch.
- Loading API keys from `.env`, and the key-dependent branching in `get_teams_from_fixture` and `fetch_h2h`, are process configuration.
- `time.sleep`, every `print` and `save_results` are side effects with nothing to state.
- `automate_daily_h2h_analysis` of `soccer_head_to_head_analyser/head_to_head_analyzer.py` is left out. It is orchestration of fetches, printing and attaching the form dictionaries to each analysis; its computations are the analyser and the form count, both modelled.
- The exact label texts such as "(>70% h2h)" are left out; each label is a datatype variant.
- Floating-point rates are replaced by exact integer comparisons. For single rates the two agree. Rules 6 and 7 add two rounded quotients, and the model does not capture a sum whose rounding crosses 0.7 at the exact boundary. Example: 20 matches with 13 team-1 wins, 1 draw, 6 team-2 wins, 14 over 1.5 and none over 2.5. In doubles `13/20 + 1/20` is `0.7000000000000001`, so the source picks 1X; the model gives "no safest bet" (`HeadToHead.ExactRateBoundary`).
- Match records are taken to be well formed: every key that the source indexes directly is present, and every nested object is non-null. Otherwise the source raises:
  - in `fetch_team_form` (`soccer_head_to_head_analyser/head_to_head_analyzer.py:12-14`), `match["teams"]["home"]["id"]` and `match["goals"][...]` raise `KeyError` on a missing key (`TeamForm.FormMatch` has only mandatory fields);
  - in both analysers (`soccer_head_to_head_analyser/head_to_head_analyzer.py:160-161, 170-171`, `head_to_head_analyzer.py:56-57`), `match.get("goals", {}).get(...)` raises `AttributeError` when `"goals"` (or `"teams"`, or a team entry) is present but null. `MatchData.MatchRecord` represents only a missing key, read with the default.
- A goal count that is present but null is read as 0. In the first analyser `.get("home", 0)` would then return `None` and the addition would fail. In `fetch_team_form` the comparison on line 17 would fail (`TeamForm.FormMatch` goals are `nat`).
- Python truthiness of the fetched JSON (`if h2h_data:` on an empty object) and a response without a `"response"` key are not distinguished. The model receives the match list directly, and a successful fetch with no list is `Some([])`.
- `TeamForm.FetchTeamForm` returns the counters only. The `None` result for a failed request belongs to the HTTP part.

## Findings

| source | as written | input that shows it | evidently intended | confidence | as-written member | corrected member |
|---|---|---|---|---|---|---|
| soccer_head_to_head_analyser/head_to_head_analyzer.py:122-147 | The best-bet block comes first and reads `total_matches`, `draws`, `team1_wins`, `home_1x` and the rest before they are assigned (lines 152-198). Line 123 raises `UnboundLocalError` on every call. | Any call, e.g. matches A–B 2-1, 1-1, 0-3 with team1 = A, team2 = B | Compute the best bet after the tally loop and the flags, from the final counters | not executed | `HeadToHead.AnalyzeAsWritten` (with `HeadToHead.ReorderingExample`) | `HeadToHead.AnalyzeH2HResults` (with `HeadToHead.BestBetPrecedence`) |
