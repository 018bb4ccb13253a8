/** Head-to-head aggregation: the tally of past matches between two teams,
    the predicted winner, the over-goals and double-chance flags and the
    recommended "best bet" derived from the tally. */
module HeadToHead {
  import opened MatchData

  // ---------------------------------------------------------------------
  // Reading one match
  // ---------------------------------------------------------------------

  predicate IsDraw(m: MatchRecord) { HomeGoals(m) == AwayGoals(m) }

  /** The name on the side that scored more (meaningful for a decisive match). */
  function WinnerName(m: MatchRecord): string {
    if HomeGoals(m) > AwayGoals(m) then HomeName(m) else AwayName(m)
  }

  predicate WonBy(m: MatchRecord, name: string) { !IsDraw(m) && WinnerName(m) == name }

  /** A match is attributed when it is a draw or its winner carries one of the
      two names under comparison; other wins are dropped from both counters. */
  predicate Attributed(m: MatchRecord, team1: string, team2: string) {
    IsDraw(m) || WinnerName(m) == team1 || WinnerName(m) == team2
  }

  // ---------------------------------------------------------------------
  // The tally
  // ---------------------------------------------------------------------

  /** The six counters of the aggregation loop. */
  datatype Tally = Tally(
    team1Wins: nat,
    team2Wins: nat,
    draws: nat,
    over15: nat,
    over25: nat,
    total: nat)

  /** What one match adds to the counters. A win goes to `team1` when the
      winner carries that name, otherwise to `team2` when it carries that one. */
  function Step(t: Tally, m: MatchRecord, team1: string, team2: string): (r: Tally)
    ensures r.total == t.total + 1
    ensures r.team1Wins + r.team2Wins + r.draws
            == t.team1Wins + t.team2Wins + t.draws + (if Attributed(m, team1, team2) then 1 else 0)
    ensures Over25(m) ==> Over15(m)
  {
    Tally(
      t.team1Wins + (if WonBy(m, team1) then 1 else 0),
      t.team2Wins + (if WonBy(m, team2) && !WonBy(m, team1) then 1 else 0),
      t.draws + (if IsDraw(m) then 1 else 0),
      t.over15 + (if Over15(m) then 1 else 0),
      t.over25 + (if Over25(m) then 1 else 0),
      t.total + 1)
  }

  /** The counters after a left-to-right pass over `ms`: one increment of
      the total per match, and every match over 2.5 goals also over 1.5. */
  function TallyOf(ms: seq<MatchRecord>, team1: string, team2: string): (r: Tally)
    ensures r.total == |ms|
    ensures r.over25 <= r.over15 <= r.total
    decreases |ms|
  {
    if ms == [] then Tally(0, 0, 0, 0, 0, 0)
    else Step(TallyOf(ms[..|ms| - 1], team1, team2), ms[|ms| - 1], team1, team2)
  }

  function SwapWins(t: Tally): Tally {
    t.(team1Wins := t.team2Wins, team2Wins := t.team1Wins)
  }

  // ---------------------------------------------------------------------
  // Derived labels
  // ---------------------------------------------------------------------

  datatype Prediction = PredictDraw | PredictTeam(name: string)

  /** The predicted winner: a draw when draws outnumber both win counts,
      otherwise the team with strictly more wins, and a draw on equal wins. */
  function PredictedWinner(t: Tally, team1: string, team2: string): (p: Prediction)
    ensures p == PredictDraw <==>
              t.team1Wins == t.team2Wins || (t.draws > t.team1Wins && t.draws > t.team2Wins)
    ensures t.team1Wins > t.team2Wins && t.team1Wins >= t.draws ==> p == PredictTeam(team1)
    ensures t.team2Wins > t.team1Wins && t.team2Wins >= t.draws ==> p == PredictTeam(team2)
    ensures p.PredictTeam? ==>
              (p.name == team1 && t.team1Wins > t.team2Wins && t.team1Wins >= t.draws) ||
              (p.name == team2 && t.team2Wins > t.team1Wins && t.team2Wins >= t.draws)
  {
    if t.draws > t.team1Wins && t.draws > t.team2Wins then PredictDraw
    else if t.team1Wins > t.team2Wins then PredictTeam(team1)
    else if t.team2Wins > t.team1Wins then PredictTeam(team2)
    else PredictDraw
  }

  /** The recommended bet, one variant per label the analyser can print. */
  datatype Bet =
    | BetDraw
    | BetTeamWin(team: string)
    | BetOver25
    | BetOver15
    | BetWinOrDraw1X(team: string)
    | BetWinOrDraw2X(team: string)
    | NoSafestBet
    | NoHeadToHeadData

  /** count/total > 0.7, stated exactly over the integers. */
  predicate Above70(count: nat, total: nat) { 10 * count > 7 * total }

  /** The best-bet chain: the first rate above 70% in a fixed order. */
  function BestBet(t: Tally, home1X: bool, away2X: bool, team1: string, team2: string): (r: Bet)
    ensures r == NoHeadToHeadData <==> t.total == 0
    ensures t.total > 0 && Above70(t.draws, t.total) ==> r == BetDraw
    ensures r.BetWinOrDraw1X? ==> home1X && r.team == team1
    ensures r.BetWinOrDraw2X? ==> away2X && r.team == team2
    ensures r == NoSafestBet ==>
              && !Above70(t.draws, t.total) && !Above70(t.team1Wins, t.total)
              && !Above70(t.team2Wins, t.total) && !Above70(t.over25, t.total)
              && !Above70(t.over15, t.total)
  {
    if t.total > 0 then
      if Above70(t.draws, t.total) then BetDraw
      else if Above70(t.team1Wins, t.total) then BetTeamWin(team1)
      else if Above70(t.team2Wins, t.total) then BetTeamWin(team2)
      else if Above70(t.over25, t.total) then BetOver25
      else if Above70(t.over15, t.total) then BetOver15
      else if home1X && Above70(t.team1Wins + t.draws, t.total) then BetWinOrDraw1X(team1)
      else if away2X && Above70(t.team2Wins + t.draws, t.total) then BetWinOrDraw2X(team2)
      else NoSafestBet
    else NoHeadToHeadData
  }

  /** The analysis result handed back to the caller. */
  datatype Summary = Summary(
    team1: string,
    team2: string,
    predictedWinner: Prediction,
    likelyOver15: bool,
    likelyOver25: bool,
    home1X: bool,
    away2X: bool,
    totalMatches: nat,
    draws: nat,
    bestBet: Bet)

  /** Everything derived from the final counters. The best bet is computed
      here, last, from the final tallies and the 1X/2X flags: this is a
      deliberate reordering, since the analyser as written evaluates the
      best-bet chain before any counter has been assigned (see
      AnalyzeAsWritten below). */
  function Summarize(t: Tally, team1: string, team2: string): (s: Summary)
    ensures s.team1 == team1 && s.team2 == team2
    ensures s.totalMatches == t.total && s.draws == t.draws
    ensures s.bestBet == BestBet(t, s.home1X, s.away2X, team1, team2)
    ensures t.total > 0 ==> s.bestBet != NoHeadToHeadData
    ensures s.bestBet.BetWinOrDraw1X? ==> t.team1Wins + t.draws > t.team2Wins
    ensures s.bestBet.BetWinOrDraw2X? ==> t.team2Wins + t.draws > t.team1Wins
    ensures t.over25 <= t.over15 && s.likelyOver25 ==> s.likelyOver15
  {
    var home1X := t.team1Wins + t.draws > t.team2Wins;
    var away2X := t.team2Wins + t.draws > t.team1Wins;
    Summary(
      team1, team2,
      PredictedWinner(t, team1, team2),
      2 * t.over15 >= t.total,
      2 * t.over25 >= t.total,
      home1X, away2X,
      t.total, t.draws,
      BestBet(t, home1X, away2X, team1, team2))
  }

  /** The analysis of a match list: no result for an empty list. */
  function Analysis(ms: seq<MatchRecord>, team1: string, team2: string): (r: Option<Summary>)
    ensures r.None? <==> ms == []
    ensures r.Some? ==> r.value.team1 == team1 && r.value.team2 == team2
    ensures r.Some? ==> r.value.totalMatches == |ms| && r.value.bestBet != NoHeadToHeadData
  {
    if ms == [] then None else Some(Summarize(TallyOf(ms, team1, team2), team1, team2))
  }

  // ---------------------------------------------------------------------
  // The analyser
  // ---------------------------------------------------------------------

  /** Tallies the matches in one pass, then derives the labels. The best bet
      is derived after the loop, from the final counters (reordered with
      respect to the source, which reads the counters before assigning them). */
  method AnalyzeH2HResults(matches: seq<MatchRecord>, team1: string, team2: string)
    returns (r: Option<Summary>)
    ensures r == Analysis(matches, team1, team2)
    ensures r.None? <==> matches == []
    ensures r.Some? ==> r.value.team1 == team1 && r.value.team2 == team2
    ensures r.Some? ==> r.value.totalMatches == |matches|
  {
    if matches == [] {
      return None;
    }
    var team1Wins, team2Wins, draws := 0, 0, 0;
    var over15Count, over25Count, totalMatches := 0, 0, 0;
    for i := 0 to |matches|
      invariant Tally(team1Wins, team2Wins, draws, over15Count, over25Count, totalMatches)
                == TallyOf(matches[..i], team1, team2)
      invariant totalMatches == i
    {
      var m := matches[i];
      var goalsHome, goalsAway := HomeGoals(m), AwayGoals(m);
      var totalGoals := goalsHome + goalsAway;
      if 2 * totalGoals > 3 {
        over15Count := over15Count + 1;
      }
      if 2 * totalGoals > 5 {
        over25Count := over25Count + 1;
      }
      totalMatches := totalMatches + 1;

      var homeName, awayName := HomeName(m), AwayName(m);
      if goalsHome > goalsAway {
        if homeName == team1 {
          team1Wins := team1Wins + 1;
        } else if homeName == team2 {
          team2Wins := team2Wins + 1;
        }
      } else if goalsAway > goalsHome {
        if awayName == team1 {
          team1Wins := team1Wins + 1;
        } else if awayName == team2 {
          team2Wins := team2Wins + 1;
        }
      } else {
        draws := draws + 1;
      }
      assert matches[..i + 1][..i] == matches[..i];
    }
    assert matches[..|matches|] == matches;
    var tally := Tally(team1Wins, team2Wins, draws, over15Count, over25Count, totalMatches);
    r := Some(Summarize(tally, team1, team2));
  }

  // ---------------------------------------------------------------------
  // Properties of the tally
  // ---------------------------------------------------------------------

  /** Each counter counts the matches of one kind, independently of order. */
  lemma {:induction false} TallyCounts(ms: seq<MatchRecord>, team1: string, team2: string)
    ensures var t := TallyOf(ms, team1, team2);
            && t.over15 == CountWhere(ms, Over15)
            && t.over25 == CountWhere(ms, Over25)
            && t.draws == CountWhere(ms, IsDraw)
            && t.team1Wins == CountWhere(ms, m => WonBy(m, team1))
            && t.team2Wins == CountWhere(ms, m => WonBy(m, team2) && !WonBy(m, team1))
  {
    if ms != [] {
      var front, last := ms[..|ms| - 1], ms[|ms| - 1];
      assert ms == front + [last];
      TallyCounts(front, team1, team2);
      CountWhereSnoc(front, last, Over15);
      CountWhereSnoc(front, last, Over25);
      CountWhereSnoc(front, last, IsDraw);
      CountWhereSnoc(front, last, m => WonBy(m, team1));
      CountWhereSnoc(front, last, m => WonBy(m, team2) && !WonBy(m, team1));
    }
  }

  /** Wins and draws never exceed the match count, and they add up to it
      exactly when every decisive match is won by a side named `team1` or
      `team2`. */
  lemma {:induction false} TallyOutcomes(ms: seq<MatchRecord>, team1: string, team2: string)
    ensures var t := TallyOf(ms, team1, team2);
            t.team1Wins + t.team2Wins + t.draws <= t.total
    ensures var t := TallyOf(ms, team1, team2);
            t.team1Wins + t.team2Wins + t.draws == t.total <==>
              forall i :: 0 <= i < |ms| ==> Attributed(ms[i], team1, team2)
  {
    if ms != [] {
      var front, last := ms[..|ms| - 1], ms[|ms| - 1];
      TallyOutcomes(front, team1, team2);
      assert forall i :: 0 <= i < |front| ==> front[i] == ms[i];
      if forall i :: 0 <= i < |ms| ==> Attributed(ms[i], team1, team2) {
        assert forall i :: 0 <= i < |front| ==> Attributed(front[i], team1, team2);
      }
    }
  }

  /** Exchanging the two names exchanges the two win counters and leaves
      the others alone (for two distinct names). */
  lemma {:induction false} TallySwap(ms: seq<MatchRecord>, team1: string, team2: string)
    requires team1 != team2
    ensures TallyOf(ms, team2, team1) == SwapWins(TallyOf(ms, team1, team2))
  {
    if ms != [] {
      TallySwap(ms[..|ms| - 1], team1, team2);
    }
  }

  /** With one name used for both teams every attributed win is credited to
      the first, so the swap above needs distinct names. */
  lemma SwapNeedsDistinctNames()
    ensures var ms := [MatchRecord(Some("A"), Some("B"), Some(1), Some(0))];
            TallyOf(ms, "A", "A") != SwapWins(TallyOf(ms, "A", "A"))
  {
  }

  // ---------------------------------------------------------------------
  // Properties of the derived labels
  // ---------------------------------------------------------------------

  /** The summary's counts and flags measured against the match list itself. */
  lemma SummaryMeasures(ms: seq<MatchRecord>, team1: string, team2: string)
    requires ms != []
    ensures var s := Analysis(ms, team1, team2).value;
            && s.team1 == team1 && s.team2 == team2
            && s.totalMatches == |ms|
            && s.draws == CountWhere(ms, IsDraw)
            && (s.likelyOver15 <==> 2 * CountWhere(ms, Over15) >= |ms|)
            && (s.likelyOver25 <==> 2 * CountWhere(ms, Over25) >= |ms|)
            && (s.likelyOver25 ==> s.likelyOver15)
  {
    TallyCounts(ms, team1, team2);
  }

  /** 1X and 2X both fail only when there are no draws and the win counts
      are equal. */
  lemma DoubleChanceFlags(ms: seq<MatchRecord>, team1: string, team2: string)
    requires ms != []
    ensures var s := Analysis(ms, team1, team2).value;
            var t := TallyOf(ms, team1, team2);
            && (s.home1X <==> t.team1Wins + t.draws > t.team2Wins)
            && (s.away2X <==> t.team2Wins + t.draws > t.team1Wins)
            && (!s.home1X && !s.away2X <==> t.draws == 0 && t.team1Wins == t.team2Wins)
  {
  }

  /** A rule of the best-bet chain. */
  datatype Rule = DrawRule | Team1Rule | Team2Rule | Over25Rule | Over15Rule | Home1XRule | Away2XRule

  /** The order in which the rules are tried. */
  const Precedence: seq<Rule> :=
    [DrawRule, Team1Rule, Team2Rule, Over25Rule, Over15Rule, Home1XRule, Away2XRule]

  /** Whether a single rule fires, each stated on its own. */
  predicate Holds(rule: Rule, t: Tally, home1X: bool, away2X: bool) {
    match rule
    case DrawRule => Above70(t.draws, t.total)
    case Team1Rule => Above70(t.team1Wins, t.total)
    case Team2Rule => Above70(t.team2Wins, t.total)
    case Over25Rule => Above70(t.over25, t.total)
    case Over15Rule => Above70(t.over15, t.total)
    case Home1XRule => home1X && Above70(t.team1Wins + t.draws, t.total)
    case Away2XRule => away2X && Above70(t.team2Wins + t.draws, t.total)
  }

  function BetOf(rule: Rule, team1: string, team2: string): Bet {
    match rule
    case DrawRule => BetDraw
    case Team1Rule => BetTeamWin(team1)
    case Team2Rule => BetTeamWin(team2)
    case Over25Rule => BetOver25
    case Over15Rule => BetOver15
    case Home1XRule => BetWinOrDraw1X(team1)
    case Away2XRule => BetWinOrDraw2X(team2)
  }

  /** Reference definition: the bet of the first rule in `rules` that fires. */
  function FirstFiring(rules: seq<Rule>, t: Tally, home1X: bool, away2X: bool, team1: string, team2: string): Bet {
    if rules == [] then NoSafestBet
    else if Holds(rules[0], t, home1X, away2X) then BetOf(rules[0], team1, team2)
    else FirstFiring(rules[1..], t, home1X, away2X, team1, team2)
  }

  /** The first firing rule decides, whatever fires after it. */
  lemma {:induction false} FirstFiringPicksFirst(rules: seq<Rule>, k: nat, t: Tally, home1X: bool, away2X: bool, team1: string, team2: string)
    requires k < |rules| && Holds(rules[k], t, home1X, away2X)
    requires forall j :: 0 <= j < k ==> !Holds(rules[j], t, home1X, away2X)
    ensures FirstFiring(rules, t, home1X, away2X, team1, team2) == BetOf(rules[k], team1, team2)
  {
    if k > 0 {
      assert !Holds(rules[0], t, home1X, away2X);
      FirstFiringPicksFirst(rules[1..], k - 1, t, home1X, away2X, team1, team2);
    }
  }

  /** When no rule fires the chain ends in "no safest bet". */
  lemma {:induction false} FirstFiringNone(rules: seq<Rule>, t: Tally, home1X: bool, away2X: bool, team1: string, team2: string)
    requires forall j :: 0 <= j < |rules| ==> !Holds(rules[j], t, home1X, away2X)
    ensures FirstFiring(rules, t, home1X, away2X, team1, team2) == NoSafestBet
  {
    if rules != [] {
      assert !Holds(rules[0], t, home1X, away2X);
      FirstFiringNone(rules[1..], t, home1X, away2X, team1, team2);
    }
  }

  /** For a non-empty tally the chain is the first-firing rule in the fixed
      order: a later rule is chosen only when every earlier one fails, and
      "no safest bet" only when all seven fail. */
  lemma BestBetPrecedence(t: Tally, home1X: bool, away2X: bool, team1: string, team2: string)
    requires t.total > 0
    ensures BestBet(t, home1X, away2X, team1, team2) == FirstFiring(Precedence, t, home1X, away2X, team1, team2)
    ensures forall k :: 0 <= k < |Precedence| && Holds(Precedence[k], t, home1X, away2X) &&
                        (forall j :: 0 <= j < k ==> !Holds(Precedence[j], t, home1X, away2X)) ==>
              BestBet(t, home1X, away2X, team1, team2) == BetOf(Precedence[k], team1, team2)
    ensures (forall j :: 0 <= j < |Precedence| ==> !Holds(Precedence[j], t, home1X, away2X)) ==>
              BestBet(t, home1X, away2X, team1, team2) == NoSafestBet
  {
    var rs := Precedence;
    var r1, r2, r3 := rs[1..], rs[2..], rs[3..];
    var r4, r5, r6, r7 := rs[4..], rs[5..], rs[6..], rs[7..];
    assert r1 == rs[1..] && r2 == r1[1..] && r3 == r2[1..] && r4 == r3[1..];
    assert r5 == r4[1..] && r6 == r5[1..] && r7 == r6[1..] && r7 == [];
    assert r6[0] == Away2XRule && r5[0] == Home1XRule && r4[0] == Over15Rule;
    assert r3[0] == Over25Rule && r2[0] == Team2Rule && r1[0] == Team1Rule && rs[0] == DrawRule;
    var b7 := FirstFiring(r7, t, home1X, away2X, team1, team2);
    var b6 := FirstFiring(r6, t, home1X, away2X, team1, team2);
    var b5 := FirstFiring(r5, t, home1X, away2X, team1, team2);
    var b4 := FirstFiring(r4, t, home1X, away2X, team1, team2);
    var b3 := FirstFiring(r3, t, home1X, away2X, team1, team2);
    var b2 := FirstFiring(r2, t, home1X, away2X, team1, team2);
    var b1 := FirstFiring(r1, t, home1X, away2X, team1, team2);
    assert b7 == NoSafestBet;
    assert b6 == if Holds(Away2XRule, t, home1X, away2X) then BetWinOrDraw2X(team2) else b7;
    assert b5 == if Holds(Home1XRule, t, home1X, away2X) then BetWinOrDraw1X(team1) else b6;
    assert b4 == if Holds(Over15Rule, t, home1X, away2X) then BetOver15 else b5;
    assert b3 == if Holds(Over25Rule, t, home1X, away2X) then BetOver25 else b4;
    assert b2 == if Holds(Team2Rule, t, home1X, away2X) then BetTeamWin(team2) else b3;
    assert b1 == if Holds(Team1Rule, t, home1X, away2X) then BetTeamWin(team1) else b2;
    assert FirstFiring(rs, t, home1X, away2X, team1, team2)
        == if Holds(DrawRule, t, home1X, away2X) then BetDraw else b1;
    forall k | 0 <= k < |rs| && Holds(rs[k], t, home1X, away2X) &&
               (forall j :: 0 <= j < k ==> !Holds(rs[j], t, home1X, away2X))
      ensures BestBet(t, home1X, away2X, team1, team2) == BetOf(rs[k], team1, team2)
    {
      FirstFiringPicksFirst(rs, k, t, home1X, away2X, team1, team2);
    }
    if forall j :: 0 <= j < |rs| ==> !Holds(rs[j], t, home1X, away2X) {
      FirstFiringNone(rs, t, home1X, away2X, team1, team2);
    }
  }

  /** A non-empty match list never yields the "no head-to-head data" label. */
  lemma BestBetHasData(ms: seq<MatchRecord>, team1: string, team2: string)
    requires ms != []
    ensures Analysis(ms, team1, team2).value.bestBet != NoHeadToHeadData
  {
  }

  /** The best bet never contradicts the predicted winner: a draw bet comes
      with a predicted draw, a team-1 win bet with team 1 as predicted winner. */
  lemma BestBetAgreesWithPrediction(ms: seq<MatchRecord>, team1: string, team2: string)
    requires ms != []
    ensures var s := Analysis(ms, team1, team2).value;
            && (s.bestBet == BetDraw ==> s.predictedWinner == PredictDraw)
            && (Above70(TallyOf(ms, team1, team2).team1Wins, |ms|) ==>
                  s.bestBet == BetTeamWin(team1) && s.predictedWinner == PredictTeam(team1))
  {
    TallyOutcomes(ms, team1, team2);
  }

  /** In rules 6 and 7 the 1X / 2X flag is implied by the rate test beside it. */
  lemma DoubleChanceGuardImplied(ms: seq<MatchRecord>, team1: string, team2: string)
    ensures var t := TallyOf(ms, team1, team2);
            && (Above70(t.team1Wins + t.draws, t.total) ==> t.team1Wins + t.draws > t.team2Wins)
            && (Above70(t.team2Wins + t.draws, t.total) ==> t.team2Wins + t.draws > t.team1Wins)
  {
    TallyOutcomes(ms, team1, team2);
  }

  /** Rates are compared exactly: 13 team-1 wins and 1 draw in 20 matches
      is a combined rate of exactly 70%, which is not above 70%, so the 1X
      rule does not fire and no rule does. */
  lemma ExactRateBoundary()
    ensures !Above70(13 + 1, 20)
    ensures BestBet(Tally(13, 6, 1, 14, 0, 20), true, false, "A", "B") == NoSafestBet
  {
  }

  // ---------------------------------------------------------------------
  // The analyser as written
  // ---------------------------------------------------------------------

  datatype Outcome = Returned(result: Option<Summary>) | UnboundLocalError(variable: string)

  /** The analyser in its written statement order: its first reads
      `total_matches`, a local assigned only further down, before anything
      else runs, so every call raises. */
  function AnalyzeAsWritten(ms: seq<MatchRecord>, team1: string, team2: string): (o: Outcome)
    ensures o.UnboundLocalError?
  {
    UnboundLocalError("total_matches")
  }

  /** The three-match example: the corrected analyser returns a summary with
      a predicted draw and "over 1.5 goals" as best bet, where the code as
      written raises. */
  lemma ReorderingExample()
    ensures var ms := [MatchRecord(Some("A"), Some("B"), Some(2), Some(1)),
                       MatchRecord(Some("A"), Some("B"), Some(1), Some(1)),
                       MatchRecord(Some("A"), Some("B"), Some(0), Some(3))];
            && AnalyzeAsWritten(ms, "A", "B").UnboundLocalError?
            && TallyOf(ms, "A", "B") == Tally(1, 1, 1, 3, 2, 3)
            && Analysis(ms, "A", "B").Some?
            && Analysis(ms, "A", "B").value.totalMatches == 3
            && Analysis(ms, "A", "B").value.draws == 1
            && Analysis(ms, "A", "B").value.likelyOver15
            && Analysis(ms, "A", "B").value.likelyOver25
            && Analysis(ms, "A", "B").value.predictedWinner == PredictDraw
            && Analysis(ms, "A", "B").value.bestBet == BetOver15
  {
    var ms := [MatchRecord(Some("A"), Some("B"), Some(2), Some(1)),
               MatchRecord(Some("A"), Some("B"), Some(1), Some(1)),
               MatchRecord(Some("A"), Some("B"), Some(0), Some(3))];
    assert ms[..2][..1][..0] == [];
    assert ms[..2][..1] == [ms[0]];
    assert ms[..2] == [ms[0], ms[1]];
    assert [ms[0]][..0] == [];
    assert HomeGoals(ms[0]) == 2 && AwayGoals(ms[0]) == 1 && HomeName(ms[0]) == "A";
    assert WonBy(ms[0], "A") && Over25(ms[0]) && Over15(ms[0]);
    assert TallyOf([ms[0]], "A", "B") == Tally(1, 0, 0, 1, 1, 1);
    assert TallyOf(ms[..2], "A", "B") == Tally(1, 0, 1, 2, 1, 2);
    assert TallyOf(ms, "A", "B") == Tally(1, 1, 1, 3, 2, 3);
  }
}
