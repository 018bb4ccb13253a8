/** Recent form of one team: wins, draws and losses from its own side and
    the goals it scored and conceded, over a list of its recent matches. */
module TeamForm {

  /** A recent match: the identifier of the home team and the final score. */
  datatype FormMatch = FormMatch(homeId: int, homeGoals: nat, awayGoals: nat)

  datatype Form = Form(wins: nat, draws: nat, losses: nat, goalsFor: nat, goalsAgainst: nat)

  /** The team is taken to be at home when the home identifier is its own,
      and away otherwise. */
  function GoalsTeam(m: FormMatch, teamId: int): nat {
    if m.homeId == teamId then m.homeGoals else m.awayGoals
  }

  function GoalsOpp(m: FormMatch, teamId: int): nat {
    if m.homeId == teamId then m.awayGoals else m.homeGoals
  }

  function MatchGoals(m: FormMatch): nat { m.homeGoals + m.awayGoals }

  /** What one match adds to the five counters. */
  function FormStep(f: Form, m: FormMatch, teamId: int): (r: Form)
    ensures r.wins + r.draws + r.losses == f.wins + f.draws + f.losses + 1
    ensures r.goalsFor + r.goalsAgainst == f.goalsFor + f.goalsAgainst + MatchGoals(m)
  {
    var gt, go := GoalsTeam(m, teamId), GoalsOpp(m, teamId);
    Form(
      f.wins + (if gt > go then 1 else 0),
      f.draws + (if gt == go then 1 else 0),
      f.losses + (if gt < go then 1 else 0),
      f.goalsFor + gt,
      f.goalsAgainst + go)
  }

  /** The counters after a left-to-right pass over `ms`: every match is
      exactly one of a win, a draw or a loss. */
  function FormOf(ms: seq<FormMatch>, teamId: int): (r: Form)
    ensures r.wins + r.draws + r.losses == |ms|
    decreases |ms|
  {
    if ms == [] then Form(0, 0, 0, 0, 0)
    else FormStep(FormOf(ms[..|ms| - 1], teamId), ms[|ms| - 1], teamId)
  }

  /** Reference sum of `g` over the matches, taken from the front. */
  function SumOver(ms: seq<FormMatch>, g: FormMatch -> nat): nat {
    if ms == [] then 0 else g(ms[0]) + SumOver(ms[1..], g)
  }

  lemma {:induction false} SumOverSnoc(ms: seq<FormMatch>, m: FormMatch, g: FormMatch -> nat)
    ensures SumOver(ms + [m], g) == SumOver(ms, g) + g(m)
  {
    if ms == [] {
      assert (ms + [m])[1..] == [];
    } else {
      assert (ms + [m])[1..] == ms[1..] + [m];
      SumOverSnoc(ms[1..], m, g);
    }
  }

  /** Counts the team's results over its matches; the matches are what the
      fixtures endpoint returned. */
  method FetchTeamForm(teamId: int, matches: seq<FormMatch>) returns (form: Form)
    ensures form == FormOf(matches, teamId)
    ensures form.wins + form.draws + form.losses == |matches|
  {
    var wins: nat, draws: nat, losses: nat, goalsFor: nat, goalsAgainst: nat := 0, 0, 0, 0, 0;
    for i := 0 to |matches|
      invariant Form(wins, draws, losses, goalsFor, goalsAgainst) == FormOf(matches[..i], teamId)
    {
      var m := matches[i];
      var homeSide := m.homeId == teamId;
      var goalsTeam := if homeSide then m.homeGoals else m.awayGoals;
      var goalsOpp := if homeSide then m.awayGoals else m.homeGoals;
      goalsFor := goalsFor + goalsTeam;
      goalsAgainst := goalsAgainst + goalsOpp;
      if goalsTeam > goalsOpp {
        wins := wins + 1;
      } else if goalsTeam == goalsOpp {
        draws := draws + 1;
      } else {
        losses := losses + 1;
      }
      assert matches[..i + 1][..i] == matches[..i];
      assert Form(wins, draws, losses, goalsFor, goalsAgainst)
          == FormStep(FormOf(matches[..i], teamId), m, teamId);
    }
    assert matches[..|matches|] == matches;
    form := Form(wins, draws, losses, goalsFor, goalsAgainst);
  }

  function Won(m: FormMatch, teamId: int): nat { if GoalsTeam(m, teamId) > GoalsOpp(m, teamId) then 1 else 0 }

  function Drew(m: FormMatch, teamId: int): nat { if GoalsTeam(m, teamId) == GoalsOpp(m, teamId) then 1 else 0 }

  function Lost(m: FormMatch, teamId: int): nat { if GoalsTeam(m, teamId) < GoalsOpp(m, teamId) then 1 else 0 }

  /** Wins, draws and losses each count the matches of that result from the
      team's side, independently of order. */
  lemma {:induction false} FormResultCounts(ms: seq<FormMatch>, teamId: int)
    ensures FormOf(ms, teamId).wins == SumOver(ms, m => Won(m, teamId))
    ensures FormOf(ms, teamId).draws == SumOver(ms, m => Drew(m, teamId))
    ensures FormOf(ms, teamId).losses == SumOver(ms, m => Lost(m, teamId))
  {
    if ms != [] {
      var front, last := ms[..|ms| - 1], ms[|ms| - 1];
      assert ms == front + [last];
      FormResultCounts(front, teamId);
      SumOverSnoc(front, last, m => Won(m, teamId));
      SumOverSnoc(front, last, m => Drew(m, teamId));
      SumOverSnoc(front, last, m => Lost(m, teamId));
    }
  }

  /** Goals for and against are the sums of the team's side and of the
      opponent's side, and together they are every goal scored. */
  lemma {:induction false} FormGoalSums(ms: seq<FormMatch>, teamId: int)
    ensures FormOf(ms, teamId).goalsFor == SumOver(ms, m => GoalsTeam(m, teamId))
    ensures FormOf(ms, teamId).goalsAgainst == SumOver(ms, m => GoalsOpp(m, teamId))
    ensures FormOf(ms, teamId).goalsFor + FormOf(ms, teamId).goalsAgainst
            == SumOver(ms, MatchGoals)
  {
    if ms != [] {
      var front, last := ms[..|ms| - 1], ms[|ms| - 1];
      assert ms == front + [last];
      FormGoalSums(front, teamId);
      SumOverSnoc(front, last, m => GoalsTeam(m, teamId));
      SumOverSnoc(front, last, m => GoalsOpp(m, teamId));
      SumOverSnoc(front, last, MatchGoals);
    }
  }

  /** A team that scored more than it conceded won at least one match, and
      one that conceded more lost at least one. */
  lemma {:induction false} FormGoalBalance(ms: seq<FormMatch>, teamId: int)
    ensures var f := FormOf(ms, teamId);
            && (f.goalsFor > f.goalsAgainst ==> f.wins > 0)
            && (f.goalsFor < f.goalsAgainst ==> f.losses > 0)
  {
    if ms != [] {
      FormGoalBalance(ms[..|ms| - 1], teamId);
    }
  }
}
