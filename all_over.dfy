/** The daily "every head-to-head match over 1.5 goals" screen: for each of
    today's fixtures, check whether every past meeting of the two teams had
    at least two goals, and keep those fixtures whose check passed. */
module AllOver {
  import opened MatchData

  /** The analysis of one fixture: the two names and the flag. */
  datatype Report = Report(team1: string, team2: string, allOver15: bool)

  /** Reference definition: the flag folded over every match, with no early
      exit. It holds exactly when every match is over 1.5 goals. */
  function ScanAll(ms: seq<MatchRecord>): (b: bool)
    ensures b <==> forall i :: 0 <= i < |ms| ==> Over15(ms[i])
    decreases |ms|
  {
    if ms == [] then true else ScanAll(ms[..|ms| - 1]) && Over15(ms[|ms| - 1])
  }

  function ReportOf(ms: seq<MatchRecord>, team1: string, team2: string): Report {
    Report(team1, team2, ScanAll(ms))
  }

  /** Checks the matches in order and stops at the first one with at most
      1.5 goals (missing goal counts read as 0). Stopping early gives the
      same flag as the full scan. */
  method AnalyzeH2HResults(matches: seq<MatchRecord>, team1: string, team2: string)
    returns (r: Report)
    ensures r == ReportOf(matches, team1, team2)
    ensures r.team1 == team1 && r.team2 == team2
    ensures r.allOver15 <==> forall i :: 0 <= i < |matches| ==> Over15(matches[i])
    ensures matches == [] ==> r.allOver15
  {
    var allOver15 := true;
    var i := 0;
    while i < |matches|
      invariant 0 <= i <= |matches|
      invariant allOver15
      invariant forall j :: 0 <= j < i ==> Over15(matches[j])
    {
      var m := matches[i];
      var goalsHome, goalsAway := HomeGoals(m), AwayGoals(m);
      var totalGoals := goalsHome + goalsAway;
      if 2 * totalGoals <= 3 {
        allOver15 := false;
        break;
      }
      i := i + 1;
    }
    r := Report(team1, team2, allOver15);
  }

  /** One of today's fixtures, with the head-to-head list its fetch returned
      (`None` when the fetch failed). */
  datatype Fixture = Fixture(team1: string, team2: string, h2h: Option<seq<MatchRecord>>)

  /** Whether the fixture's report is kept. */
  predicate Kept(f: Fixture) { f.h2h.Some? && ScanAll(f.h2h.value) }

  function FixtureReport(f: Fixture): Report
    requires f.h2h.Some?
  {
    ReportOf(f.h2h.value, f.team1, f.team2)
  }

  /** The reports kept from a list of fixtures, in fixture order. */
  function Selected(fs: seq<Fixture>): (r: seq<Report>)
    ensures |r| <= |fs|
    ensures forall k :: 0 <= k < |r| ==> r[k].allOver15
    decreases |fs|
  {
    if fs == [] then []
    else
      var last := fs[|fs| - 1];
      Selected(fs[..|fs| - 1]) + (if Kept(last) then [FixtureReport(last)] else [])
  }

  /** Runs the screen over today's fixtures, keeping the reports whose flag
      is set. */
  method AutomateDailyH2HAnalysis(fixtures: seq<Fixture>) returns (results: seq<Report>)
    ensures results == Selected(fixtures)
    ensures forall k :: 0 <= k < |results| ==> results[k].allOver15
  {
    results := [];
    for i := 0 to |fixtures|
      invariant results == Selected(fixtures[..i])
      invariant forall k :: 0 <= k < |results| ==> results[k].allOver15
    {
      var f := fixtures[i];
      if f.h2h.Some? {
        var analysis := AnalyzeH2HResults(f.h2h.value, f.team1, f.team2);
        if analysis.allOver15 {
          results := results + [analysis];
        }
      }
      assert fixtures[..i + 1][..i] == fixtures[..i];
    }
    assert fixtures[..|fixtures|] == fixtures;
  }

  /** A report is kept exactly when it is the report of some fixture whose
      fetch succeeded and whose matches are all over 1.5 goals. */
  lemma {:induction false} SelectedMembers(fs: seq<Fixture>, r: Report)
    ensures r in Selected(fs) <==>
              exists i :: 0 <= i < |fs| && Kept(fs[i]) && r == FixtureReport(fs[i])
    ensures r in Selected(fs) ==> r.allOver15
  {
    if fs != [] {
      var front, last := fs[..|fs| - 1], fs[|fs| - 1];
      SelectedMembers(front, r);
      assert forall i :: 0 <= i < |front| ==> front[i] == fs[i];
      if exists i :: 0 <= i < |fs| && Kept(fs[i]) && r == FixtureReport(fs[i]) {
        var i :| 0 <= i < |fs| && Kept(fs[i]) && r == FixtureReport(fs[i]);
        if i < |front| {
          assert Kept(front[i]) && r == FixtureReport(front[i]);
        }
      }
    }
  }

  /** Screening two lists of fixtures one after the other gives the two
      selections one after the other: the order of the fixtures is kept. */
  lemma {:induction false} SelectedConcat(a: seq<Fixture>, b: seq<Fixture>)
    ensures Selected(a + b) == Selected(a) + Selected(b)
    decreases |b|
  {
    if b == [] {
      assert a + b == a;
    } else {
      var front, last := b[..|b| - 1], b[|b| - 1];
      assert (a + b)[..|a + b| - 1] == a + front;
      assert (a + b)[|a + b| - 1] == last;
      SelectedConcat(a, front);
    }
  }

  /** Exactly one report per fixture when every fixture passes. */
  lemma {:induction false} SelectedLength(fs: seq<Fixture>)
    ensures (forall i :: 0 <= i < |fs| ==> Kept(fs[i])) ==> |Selected(fs)| == |fs|
  {
    if fs != [] {
      var front := fs[..|fs| - 1];
      SelectedLength(front);
      assert forall i :: 0 <= i < |front| ==> front[i] == fs[i];
    }
  }
}
