/** Match records as the sports-data source delivers them, and the reading
    of their fields that both analysers share. */
module MatchData {

  datatype Option<+T> = None | Some(value: T) {
    /** The wrapped value, or `default` when there is none. */
    function GetOr(default: T): T {
      match this
      case Some(v) => v
      case None => default
    }
  }

  /** One past match between two teams. A field is `None` when the record
      has no such key. */
  datatype MatchRecord = MatchRecord(
    homeName: Option<string>,
    awayName: Option<string>,
    homeGoals: Option<nat>,
    awayGoals: Option<nat>)

  /** Goals are read with a default of 0 when absent. */
  function HomeGoals(m: MatchRecord): nat { m.homeGoals.GetOr(0) }

  function AwayGoals(m: MatchRecord): nat { m.awayGoals.GetOr(0) }

  function TotalGoals(m: MatchRecord): nat { HomeGoals(m) + AwayGoals(m) }

  /** Team names are read with a default of the empty string when absent. */
  function HomeName(m: MatchRecord): string { m.homeName.GetOr("") }

  function AwayName(m: MatchRecord): string { m.awayName.GetOr("") }

  /** "More than 1.5 goals", stated exactly: g > 3/2 iff 2*g > 3. */
  predicate Over15(m: MatchRecord) { 2 * TotalGoals(m) > 3 }

  /** "More than 2.5 goals": g > 5/2 iff 2*g > 5. */
  predicate Over25(m: MatchRecord) { 2 * TotalGoals(m) > 5 }

  /** Number of matches in `ms` that satisfy `p`, counted from the front. */
  function CountWhere(ms: seq<MatchRecord>, p: MatchRecord -> bool): (n: nat)
    ensures n <= |ms|
  {
    if ms == [] then 0 else (if p(ms[0]) then 1 else 0) + CountWhere(ms[1..], p)
  }

  /** Counting a list with one more match at its end. */
  lemma {:induction false} CountWhereSnoc(ms: seq<MatchRecord>, m: MatchRecord, p: MatchRecord -> bool)
    ensures CountWhere(ms + [m], p) == CountWhere(ms, p) + (if p(m) then 1 else 0)
  {
    if ms == [] {
      assert (ms + [m])[1..] == [];
    } else {
      assert (ms + [m])[1..] == ms[1..] + [m];
      CountWhereSnoc(ms[1..], m, p);
    }
  }
}
