/** Score reads: totals from `round_score`, live or restricted to a freeze instant. */
module Reads {
  import opened Sums
  import opened Store
  import opened Scores
  import opened Lifecycle
  import opened Sla
  import opened Totals

  function EndOf(rounds: seq<Round>, id: int): Option<int> {
    if rounds == [] then None
    else if rounds[0].id == id then rounds[0].end
    else EndOf(rounds[1..], id)
  }

  /** `_round_freeze_filter`: a round without an end is NULL and matches no freeze. */
  function InFreeze(rounds: seq<Round>, freeze: Option<int>): RoundScore -> bool {
    (row: RoundScore) =>
      freeze.None? || (EndOf(rounds, row.round).Some? && EndOf(rounds, row.round).value <= freeze.value)
  }

  function RowsAt(t: Tables, freeze: Option<int>): seq<RoundScore> {
    Filter(t.scores, InFreeze(t.rounds, freeze))
  }

  /** The service total of a team over the rows a reader may see. */
  function ServiceScore(t: Tables, freeze: Option<int>, team: int, c: Config): int {
    Sum(RowsAt(t, freeze), TeamRow(team, c))
  }

  /** The grouped query; teams without a row are absent. */
  function AllTeamServiceScores(t: Tables, freeze: Option<int>): map<int, int> {
    map team | team in TeamsOf(RowsAt(t, freeze)) :: Sum(RowsAt(t, freeze), RawRow(team))
  }

  function TeamsOf(rows: seq<RoundScore>): set<int> { set row | row in rows :: row.team }

  lemma {:induction false} PlainRows(rows: seq<RoundScore>, team: int, c: Config)
    requires !c.dynamicEnabled
    ensures Sum(rows, TeamRow(team, c)) == Sum(rows, RawRow(team))
  {
    forall row | row in rows ensures TeamRow(team, c)(row) == RawRow(team)(row) {
      ApplyPlain(row.number, row.points, c);
    }
    SumEq(rows, TeamRow(team, c), RawRow(team));
  }

  lemma AllTeamServiceScoresTotal(t: Tables, freeze: Option<int>, team: int)
    ensures Get(AllTeamServiceScores(t, freeze), team, 0) == Sum(RowsAt(t, freeze), RawRow(team))
  {
    var rows := RowsAt(t, freeze);
    if forall row | row in rows :: row.team != team {
      SumZero(rows, RawRow(team));
    } else {
      var row :| row in rows && row.team == team;
      assert Sum(rows, RawRow(row.team)) == Sum(rows, RawRow(team));
    }
  }

  /** `team_service_scores`: the dictionary behind the bar chart and the overview. */
  method TeamServiceScores(t: Tables, freeze: Option<int>, c: Config) returns (scores: map<int, int>)
    ensures forall team :: Get(scores, team, 0) == ServiceScore(t, freeze, team, c)
    ensures forall team :: team in scores <==> exists row :: row in RowsAt(t, freeze) && row.team == team
  {
    var rows := RowsAt(t, freeze);
    if !c.dynamicEnabled {
      scores := AllTeamServiceScores(t, freeze);
      forall team ensures Get(scores, team, 0) == ServiceScore(t, freeze, team, c) {
        AllTeamServiceScoresTotal(t, freeze, team);
        PlainRows(rows, team, c);
      }
      return;
    }
    scores := map[];
    var i := 0;
    while i < |rows|
      invariant 0 <= i <= |rows|
      invariant forall team :: Get(scores, team, 0) == Sum(rows[..i], TeamRow(team, c))
      invariant forall team :: team in scores <==> exists k | 0 <= k < i :: rows[k].team == team
    {
      var row := rows[i];
      assert rows[..i + 1] == rows[..i] + [row];
      TeamRowSnoc(rows[..i], row, c);
      scores := scores[row.team := Get(scores, row.team, 0) + ApplyDynamic(row.number, row.points, c)];
      i := i + 1;
    }
    assert rows[..i] == rows;
  }

  lemma {:induction false} TeamRowSnoc(rows: seq<RoundScore>, row: RoundScore, c: Config)
    ensures forall team :: Sum(rows + [row], TeamRow(team, c)) ==
                           Sum(rows, TeamRow(team, c))
                           + if row.team == team then ApplyDynamic(row.number, row.points, c) else 0
  {
    forall team ensures Sum(rows + [row], TeamRow(team, c)) == Sum(rows, TeamRow(team, c)) + TeamRow(team, c)(row) {
      SumSnoc(rows, row, TeamRow(team, c));
    }
  }
}
