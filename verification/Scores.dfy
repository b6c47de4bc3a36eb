/** The write side of the two derived tables: `round_score` and the failure-streak column. */
module Scores {
  import opened Sums
  import opened Store
  import opened Streaks

  // ---- What the derived tables must say about the check history ----

  function Find(services: seq<Service>, id: int): (r: Option<Service>)
    ensures r.Some? ==> r.value in services && r.value.id == id
  {
    if services == [] then None
    else if services[0].id == id then Some(services[0])
    else Find(services[1..], id)
  }

  predicate Earns(services: seq<Service>, c: Check, team: int) {
    c.result && Find(services, c.service).Some? && Find(services, c.service).value.team == team
  }

  /** Points a passing check earns its team in round `id`. */
  function CheckPoints(services: seq<Service>, id: int, team: int): Check -> int {
    (c: Check) => if c.round == id && Earns(services, c, team) then Find(services, c.service).value.points else 0
  }

  function RowPoints(id: int, team: int): RoundScore -> int {
    (row: RoundScore) => if row.round == id && row.team == team then row.points else 0
  }

  predicate DifferentKey(a: RoundScore, b: RoundScore) { a.round != b.round || a.team != b.team }

  /** One nonzero row per scoring team and round, holding the point sum of its passing checks. */
  ghost predicate ScoresMatch(t: Tables, services: seq<Service>) {
    && Pairwise(t.scores, DifferentKey)
    && (forall row | row in t.scores :: row.points != 0)
    && (forall id, team :: Sum(t.scores, RowPoints(id, team)) == Sum(t.checks, CheckPoints(services, id, team)))
  }

  ghost predicate StreakMatches(t: Tables, service: int) {
    service in t.streaks ==> t.streaks[service] == TrailingFailures(t.checks, service)
  }

  ghost predicate StreaksMatch(t: Tables) {
    forall s :: StreakMatches(t, s)
  }

  // ---- materialize_round ----

  ghost predicate RowsFor(rows: seq<RoundScore>, id: int, number: int, points: map<int, int>) {
    && (forall row | row in rows :: row.round == id && row.number == number && row.points != 0)
    && Pairwise(rows, DifferentKey)
    && (forall team :: Sum(rows, RowPoints(id, team)) == Get(points, team, 0))
  }

  function OtherRound(id: int): RoundScore -> bool { (row: RoundScore) => row.round != id }

  /** `compute_round_service_points`: the grouped query over one round's checks. */
  function RoundServicePoints(checks: seq<Check>, services: seq<Service>, id: int): map<int, int> {
    map s | s in services && Sum(checks, CheckPoints(services, id, s.team)) != 0
      :: s.team := Sum(checks, CheckPoints(services, id, s.team))
  }

  lemma {:induction false} RoundServicePointsTotal(checks: seq<Check>, services: seq<Service>, id: int, team: int)
    ensures Get(RoundServicePoints(checks, services, id), team, 0) == Sum(checks, CheckPoints(services, id, team))
  {
    if forall s | s in services :: s.team != team {
      SumZero(checks, CheckPoints(services, id, team));
    } else {
      var s :| s in services && s.team == team;
      assert Sum(checks, CheckPoints(services, id, s.team)) == Sum(checks, CheckPoints(services, id, team));
    }
  }

  lemma {:induction false} AddRow(rows: seq<RoundScore>, row: RoundScore)
    requires Pairwise(rows, DifferentKey)
    requires forall x | x in rows :: DifferentKey(x, row)
    ensures Pairwise(rows + [row], DifferentKey)
    ensures forall id, team :: Sum(rows + [row], RowPoints(id, team)) ==
                               Sum(rows, RowPoints(id, team)) + RowPoints(id, team)(row)
  {
    var all := rows + [row];
    forall i, j | 0 <= i < j < |all| ensures DifferentKey(all[i], all[j]) {
      assert all[i] in rows;
    }
    forall id, team ensures Sum(all, RowPoints(id, team)) == Sum(rows, RowPoints(id, team)) + RowPoints(id, team)(row) {
      SumSnoc(rows, row, RowPoints(id, team));
    }
  }

  /** The rows of every team but those in `todo`. */
  ghost predicate RowsSoFar(rows: seq<RoundScore>, id: int, number: int, sums: map<int, int>, todo: set<int>) {
    && (forall row | row in rows :: row.round == id && row.number == number && row.points != 0 && row.team !in todo)
    && Pairwise(rows, DifferentKey)
    && (forall team :: Sum(rows, RowPoints(id, team)) == if team in todo then 0 else Get(sums, team, 0))
  }

  lemma OneMoreRow(rows: seq<RoundScore>, id: int, number: int, sums: map<int, int>, todo: set<int>, team: int)
    requires RowsSoFar(rows, id, number, sums, todo) && team in todo && team in sums
    ensures sums[team] == 0 ==> RowsSoFar(rows, id, number, sums, todo - {team})
    ensures sums[team] != 0 ==>
              RowsSoFar(rows + [RoundScore(id, number, team, sums[team])], id, number, sums, todo - {team})
  {
    if sums[team] != 0 {
      AddRow(rows, RoundScore(id, number, team, sums[team]));
    }
  }

  /** The insertion loop: a zero total gets no row. */
  method InsertRows(db: Database, id: int, number: int, sums: map<int, int>)
    returns (written: nat, ghost rows: seq<RoundScore>)
    modifies db`working
    ensures written == |rows| && RowsFor(rows, id, number, sums)
    ensures db.working == old(db.working).(scores := old(db.working.scores) + rows)
  {
    written, rows := 0, [];
    var todo := sums.Keys;
    while todo != {}
      invariant todo <= sums.Keys
      invariant written == |rows|
      invariant db.working == old(db.working).(scores := old(db.working.scores) + rows)
      invariant RowsSoFar(rows, id, number, sums, todo)
    {
      var team := Pick(todo);
      OneMoreRow(rows, id, number, sums, todo, team);
      todo := todo - {team};
      if sums[team] != 0 {
        var row := RoundScore(id, number, team, sums[team]);
        assert old(db.working.scores) + (rows + [row]) == (old(db.working.scores) + rows) + [row];
        db.working := db.working.(scores := db.working.scores + [row]);
        rows := rows + [row];
        written := written + 1;
      }
    }
  }

  /** Without `points` the sums are queried; with `clear` any earlier rows of the round go first. */
  method MaterializeRound(db: Database, services: seq<Service>, id: int, number: int,
                          points: Option<map<int, int>>, clear: bool, commit: bool)
    returns (o: Outcome, written: nat, ghost rows: seq<RoundScore>)
    requires db.Valid() && IdsBelow(db.working.rounds, db.nextRoundId)
    modifies db`ops, db`working, db`committed, db`seen
    ensures db.Valid() && db.working.rounds == old(db.working.rounds)
    ensures db.ops >= old(db.ops)
    ensures Ran(o, db.script, old(db.ops), db.ops)
    ensures !commit ==> db.committed == old(db.committed) && db.seen == old(db.seen)
    ensures commit && o.Done? ==> db.committed == db.working
    ensures o.Done? ==>
              && written == |rows|
              && RowsFor(rows, id, number, if points.Some? then points.value
                                           else RoundServicePoints(old(db.working.checks), services, id))
              && db.working == old(db.working).(scores :=
                   (if clear then Filter(old(db.working.scores), OtherRound(id)) else old(db.working.scores)) + rows)
  {
    written, rows := 0, [];
    if clear {
      o := db.Statement();
      if o.Raised? { return; }
      db.working := db.working.(scores := Filter(db.working.scores, OtherRound(id)));
    }
    var sums := map[];
    if points.None? {
      o := db.Statement();
      if o.Raised? { return; }
      sums := RoundServicePoints(db.working.checks, services, id);
    } else {
      sums := points.value;
    }
    written, rows := InsertRows(db, id, number, sums);
    o := Done;
    if commit {
      o := db.Commit();
    }
  }

  // ---- The failure-streak column ----

  /** UPDATE services SET cache = value WHERE id IN ids */
  function Assign(streaks: map<int, int>, ids: set<int>, value: int): map<int, int> {
    map s | s in streaks :: if s in ids then value else streaks[s]
  }

  /** UPDATE services SET cache = cache + increment WHERE id IN ids */
  function Bump(streaks: map<int, int>, ids: set<int>, increment: int): map<int, int> {
    map s | s in streaks :: if s in ids then streaks[s] + increment else streaks[s]
  }

  ghost predicate Grouped(groups: map<int, set<int>>, counts: map<int, int>, members: set<int>) {
    && (forall s | s in members :: s in counts && counts[s] in groups)
    && (forall k, s | k in groups :: s in groups[k] <==> s in members && s in counts && counts[s] == k)
  }

  lemma GroupMembers(groups: map<int, set<int>>, counts: map<int, int>, members: set<int>, value: int)
    requires Grouped(groups, counts, members) && value in groups
    ensures forall s :: s in groups[value] <==> s in members && s in counts && counts[s] == value
  {
    forall s ensures s in groups[value] <==> s in members && s in counts && counts[s] == value {
    }
  }

  /** The `defaultdict(list)` that turns one UPDATE per service into one per distinct value. */
  method GroupByValue(counts: map<int, int>, members: set<int>) returns (groups: map<int, set<int>>)
    requires members <= counts.Keys
    ensures Grouped(groups, counts, members)
  {
    groups := map[];
    var todo := members;
    while todo != {}
      invariant todo <= members
      invariant Grouped(groups, counts, members - todo)
    {
      var s := Pick(todo);
      todo := todo - {s};
      groups := groups[counts[s] := Get(groups, counts[s], {}) + {s}];
    }
    assert members - todo == members;
  }

  /** What one round does to the column, service by service. */
  function Folded(streaks: map<int, int>, passed: set<int>, failed: map<int, int>): map<int, int> {
    map s | s in streaks :: if s in passed then 0 else streaks[s] + Get(failed, s, 0)
  }

  /** The streaks of the services that only failed, extended. */
  function Extended(streaks: map<int, int>, passed: set<int>, failed: map<int, int>): map<int, int> {
    map s | s in streaks :: if s in passed then streaks[s] else streaks[s] + Get(failed, s, 0)
  }

  /** One UPDATE per distinct number of failures. */
  method AddFailures(db: Database, passed: set<int>, failed: map<int, int>) returns (o: Outcome)
    modifies db`ops, db`working
    ensures db.ops >= old(db.ops)
    ensures Ran(o, db.script, old(db.ops), db.ops)
    ensures db.working == old(db.working).(streaks := db.working.streaks)
    ensures o.Done? ==> db.working.streaks == Extended(old(db.working.streaks), passed, failed)
  {
    ghost var before := db.working.streaks;
    var groups := GroupByValue(failed, failed.Keys - passed);
    var todo := groups.Keys;
    while todo != {}
      invariant todo <= groups.Keys
      invariant Ran(Done, db.script, old(db.ops), db.ops)
      invariant db.working == old(db.working).(streaks := db.working.streaks)
      invariant db.working.streaks.Keys == before.Keys
      invariant forall s | s in before :: db.working.streaks[s] ==
                  if s !in passed && s in failed && failed[s] !in todo then before[s] + failed[s] else before[s]
    {
      var increment := Pick(todo);
      todo := todo - {increment};
      o := db.Statement();
      if o.Raised? { return; }
      db.working := db.working.(streaks := Bump(db.working.streaks, groups[increment], increment));
    }
    o := Done;
    assert forall s | s in before :: db.working.streaks[s] == Extended(before, passed, failed)[s];
  }

  method ApplyConsecutiveFailures(db: Database, passed: set<int>, failed: map<int, int>) returns (o: Outcome)
    modifies db`ops, db`working
    ensures db.ops >= old(db.ops)
    ensures Ran(o, db.script, old(db.ops), db.ops)
    ensures db.working.rounds == old(db.working.rounds)
    ensures o.Done? ==> db.working == old(db.working).(streaks := Folded(old(db.working.streaks), passed, failed))
  {
    ghost var before := db.working.streaks;
    if passed != {} {
      o := db.Statement();
      if o.Raised? { return; }
      db.working := db.working.(streaks := Assign(db.working.streaks, passed, 0));
    }
    o := AddFailures(db, passed, failed);
    if o.Raised? { return; }
    assert forall s | s in before :: db.working.streaks[s] == Folded(before, passed, failed)[s];
  }

  function ServiceIds(checks: seq<Check>): set<int> {
    set c | c in checks :: c.service
  }

  /** `_service_consecutive_failures`: services without a trailing failure are absent. */
  function StreakCounts(checks: seq<Check>): map<int, int> {
    map s | s in ServiceIds(checks) && TrailingFailures(checks, s) != 0 :: TrailingFailures(checks, s)
  }

  lemma StreakCountsTotal(checks: seq<Check>, service: int)
    ensures Get(StreakCounts(checks), service, 0) == TrailingFailures(checks, service)
  {
    if service !in ServiceIds(checks) {
      SumZero(checks, CountedFailure(service, LastPass(checks, service)));
    }
  }

  ghost function Recomputed(streaks: map<int, int>, checks: seq<Check>, ids: Option<set<int>>): map<int, int> {
    map s | s in streaks :: if ids.None? || s in ids.value then TrailingFailures(checks, s) else streaks[s]
  }

  function Rewritten(streaks: map<int, int>, targets: set<int>, counts: map<int, int>): map<int, int> {
    map s | s in streaks :: if s in targets then Get(counts, s, 0) else streaks[s]
  }

  /** Resets the targets, then writes the nonzero counts, one UPDATE per distinct value. */
  method WriteCounts(db: Database, targets: set<int>, counts: map<int, int>) returns (o: Outcome)
    modifies db`ops, db`working
    ensures db.ops > old(db.ops)
    ensures Ran(o, db.script, old(db.ops), db.ops)
    ensures db.working == old(db.working).(streaks := db.working.streaks)
    ensures o.Done? ==> db.working.streaks == Rewritten(old(db.working.streaks), targets, counts)
  {
    ghost var before := db.working.streaks;
    o := db.Statement();
    if o.Raised? { return; }
    db.working := db.working.(streaks := Assign(db.working.streaks, targets, 0));
    var groups := GroupByValue(counts, counts.Keys * targets);
    var todo := groups.Keys;
    while todo != {}
      invariant todo <= groups.Keys
      invariant db.ops > old(db.ops) && Ran(Done, db.script, old(db.ops), db.ops)
      invariant db.working == old(db.working).(streaks := db.working.streaks)
      invariant db.working.streaks.Keys == before.Keys
      invariant forall s | s in before :: db.working.streaks[s] ==
                  if s !in targets then before[s]
                  else if s in counts && counts[s] !in todo then counts[s]
                  else 0
    {
      var value := Pick(todo);
      todo := todo - {value};
      GroupMembers(groups, counts, counts.Keys * targets, value);
      o := db.Statement();
      if o.Raised? { return; }
      db.working := db.working.(streaks := Assign(db.working.streaks, groups[value], value));
    }
    o := Done;
    assert forall s | s in before :: db.working.streaks[s] == Rewritten(before, targets, counts)[s];
  }

  function Targets(streaks: map<int, int>, ids: Option<set<int>>): set<int> {
    if ids.None? then streaks.Keys else streaks.Keys * ids.value
  }

  lemma RewritingRecomputes(streaks: map<int, int>, checks: seq<Check>, ids: Option<set<int>>)
    ensures Rewritten(streaks, Targets(streaks, ids), StreakCounts(checks)) == Recomputed(streaks, checks, ids)
    ensures Targets(streaks, ids) == {} ==> Recomputed(streaks, checks, ids) == streaks
  {
    forall s | s in streaks
      ensures s in Targets(streaks, ids) <==> ids.None? || s in ids.value
      ensures Get(StreakCounts(checks), s, 0) == TrailingFailures(checks, s)
    {
      StreakCountsTotal(checks, s);
    }
  }

  /** The slow path: rebuilds the column from the checks, for all services or for `ids`. */
  method RecomputeStreaks(db: Database, ids: Option<set<int>>, commit: bool) returns (o: Outcome)
    requires db.Valid() && IdsBelow(db.working.rounds, db.nextRoundId)
    modifies db`ops, db`working, db`committed, db`seen
    ensures db.Valid() && db.working.rounds == old(db.working.rounds)
    ensures db.ops >= old(db.ops)
    ensures Ran(o, db.script, old(db.ops), db.ops)
    ensures !commit ==> db.committed == old(db.committed) && db.seen == old(db.seen)
    ensures commit && o.Done? ==> db.committed == db.working
    ensures o.Done? ==> db.working == old(db.working).(streaks :=
                          Recomputed(old(db.working.streaks), old(db.working.checks), ids))
  {
    ghost var before, checks := db.working.streaks, db.working.checks;
    o := db.Statement();
    if o.Raised? { return; }
    var counts := StreakCounts(db.working.checks);
    var targets := Targets(db.working.streaks, ids);
    RewritingRecomputes(before, checks, ids);
    if targets != {} {
      o := WriteCounts(db, targets, counts);
      if o.Raised? { return; }
    }
    if commit {
      o := db.Commit();
    }
  }
}
