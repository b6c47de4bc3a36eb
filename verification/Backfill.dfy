/** Recomputing every score row from the checks. */
module Backfill {
  import opened Sums
  import opened Store
  import opened Scores
  import opened Lifecycle

  /** What the schema enforces: every check and score row refers to some round, whatever number the row copied. */
  ghost predicate Keyed(t: Tables) {
    && Pairwise(t.rounds, IdsIncrease)
    && (forall c | c in t.checks :: HasId(t.rounds, c.round))
    && (forall row | row in t.scores :: HasId(t.rounds, row.round))
  }

  /** Inside round `id`, no team twice. */
  function OneRowPerTeam(id: int): (RoundScore, RoundScore) -> bool {
    (a: RoundScore, b: RoundScore) => a.round == id && b.round == id ==> a.team != b.team
  }

  /** The round's rows are exactly what its checks call for. */
  ghost predicate RoundMatches(t: Tables, services: seq<Service>, r: Round) {
    && (forall row | row in t.scores && row.round == r.id :: row.points != 0 && row.number == r.number)
    && Pairwise(t.scores, OneRowPerTeam(r.id))
    && (forall team :: Sum(t.scores, RowPoints(r.id, team)) == Sum(t.checks, CheckPoints(services, r.id, team)))
  }

  lemma {:induction false} ReplacedSums(t: Tables, id: int, rows: seq<RoundScore>)
    requires forall row | row in rows :: row.round == id
    ensures forall other, team :: Sum(Filter(t.scores, OtherRound(id)) + rows, RowPoints(other, team)) ==
              if other == id then Sum(rows, RowPoints(id, team)) else Sum(t.scores, RowPoints(other, team))
  {
    var others := Filter(t.scores, OtherRound(id));
    forall other, team
      ensures Sum(others + rows, RowPoints(other, team)) ==
              if other == id then Sum(rows, RowPoints(id, team)) else Sum(t.scores, RowPoints(other, team))
    {
      SumAppend(others, rows, RowPoints(other, team));
      SumFilter(t.scores, OtherRound(id), RowPoints(other, team));
      if other == id {
        SumZero(t.scores, Masked(OtherRound(id), RowPoints(other, team)));
      } else {
        SumEq(t.scores, Masked(OtherRound(id), RowPoints(other, team)), RowPoints(other, team));
        SumZero(rows, RowPoints(other, team));
      }
    }
  }

  /** The rewritten round is right ... */
  lemma ReplaceRound(t: Tables, u: Tables, services: seq<Service>, r: Round, rows: seq<RoundScore>)
    requires Keyed(t) && r in t.rounds
    requires RowsFor(rows, r.id, r.number, RoundServicePoints(t.checks, services, r.id))
    requires u == t.(scores := Filter(t.scores, OtherRound(r.id)) + rows)
    ensures Keyed(u) && RoundMatches(u, services, r)
  {
    var others := Filter(t.scores, OtherRound(r.id));
    ReplacedSums(t, r.id, rows);
    forall i, j | 0 <= i < j < |rows| ensures OneRowPerTeam(r.id)(rows[i], rows[j]) {
      assert DifferentKey(rows[i], rows[j]);
    }
    forall i, j | 0 <= i < j < |others| ensures OneRowPerTeam(r.id)(others[i], others[j]) {
      assert others[i] in others && OtherRound(r.id)(others[i]);
    }
    PairwiseAppend(others, rows, OneRowPerTeam(r.id));
    forall team ensures Sum(u.scores, RowPoints(r.id, team)) == Sum(t.checks, CheckPoints(services, r.id, team)) {
      RoundServicePointsTotal(t.checks, services, r.id, team);
    }
  }

  /** ... and every other round that was right still is. */
  lemma ReplaceKeepsOthers(t: Tables, u: Tables, services: seq<Service>, r: Round, rows: seq<RoundScore>, x: Round)
    requires x.id != r.id && RoundMatches(t, services, x)
    requires forall row | row in rows :: row.round == r.id
    requires u == t.(scores := Filter(t.scores, OtherRound(r.id)) + rows)
    ensures RoundMatches(u, services, x)
  {
    var others := Filter(t.scores, OtherRound(r.id));
    ReplacedSums(t, r.id, rows);
    FilterPairwise(t.scores, OtherRound(r.id), OneRowPerTeam(x.id));
    PairwiseAppend(others, rows, OneRowPerTeam(x.id));
    forall team ensures Sum(u.scores, RowPoints(x.id, team)) == Sum(t.checks, CheckPoints(services, x.id, team)) {
      assert Sum(t.scores, RowPoints(x.id, team)) == Sum(t.checks, CheckPoints(services, x.id, team));
    }
  }

  lemma RoundOf(t: Tables, id: int) returns (r: Round)
    requires HasId(t.rounds, id)
    ensures r in t.rounds && r.id == id
  {
    r :| r in t.rounds && r.id == id;
  }

  lemma AllRoundsLinked(t: Tables, services: seq<Service>)
    requires Keyed(t) && forall r | r in t.rounds :: RoundMatches(t, services, r)
    ensures Linked(t) && Pairwise(t.scores, DifferentKey) && forall row | row in t.scores :: row.points != 0
  {
    forall row | row in t.scores ensures HasRound(t.rounds, row.round, row.number) && row.points != 0 {
      var r := RoundOf(t, row.round);
      assert RoundMatches(t, services, r);
    }
    forall i, j | 0 <= i < j < |t.scores| ensures DifferentKey(t.scores[i], t.scores[j]) {
      var r := RoundOf(t, t.scores[i].round);
      assert OneRowPerTeam(r.id)(t.scores[i], t.scores[j]);
    }
  }

  /** When every round's rows match, the whole table does. */
  lemma AllRoundsMatch(t: Tables, services: seq<Service>)
    requires Keyed(t) && forall r | r in t.rounds :: RoundMatches(t, services, r)
    ensures Linked(t) && ScoresMatch(t, services)
  {
    AllRoundsLinked(t, services);
    forall id, team ensures Sum(t.scores, RowPoints(id, team)) == Sum(t.checks, CheckPoints(services, id, team)) {
      if HasId(t.rounds, id) {
        var r := RoundOf(t, id);
        assert RoundMatches(t, services, r);
      } else {
        SumZero(t.scores, RowPoints(id, team));
        SumZero(t.checks, CheckPoints(services, id, team));
      }
    }
  }

  ghost predicate FirstMatch(t: Tables, services: seq<Service>, k: nat)
    requires k <= |t.rounds|
  {
    forall j | 0 <= j < k :: RoundMatches(t, services, t.rounds[j])
  }

  lemma NextMatches(t: Tables, u: Tables, services: seq<Service>, k: nat, rows: seq<RoundScore>)
    requires Keyed(t) && k < |t.rounds| && FirstMatch(t, services, k)
    requires var r := t.rounds[k];
             && RowsFor(rows, r.id, r.number, RoundServicePoints(t.checks, services, r.id))
             && u == t.(scores := Filter(t.scores, OtherRound(r.id)) + rows)
    ensures Keyed(u) && FirstMatch(u, services, k + 1)
  {
    ReplaceRound(t, u, services, t.rounds[k], rows);
    forall j | 0 <= j < k ensures RoundMatches(u, services, u.rounds[j]) {
      assert IdsIncrease(t.rounds[j], t.rounds[k]);
      ReplaceKeepsOthers(t, u, services, t.rounds[k], rows, t.rounds[j]);
    }
  }

  /** From any score rows at all, the recompute reaches the table the engine maintains round by round. */
  method MaterializeAllRounds(db: Database, services: seq<Service>, commit: bool) returns (o: Outcome)
    requires db.Valid() && IdsBelow(db.working.rounds, db.nextRoundId)
    requires Keyed(db.working)
    modifies db`ops, db`working, db`committed, db`seen
    ensures db.Valid() && Ran(o, db.script, old(db.ops), db.ops)
    ensures !commit ==> db.committed == old(db.committed) && db.seen == old(db.seen)
    ensures o.Done? ==> ScoresMatch(db.working, services) && Linked(db.working)
    ensures o.Done? ==> db.working == old(db.working).(scores := db.working.scores)
    ensures o.Done? && commit ==> db.committed == db.working
  {
    var i := 0;
    while i < |db.working.rounds|
      invariant 0 <= i <= |db.working.rounds|
      invariant Ran(Done, db.script, old(db.ops), db.ops)
      invariant db.Valid() && db.committed == old(db.committed) && db.seen == old(db.seen)
      invariant db.working == old(db.working).(scores := db.working.scores)
      invariant Keyed(db.working) && FirstMatch(db.working, services, i)
      decreases |old(db.working.rounds)| - i
    {
      ghost var before := db.working;
      var r := db.working.rounds[i];
      var written; ghost var rows;
      o, written, rows := MaterializeRound(db, services, r.id, r.number, None, true, false);
      if o.Raised? { return; }
      NextMatches(before, db.working, services, i, rows);
      i := i + 1;
    }
    AllRoundsMatch(db.working, services);
    o := Done;
    if commit {
      o := db.Commit();
    }
  }
}
