/** The administrator's rollback: four deletions, each committed on its own. */
module Rollback {
  import opened Sums
  import opened Store
  import opened Streaks
  import opened Scores
  import opened Lifecycle

  function NumberBelow(n: int): Round -> bool { (r: Round) => r.number < n }

  function RowBelow(n: int): RoundScore -> bool { (row: RoundScore) => row.number < n }

  function KbBelow(n: int): Kb -> bool { (kb: Kb) => kb.round < n }

  function AtLeast(n: int): Round -> bool { (r: Round) => r.number >= n }

  function IdsFrom(rounds: seq<Round>, n: int): seq<int> {
    var doomed := Filter(rounds, AtLeast(n));
    seq(|doomed|, i requires 0 <= i < |doomed| => doomed[i].id)
  }

  function SetOf(ids: seq<int>): set<int> { set id | id in ids }

  /** The failure-streak column is left as it was. */
  function RolledBack(t: Tables, n: int): Tables {
    Tables(Filter(t.rounds, NumberBelow(n)), Filter(t.checks, KeepCheck(SetOf(IdsFrom(t.rounds, n)))),
           Filter(t.scores, RowBelow(n)), t.streaks, Filter(t.kb, KbBelow(n)))
  }

  function LastNumber(rounds: seq<Round>): int {
    if rounds == [] then 0
    else
      var rest := LastNumber(rounds[1..]);
      if |rounds| == 1 || rounds[0].number >= rest then rounds[0].number else rest
  }

  lemma {:induction false} LastNumberIs(rounds: seq<Round>, first: int)
    requires forall i | 0 <= i < |rounds| :: rounds[i].number == first + i
    ensures LastNumber(rounds) == if rounds == [] then 0 else first + |rounds| - 1
  {
    if rounds != [] {
      LastNumberIs(rounds[1..], first + 1);
    }
  }

  /** `get_last_round_num` counts the rounds when they are numbered without gaps. */
  lemma {:induction false} LastNumberCounts(rounds: seq<Round>)
    requires Numbered(rounds)
    ensures LastNumber(rounds) == |rounds|
  {
    LastNumberIs(rounds, 1);
  }

  datatype RollbackResult = Rejected | Finished | Interrupted

  const BATCH_SIZE := 500

  /** How far the deletions have got: the checks of the first `i` doomed rounds, then score rows, manifests, rounds. */
  datatype Progress = ChecksGone(i: nat) | RowsGone | KbGone | RoundsGone

  /** Checks go in whole batches. */
  predicate ValidProgress(p: Progress, t: Tables, n: int) {
    p.ChecksGone? ==> p.i <= |IdsFrom(t.rounds, n)| && (p.i % BATCH_SIZE == 0 || p.i == |IdsFrom(t.rounds, n)|)
  }

  function WithoutChecks(t: Tables, ids: seq<int>): Tables {
    t.(checks := Filter(t.checks, KeepCheck(SetOf(ids))))
  }

  /** The tables at that point. */
  function Partly(t: Tables, n: int, p: Progress): Tables
    requires ValidProgress(p, t, n)
  {
    var gone := WithoutChecks(t, IdsFrom(t.rounds, n));
    match p
    case ChecksGone(i) => WithoutChecks(t, IdsFrom(t.rounds, n)[..i])
    case RowsGone => gone.(scores := Filter(t.scores, RowBelow(n)))
    case KbGone => gone.(scores := Filter(t.scores, RowBelow(n)), kb := Filter(t.kb, KbBelow(n)))
    case RoundsGone => RolledBack(t, n)
  }

  ghost predicate IsPartly(u: Tables, t: Tables, n: int) {
    exists p :: ValidProgress(p, t, n) && u == Partly(t, n, p)
  }

  /** The points such a rollback may pass through. */
  ghost function Points(t: Tables, n: int): iset<Tables> { iset u | IsPartly(u, t, n) }

  /** The states after each batch. */
  ghost predicate AllowsBatches(t: Tables, ids: seq<int>, allowed: iset<Tables>) {
    forall i | 0 <= i <= |ids| && (i % BATCH_SIZE == 0 || i == |ids|) :: WithoutChecks(t, ids[..i]) in allowed
  }

  ghost predicate Allows(t: Tables, n: int, allowed: iset<Tables>) {
    && t in allowed
    && AllowsBatches(t, IdsFrom(t.rounds, n), allowed)
    && Partly(t, n, RowsGone) in allowed
    && Partly(t, n, KbGone) in allowed
    && RolledBack(t, n) in allowed
  }

  lemma AllPoints(t: Tables, n: int)
    ensures Allows(t, n, Points(t, n))
  {
    NothingGone(t, n);
    AtProgress(t, n, RowsGone);
    AtProgress(t, n, KbGone);
    AtProgress(t, n, RoundsGone);
    var ids := IdsFrom(t.rounds, n);
    forall i | 0 <= i <= |ids| && (i % BATCH_SIZE == 0 || i == |ids|)
      ensures WithoutChecks(t, ids[..i]) in Points(t, n)
    {
      AtProgress(t, n, ChecksGone(i));
    }
  }

  lemma AtProgress(t: Tables, n: int, p: Progress)
    requires ValidProgress(p, t, n)
    ensures IsPartly(Partly(t, n, p), t, n)
  {
  }

  /** Before anything is deleted. */
  lemma NothingGone(t: Tables, n: int)
    ensures WithoutChecks(t, []) == t && IsPartly(t, t, n)
  {
    FilterAll(t.checks, KeepCheck(SetOf([])));
    assert IdsFrom(t.rounds, n)[..0] == [];
    AtProgress(t, n, ChecksGone(0));
  }

  lemma DeleteBatch(t: Tables, ids: seq<int>, i: nat, end: nat)
    requires i <= end <= |ids|
    ensures WithoutChecks(WithoutChecks(t, ids[..i]), ids[i..end]) == WithoutChecks(t, ids[..end])
  {
    assert ids[..end] == ids[..i] + ids[i..end];
    FilterFilter(t.checks, KeepCheck(SetOf(ids[..i])), KeepCheck(SetOf(ids[i..end])), KeepCheck(SetOf(ids[..end])));
  }

  ghost predicate SeenWithin(seen: set<Tables>, before: set<Tables>, allowed: iset<Tables>) {
    forall u | u in seen :: u in before || u in allowed
  }

  /** A deletion and its commit: from one allowed state to another. */
  method CommitChange(db: Database, t: Tables, ghost allowed: iset<Tables>, ghost start: set<Tables>)
    returns (o: Outcome)
    requires db.Valid() && IdsBelow(t.rounds, db.nextRoundId)
    requires db.committed in allowed && t in allowed
    requires start <= db.seen && SeenWithin(db.seen, start, allowed)
    modifies db`ops, db`working, db`committed, db`seen
    ensures db.Valid() && db.ops > old(db.ops)
    ensures Ran(o, db.script, old(db.ops), db.ops)
    ensures db.committed in allowed
    ensures start <= db.seen && SeenWithin(db.seen, start, allowed)
    ensures o.Done? ==> db.working == db.committed == t
  {
    o := db.Statement();
    if o.Done? {
      db.working := t;
      o := db.Commit();
    }
  }

  method DeleteChecks(db: Database, ids: seq<int>, ghost allowed: iset<Tables>, ghost start: set<Tables>)
    returns (o: Outcome)
    requires db.Valid() && db.working == db.committed
    requires AllowsBatches(db.committed, ids, allowed)
    requires db.committed in allowed && start <= db.seen && SeenWithin(db.seen, start, allowed)
    modifies db`ops, db`working, db`committed, db`seen
    ensures db.Valid() && db.ops >= old(db.ops)
    ensures Ran(o, db.script, old(db.ops), db.ops)
    ensures db.committed in allowed
    ensures start <= db.seen && SeenWithin(db.seen, start, allowed)
    ensures o.Done? ==> db.working == db.committed == WithoutChecks(old(db.committed), ids)
  {
    ghost var before := db.committed;
    NothingGone(before, 0);
    var i := 0;
    while i < |ids|
      invariant 0 <= i <= |ids| && (i % BATCH_SIZE == 0 || i == |ids|)
      invariant db.Valid() && Ran(Done, db.script, old(db.ops), db.ops)
      invariant db.working == db.committed == WithoutChecks(before, ids[..i])
      invariant db.committed in allowed
      invariant start <= db.seen && SeenWithin(db.seen, start, allowed)
    {
      var end := if i + BATCH_SIZE <= |ids| then i + BATCH_SIZE else |ids|;
      DeleteBatch(before, ids, i, end);
      o := CommitChange(db, WithoutChecks(db.working, ids[i..end]), allowed, start);
      if o.Raised? { return; }
      i := end;
    }
    assert ids[..i] == ids;
    o := Done;
  }

  method DeleteScores(db: Database, n: int, ghost before: Tables, ghost allowed: iset<Tables>, ghost start: set<Tables>)
    returns (o: Outcome)
    requires db.Valid() && db.working == db.committed == WithoutChecks(before, IdsFrom(before.rounds, n))
    requires db.committed in allowed && Partly(before, n, RowsGone) in allowed
    requires start <= db.seen && SeenWithin(db.seen, start, allowed)
    modifies db`ops, db`working, db`committed, db`seen
    ensures db.Valid() && db.ops > old(db.ops)
    ensures Ran(o, db.script, old(db.ops), db.ops)
    ensures db.committed in allowed
    ensures start <= db.seen && SeenWithin(db.seen, start, allowed)
    ensures o.Done? ==> db.working == db.committed == Partly(before, n, RowsGone)
  {
    o := CommitChange(db, db.working.(scores := Filter(db.working.scores, RowBelow(n))), allowed, start);
  }

  method DeleteManifests(db: Database, n: int, ghost before: Tables, ghost allowed: iset<Tables>,
                         ghost start: set<Tables>)
    returns (o: Outcome)
    requires db.Valid() && db.working == db.committed == Partly(before, n, RowsGone)
    requires db.committed in allowed && Partly(before, n, KbGone) in allowed
    requires start <= db.seen && SeenWithin(db.seen, start, allowed)
    modifies db`ops, db`working, db`committed, db`seen
    ensures db.Valid() && db.ops > old(db.ops)
    ensures Ran(o, db.script, old(db.ops), db.ops)
    ensures db.committed in allowed
    ensures start <= db.seen && SeenWithin(db.seen, start, allowed)
    ensures o.Done? ==> db.working == db.committed == Partly(before, n, KbGone)
  {
    o := CommitChange(db, db.working.(kb := Filter(db.working.kb, KbBelow(n))), allowed, start);
  }

  method DeleteRounds(db: Database, n: int, ghost before: Tables, ghost allowed: iset<Tables>, ghost start: set<Tables>)
    returns (o: Outcome)
    requires db.Valid() && db.working == db.committed == Partly(before, n, KbGone)
    requires db.committed in allowed && RolledBack(before, n) in allowed
    requires start <= db.seen && SeenWithin(db.seen, start, allowed)
    modifies db`ops, db`working, db`committed, db`seen
    ensures db.Valid() && db.ops > old(db.ops)
    ensures Ran(o, db.script, old(db.ops), db.ops)
    ensures db.committed in allowed
    ensures start <= db.seen && SeenWithin(db.seen, start, allowed)
    ensures o.Done? ==> db.working == db.committed == RolledBack(before, n)
  {
    o := CommitChange(db, db.working.(rounds := Filter(db.working.rounds, NumberBelow(n))), allowed, start);
  }

  /** Score rows, manifests, rounds. */
  method DeleteRest(db: Database, n: int, ghost before: Tables, ghost allowed: iset<Tables>, ghost start: set<Tables>)
    returns (o: Outcome)
    requires db.Valid() && db.working == db.committed == WithoutChecks(before, IdsFrom(before.rounds, n))
    requires db.committed in allowed && Partly(before, n, RowsGone) in allowed && Partly(before, n, KbGone) in allowed
    requires RolledBack(before, n) in allowed
    requires start <= db.seen && SeenWithin(db.seen, start, allowed)
    modifies db`ops, db`working, db`committed, db`seen
    ensures db.Valid() && db.ops > old(db.ops)
    ensures Ran(o, db.script, old(db.ops), db.ops)
    ensures db.committed in allowed
    ensures start <= db.seen && SeenWithin(db.seen, start, allowed)
    ensures o.Done? ==> db.working == db.committed == RolledBack(before, n)
  {
    o := DeleteScores(db, n, before, allowed, start);
    if o.Raised? { return; }
    o := DeleteManifests(db, n, before, allowed, start);
    if o.Raised? { return; }
    o := DeleteRounds(db, n, before, allowed, start);
  }

  /** All four deletions. */
  method DeleteFrom(db: Database, n: int, ghost allowed: iset<Tables>) returns (o: Outcome)
    requires db.Valid() && db.working == db.committed && Allows(db.committed, n, allowed)
    modifies db`ops, db`working, db`committed, db`seen
    ensures db.Valid() && db.ops > old(db.ops)
    ensures Ran(o, db.script, old(db.ops), db.ops)
    ensures db.committed in allowed
    ensures old(db.seen) <= db.seen && SeenWithin(db.seen, old(db.seen), allowed)
    ensures o.Done? ==> db.working == db.committed == RolledBack(old(db.committed), n)
  {
    o := db.Statement();
    if o.Raised? { return; }
    o := DeleteChecks(db, IdsFrom(db.working.rounds, n), allowed, db.seen);
    if o.Raised? { return; }
    o := DeleteRest(db, n, old(db.committed), allowed, old(db.seen));
  }

  method AdminRollback(db: Database, n: int) returns (result: RollbackResult)
    requires db.Valid()
    modifies db`ops, db`working, db`committed, db`seen
    ensures db.Valid() && db.ops >= old(db.ops)
    ensures Ran(if result.Interrupted? then Raised else Done, db.script, old(db.ops), db.ops)
    ensures n < 1 ==> result.Rejected?
    ensures result.Rejected? ==> db.committed == old(db.committed) && db.seen == old(db.seen)
    ensures result.Rejected? ==> n < 1 || LastNumber(old(db.committed.rounds)) < n
    ensures result.Finished? ==> 1 <= n <= LastNumber(old(db.committed.rounds))
    ensures result.Finished? ==> db.working == db.committed == RolledBack(old(db.committed), n)
    ensures db.committed == old(db.committed)
            || (1 <= n <= LastNumber(old(db.committed.rounds)) && db.committed in Points(old(db.committed), n))
    ensures old(db.seen) <= db.seen && SeenWithin(db.seen, old(db.seen), Points(old(db.committed), n))
    ensures !(1 <= n <= LastNumber(old(db.committed.rounds))) ==> db.seen == old(db.seen)
  {
    if n < 1 { return Rejected; }
    var o := db.Rollback();
    if o.Raised? { return Interrupted; }
    var current := LastNumber(db.working.rounds);
    if current == 0 || n > current { return Rejected; }
    o := DeletePlanned(db, n);
    return if o.Raised? then Interrupted else Finished;
  }

  /** The deletions, and all that readers may see of them. */
  method DeletePlanned(db: Database, n: int) returns (o: Outcome)
    requires db.Valid() && db.working == db.committed
    modifies db`ops, db`working, db`committed, db`seen
    ensures db.Valid() && db.ops > old(db.ops)
    ensures Ran(o, db.script, old(db.ops), db.ops)
    ensures db.committed in Points(old(db.committed), n)
    ensures old(db.seen) <= db.seen && SeenWithin(db.seen, old(db.seen), Points(old(db.committed), n))
    ensures o.Done? ==> db.working == db.committed == RolledBack(old(db.committed), n)
  {
    AllPoints(db.committed, n);
    o := DeleteFrom(db, n, Points(db.committed, n));
  }

  // ---- Repeating a rollback that was cut short ----

  /** From wherever it was cut short, the same rollback reaches the same tables ... */
  lemma RetryReaches(t: Tables, n: int, p: Progress)
    requires ValidProgress(p, t, n)
    ensures RolledBack(Partly(t, n, p), n) == RolledBack(t, n)
  {
    var u, ids := Partly(t, n, p), IdsFrom(t.rounds, n);
    FilterFilter(t.rounds, NumberBelow(n), NumberBelow(n), NumberBelow(n));
    FilterFilter(t.scores, RowBelow(n), RowBelow(n), RowBelow(n));
    FilterFilter(t.kb, KbBelow(n), KbBelow(n), KbBelow(n));
    if p.RoundsGone? {
      FilterNone(u.rounds, AtLeast(n));
      assert IdsFrom(u.rounds, n) == [];
      FilterAll(u.checks, KeepCheck({}));
      assert SetOf(IdsFrom(u.rounds, n)) == {};
    } else {
      var gone := if p.ChecksGone? then ids[..p.i] else ids;
      assert forall id | id in gone :: id in ids;
      FilterFilter(t.checks, KeepCheck(SetOf(gone)), KeepCheck(SetOf(ids)), KeepCheck(SetOf(ids)));
    }
  }

  /** ... and is refused exactly when those tables are already there. */
  lemma RetryRefusedExactlyWhenDone(t: Tables, n: int, p: Progress)
    requires ValidProgress(p, t, n) && Numbered(t.rounds) && 1 <= n <= |t.rounds|
    ensures LastNumber(Partly(t, n, p).rounds) < n <==> p.RoundsGone?
  {
    LastNumberCounts(t.rounds);
    PrefixOfNumbered(t.rounds, n);
    LastNumberCounts(t.rounds[..n - 1]);
  }

  // ---- What a finished rollback leaves ----

  lemma {:induction false} PrefixOfNumbered(rounds: seq<Round>, n: int)
    requires Numbered(rounds) && 1 <= n <= |rounds| + 1
    ensures Filter(rounds, NumberBelow(n)) == rounds[..n - 1]
  {
    FilterHead(rounds, n - 1, NumberBelow(n));
  }

  /** A round's key is on the deletion list exactly when its number is. */
  lemma DoomedIds(t: Tables, n: int, r: Round)
    requires Linked(t) && r in t.rounds
    ensures r.id in IdsFrom(t.rounds, n) <==> r.number >= n
  {
    var doomed, ids := Filter(t.rounds, AtLeast(n)), IdsFrom(t.rounds, n);
    if r.number >= n {
      var k :| 0 <= k < |doomed| && doomed[k] == r;
      assert ids[k] == r.id;
    } else if r.id in ids {
      var k :| 0 <= k < |ids| && ids[k] == r.id;
      assert doomed[k] in t.rounds;
      SameIdSameRound(t.rounds, r, doomed[k]);
    }
  }

  /** The row's round has a number below `n`. */
  ghost predicate Below(t: Tables, id: int, n: int) {
    exists r :: r in t.rounds && r.id == id && r.number < n
  }

  lemma CheckOrRowBelow(t: Tables, n: int)
    requires Linked(t)
    ensures forall c | c in t.checks :: Below(t, c.round, n) <==> KeepCheck(SetOf(IdsFrom(t.rounds, n)))(c)
    ensures forall row | row in t.scores :: Below(t, row.round, n) <==> RowBelow(n)(row)
    ensures forall row | row in t.scores :: RowBelow(n)(row) <==> KeepScore(SetOf(IdsFrom(t.rounds, n)))(row)
  {
    forall r | r in t.rounds ensures r.id in IdsFrom(t.rounds, n) <==> r.number >= n {
      DoomedIds(t, n, r);
    }
    forall c | c in t.checks ensures Below(t, c.round, n) <==> KeepCheck(SetOf(IdsFrom(t.rounds, n)))(c) {
      var r :| r in t.rounds && r.id == c.round;
    }
    forall row | row in t.scores
      ensures RowBelow(n)(row) <==> KeepScore(SetOf(IdsFrom(t.rounds, n)))(row)
      ensures Below(t, row.round, n) <==> RowBelow(n)(row)
    {
      var r :| r in t.rounds && r.id == row.round && r.number == row.number;
    }
  }

  /** Exactly the rounds, checks and score rows below `n` survive, and no score row outlives its round. */
  lemma RollbackKeepsExactlyTheEarlierRounds(t: Tables, n: int)
    requires Linked(t) && Numbered(t.rounds) && 1 <= n <= |t.rounds| + 1
    ensures var u := RolledBack(t, n);
            && u.rounds == t.rounds[..n - 1]
            && (forall c :: c in u.checks <==> c in t.checks && Below(t, c.round, n))
            && (forall row :: row in u.scores <==> row in t.scores && Below(t, row.round, n))
            && (forall kb :: kb in u.kb <==> kb in t.kb && kb.round < n)
  {
    PrefixOfNumbered(t.rounds, n);
    CheckOrRowBelow(t, n);
  }

  lemma RollbackIsLinked(t: Tables, n: int)
    requires Linked(t) && Numbered(t.rounds) && 1 <= n <= |t.rounds| + 1
    ensures Linked(RolledBack(t, n)) && Numbered(RolledBack(t, n).rounds)
  {
    var u := RolledBack(t, n);
    PrefixOfNumbered(t.rounds, n);
    CheckOrRowBelow(t, n);
    forall i, j | 0 <= i < j < |u.rounds| ensures IdsIncrease(u.rounds[i], u.rounds[j]) {
      assert IdsIncrease(t.rounds[i], t.rounds[j]);
    }
    forall c | c in u.checks ensures HasId(u.rounds, c.round) {
      var r :| r in t.rounds && r.id == c.round && r.number < n;
      assert NumberBelow(n)(r) && r in u.rounds;
    }
    forall row | row in u.scores ensures HasRound(u.rounds, row.round, row.number) {
      var r :| r in t.rounds && r.id == row.round && r.number == row.number;
      assert NumberBelow(n)(r) && r in u.rounds;
    }
  }

  /** At every point of a rollback the links and the numbering are right. */
  lemma PartlyIsLinked(u: Tables, t: Tables, n: int)
    requires Linked(t) && Numbered(t.rounds) && 1 <= n <= |t.rounds| + 1 && IsPartly(u, t, n)
    ensures Linked(u) && Numbered(u.rounds)
  {
    var p :| ValidProgress(p, t, n) && u == Partly(t, n, p);
    StoppedIsLinked(t, n, p);
  }

  lemma StoppedIsLinked(t: Tables, n: int, p: Progress)
    requires Linked(t) && Numbered(t.rounds) && 1 <= n <= |t.rounds| + 1 && ValidProgress(p, t, n)
    ensures Linked(Partly(t, n, p)) && Numbered(Partly(t, n, p).rounds)
  {
    if p.RoundsGone? {
      RollbackIsLinked(t, n);
    }
  }

  /** A finished rollback keeps links, numbering and scores right; the streaks may be stale. */
  lemma RollbackIsSound(t: Tables, n: int, services: seq<Service>)
    requires Sound(t, services) && 1 <= n <= |t.rounds| + 1
    ensures Sound(RolledBack(t, n), services)
  {
    var u := RolledBack(t, n);
    RollbackIsLinked(t, n);
    FilterPairwise(t.scores, RowBelow(n), DifferentKey);
    forall id, team ensures Sum(u.scores, RowPoints(id, team)) == Sum(u.checks, CheckPoints(services, id, team)) {
      KeptSums(t, n, id, team, services);
    }
  }

  lemma KeptSums(t: Tables, n: int, id: int, team: int, services: seq<Service>)
    requires Sound(t, services) && 1 <= n <= |t.rounds| + 1
    ensures var u := RolledBack(t, n);
            Sum(u.scores, RowPoints(id, team)) == Sum(u.checks, CheckPoints(services, id, team))
  {
    CheckOrRowBelow(t, n);
    var ids := SetOf(IdsFrom(t.rounds, n));
    var rowPoints, checkPoints := RowPoints(id, team), CheckPoints(services, id, team);
    SumFilter(t.scores, RowBelow(n), rowPoints);
    SumFilter(t.checks, KeepCheck(ids), checkPoints);
    if id in ids {
      SumZero(t.scores, Masked(RowBelow(n), rowPoints));
      SumZero(t.checks, Masked(KeepCheck(ids), checkPoints));
    } else {
      SumEq(t.scores, Masked(RowBelow(n), rowPoints), rowPoints);
      SumEq(t.checks, Masked(KeepCheck(ids), checkPoints), checkPoints);
      assert Sum(t.scores, RowPoints(id, team)) == Sum(t.checks, CheckPoints(services, id, team));
    }
  }

  // ---- What a later rollback makes of damage above it ----

  /** All that the score table and its checks are about. */
  predicate SameCore(t: Tables, u: Tables) { t.rounds == u.rounds && t.checks == u.checks && t.scores == u.scores }

  /** Rolling back to `n` and then to `m` keeps what lies below both. */
  lemma RollTwice(t: Tables, n: int, m: int)
    requires Linked(t) && Numbered(t.rounds) && 1 <= n <= |t.rounds| + 1
    ensures SameCore(RolledBack(RolledBack(t, n), m), RolledBack(t, if m < n then m else n))
  {
    var u, least := RolledBack(t, n), if m < n then m else n;
    RollbackIsLinked(t, n);
    FilterFilter(t.rounds, NumberBelow(n), NumberBelow(m), NumberBelow(least));
    FilterFilter(t.scores, RowBelow(n), RowBelow(m), RowBelow(least));
    forall c | c in t.checks
      ensures KeepCheck(SetOf(IdsFrom(t.rounds, least)))(c) <==>
              KeepCheck(SetOf(IdsFrom(t.rounds, n)))(c) && KeepCheck(SetOf(IdsFrom(u.rounds, m)))(c)
    {
      var r :| r in t.rounds && r.id == c.round;
      DoomedIds(t, n, r);
      DoomedIds(t, least, r);
      if r.number < n {
        assert r in u.rounds;
        DoomedIds(u, m, r);
      }
    }
    FilterFilter(t.checks, KeepCheck(SetOf(IdsFrom(t.rounds, n))), KeepCheck(SetOf(IdsFrom(u.rounds, m))),
                 KeepCheck(SetOf(IdsFrom(t.rounds, least))));
  }

  /** A rollback to `m` that was cut short has touched nothing below `m`. */
  lemma PartlyKeepsBelow(u: Tables, t: Tables, m: int, n: int)
    requires Linked(t) && Numbered(t.rounds) && 1 <= n <= m <= |t.rounds| + 1 && IsPartly(u, t, m)
    ensures SameCore(RolledBack(u, n), RolledBack(t, n))
  {
    var p :| ValidProgress(p, t, m) && u == Partly(t, m, p);
    ProgressKeepsBelow(t, m, p, n);
  }

  lemma ProgressKeepsBelow(t: Tables, m: int, p: Progress, n: int)
    requires Linked(t) && Numbered(t.rounds) && 1 <= n <= m <= |t.rounds| + 1 && ValidProgress(p, t, m)
    ensures SameCore(RolledBack(Partly(t, m, p), n), RolledBack(t, n))
  {
    if p.RoundsGone? {
      RollTwice(t, m, n);
    } else {
      var ids := IdsFrom(t.rounds, m);
      GoneKeepsBelow(t, if p.ChecksGone? then ids[..p.i] else ids, m, n);
      FilterFilter(t.scores, RowBelow(m), RowBelow(n), RowBelow(n));
    }
  }

  lemma GoneKeepsBelow(t: Tables, gone: seq<int>, m: int, n: int)
    requires Linked(t) && n <= m && forall id | id in gone :: id in IdsFrom(t.rounds, m)
    ensures RolledBack(WithoutChecks(t, gone), n).checks == RolledBack(t, n).checks
  {
    var keep := KeepCheck(SetOf(IdsFrom(t.rounds, n)));
    forall c | c in t.checks ensures keep(c) ==> KeepCheck(SetOf(gone))(c) {
      var r :| r in t.rounds && r.id == c.round;
      DoomedIds(t, n, r);
      DoomedIds(t, m, r);
    }
    FilterFilter(t.checks, KeepCheck(SetOf(gone)), keep, keep);
  }

  /** Neither has a round attempted since. */
  lemma StageKeepsBelow(t: Tables, pre: Tables, a: Attempt, n: int)
    requires Linked(pre) && Numbered(pre.rounds) && FreshAttempt(pre, a) && Stage(t, pre, a)
    requires 1 <= n <= |pre.rounds| + 1
    ensures SameCore(RolledBack(t, n), RolledBack(pre, n))
  {
    if t.rounds != pre.rounds {
      var r := t.rounds[|pre.rounds|];
      assert t.rounds == pre.rounds + [r];
      FilterAppend(pre.rounds, [r], NumberBelow(n));
      FilterNone([r], NumberBelow(n));
      StageIds(t, pre, a, n, r);
      StageChecks(t, pre, a, n);
      StageRowsBelow(t, pre, a, n);
    }
  }

  lemma StageRowsBelow(t: Tables, pre: Tables, a: Attempt, n: int)
    requires a.number >= n && (Opened(t, pre, a) || Closed(t, pre, a))
    ensures Filter(t.scores, RowBelow(n)) == Filter(pre.scores, RowBelow(n))
  {
    if Closed(t, pre, a) {
      var rows := t.scores[|pre.scores|..];
      assert t.scores == pre.scores + rows;
      FilterAppend(pre.scores, rows, RowBelow(n));
      FilterNone(rows, RowBelow(n));
    }
  }

  lemma StageIds(t: Tables, pre: Tables, a: Attempt, n: int, r: Round)
    requires t.rounds == pre.rounds + [r] && r.id == a.id && r.number >= n
    ensures SetOf(IdsFrom(t.rounds, n)) == SetOf(IdsFrom(pre.rounds, n)) + {a.id}
  {
    FilterAppend(pre.rounds, [r], AtLeast(n));
    FilterAll([r], AtLeast(n));
    assert IdsFrom(t.rounds, n) == IdsFrom(pre.rounds, n) + [a.id];
  }

  lemma StageChecks(t: Tables, pre: Tables, a: Attempt, n: int)
    requires Linked(pre) && FreshAttempt(pre, a) && (Opened(t, pre, a) || Closed(t, pre, a))
    requires SetOf(IdsFrom(t.rounds, n)) == SetOf(IdsFrom(pre.rounds, n)) + {a.id}
    ensures RolledBack(t, n).checks == RolledBack(pre, n).checks
  {
    OlderRounds(pre, a.id);
    var ids, more := SetOf(IdsFrom(pre.rounds, n)), SetOf(IdsFrom(t.rounds, n));
    FilterSame(pre.checks, KeepCheck(ids), KeepCheck(more));
    if Closed(t, pre, a) {
      FilterAppend(pre.checks, a.checks, KeepCheck(more));
      FilterNone(a.checks, KeepCheck(more));
    }
  }

  lemma CoreIsSound(t: Tables, u: Tables, services: seq<Service>)
    requires SameCore(t, u) && Sound(t, services)
    ensures Sound(u, services)
  {
    forall id, team ensures Sum(u.scores, RowPoints(id, team)) == Sum(u.checks, CheckPoints(services, id, team)) {
      assert Sum(t.scores, RowPoints(id, team)) == Sum(t.checks, CheckPoints(services, id, team));
    }
  }

  // ---- Stale streaks ----

  lemma {:induction false} Partition<T>(s: seq<T>, p: T -> bool, q: T -> bool)
    requires forall x | x in s :: q(x) <==> !p(x)
    ensures multiset(s) == multiset(Filter(s, p)) + multiset(Filter(s, q))
  {
    if s != [] {
      assert s == [s[0]] + s[1..];
      Partition(s[1..], p, q);
    }
  }

  /** The batched count does not depend on the order of the checks table. */
  lemma TrailingPermutation(a: seq<Check>, b: seq<Check>, service: int)
    requires multiset(a) == multiset(b)
    ensures TrailingFailures(a, service) == TrailingFailures(b, service)
  {
    forall c ensures c in a <==> c in b {
      assert c in a <==> c in multiset(a);
      assert c in b <==> c in multiset(b);
    }
    LastPassPermutation(a, b, service);
    SumPermutation(a, b, CountedFailure(service, LastPass(a, service)));
  }

  function DeletedCheck(ids: set<int>): Check -> bool { (c: Check) => c.round in ids }

  /**
   The rollback leaves the streak column alone, so a streak that was right stays right
   exactly when the deleted checks of the service held no pass and no failure, or held
   a pass after which it failed as often as it had at the point rolled back to.
   */
  lemma StreakAfterRollback(t: Tables, n: int, service: int)
    requires Linked(t) && Numbered(t.rounds) && service in t.streaks && StreakMatches(t, service)
    ensures var kept := RolledBack(t, n).checks;
            var deleted := Filter(t.checks, DeletedCheck(SetOf(IdsFrom(t.rounds, n))));
            StreakMatches(RolledBack(t, n), service) <==>
            if AnyPass(deleted, service) then TrailingFailures(deleted, service) == TrailingFailures(kept, service)
            else Failures(deleted, service) == 0
  {
    var ids := SetOf(IdsFrom(t.rounds, n));
    var kept, deleted := Filter(t.checks, KeepCheck(ids)), Filter(t.checks, DeletedCheck(ids));
    Partition(t.checks, KeepCheck(ids), DeletedCheck(ids));
    assert multiset(kept + deleted) == multiset(kept) + multiset(deleted);
    TrailingPermutation(t.checks, kept + deleted, service);
    forall a, b | a in kept && b in deleted ensures a.round < b.round {
      KeptBeforeDeleted(t, n, a, b);
    }
    SplitHistory(kept, deleted, service);
  }

  lemma KeptBeforeDeleted(t: Tables, n: int, a: Check, b: Check)
    requires Linked(t) && Numbered(t.rounds) && a in t.checks && b in t.checks
    requires a.round !in IdsFrom(t.rounds, n) && b.round in IdsFrom(t.rounds, n)
    ensures a.round < b.round
  {
    var r :| r in t.rounds && r.id == a.round;
    var x :| x in t.rounds && x.id == b.round;
    DoomedIds(t, n, r);
    DoomedIds(t, n, x);
    var i :| 0 <= i < |t.rounds| && t.rounds[i] == r;
    var j :| 0 <= j < |t.rounds| && t.rounds[j] == x;
    assert IdsIncrease(t.rounds[i], t.rounds[j]);
  }

  /** One failing round, rolled back: no check is left, yet the column still says one failure. */
  lemma RollbackLeavesStaleStreak()
    ensures var t := Tables([Round(1, 1, 0, Some(0))], [Check(1, 1, false, true)], [], map[1 := 1], []);
            Consistent(t, [Service(1, 1, 100)]) && !StreaksMatch(RolledBack(t, 1))
  {
    var t := Tables([Round(1, 1, 0, Some(0))], [Check(1, 1, false, true)], [], map[1 := 1], []);
    var services := [Service(1, 1, 100)];
    assert t.rounds[0] in t.rounds && t.checks[1..] == [];
    assert forall s :: StreakMatches(t, s) by {
      assert TrailingFailures(t.checks, 1) == 1;
    }
    forall id, team ensures Sum(t.scores, RowPoints(id, team)) == Sum(t.checks, CheckPoints(services, id, team)) {
      SumZero(t.checks, CheckPoints(services, id, team));
    }
    var doomed, ids := Filter(t.rounds, AtLeast(1)), IdsFrom(t.rounds, 1);
    assert doomed == [t.rounds[0]] + Filter(t.rounds[1..], AtLeast(1)) && ids[0] == 1;
    assert RolledBack(t, 1).checks == [];
    assert !StreakMatches(RolledBack(t, 1), 1);
  }
}
