/** The states one round attempt can leave behind, and what cleaning up makes of them. */
module Lifecycle {
  import opened Sums
  import opened Store
  import opened Streaks
  import opened Scores
  import opened Tasks

  ghost predicate Sound(t: Tables, services: seq<Service>) {
    Linked(t) && Numbered(t.rounds) && ScoresMatch(t, services)
  }

  /** Both derived tables agree with the check history. */
  ghost predicate Consistent(t: Tables, services: seq<Service>) {
    Sound(t, services) && StreaksMatch(t)
  }

  /** Each streak is the one of `pre`, or the count over the checks of `pre`; the same thing unless it was stale. */
  ghost predicate StreaksKept(streaks: map<int, int>, pre: Tables) {
    && streaks.Keys == pre.streaks.Keys
    && (forall s | s in streaks ::
          streaks[s] == pre.streaks[s] || streaks[s] == TrailingFailures(pre.checks, s))
  }

  function IsManifest(number: int): Kb -> bool { (kb: Kb) => kb.name == TASK_IDS && kb.round == number }

  function OtherKb(number: int): Kb -> bool { (kb: Kb) => !(kb.name == TASK_IDS && kb.round == number) }

  function WithoutManifest(kb: seq<Kb>, number: int): seq<Kb> { Filter(kb, OtherKb(number)) }

  /** Nothing scored differs, and no knowledge-base row but manifests of round `number`. */
  ghost predicate SameData(t: Tables, pre: Tables, number: int) {
    && t.rounds == pre.rounds && t.checks == pre.checks && t.scores == pre.scores
    && StreaksKept(t.streaks, pre)
    && WithoutManifest(t.kb, number) == WithoutManifest(pre.kb, number)
  }

  /** A round attempt on top of the state `pre`. */
  datatype Attempt = Attempt(services: seq<Service>, number: int, id: int, start: int, end: int, checks: seq<Check>)

  ghost predicate Opened(t: Tables, pre: Tables, a: Attempt) {
    && t.rounds == pre.rounds + [Round(a.id, a.number, a.start, None)]
    && t.checks == pre.checks && t.scores == pre.scores && t.streaks == pre.streaks
    && t.kb == pre.kb + [Kb(TASK_IDS, a.number)]
  }

  ghost predicate RowsMatch(rows: seq<RoundScore>, a: Attempt) {
    && (forall row | row in rows :: row.round == a.id && row.number == a.number && row.points != 0)
    && Pairwise(rows, DifferentKey)
    && (forall team :: Sum(rows, RowPoints(a.id, team)) == Sum(a.checks, CheckPoints(a.services, a.id, team)))
  }

  ghost predicate StreaksFold(streaks: map<int, int>, before: map<int, int>, checks: seq<Check>) {
    && streaks.Keys == before.Keys
    && (forall s | s in before ::
          streaks[s] == if AnyPass(checks, s) then 0 else before[s] + Failures(checks, s))
  }

  ghost predicate Closed(t: Tables, pre: Tables, a: Attempt) {
    && t.rounds == pre.rounds + [Round(a.id, a.number, a.start, Some(a.end))]
    && t.checks == pre.checks + a.checks
    && pre.scores <= t.scores && RowsMatch(t.scores[|pre.scores|..], a)
    && StreaksFold(t.streaks, pre.streaks, a.checks)
    && t.kb == pre.kb + [Kb(TASK_IDS, a.number)]
  }

  ghost predicate Stage(t: Tables, pre: Tables, a: Attempt) {
    SameData(t, pre, a.number) || Opened(t, pre, a) || Closed(t, pre, a)
  }

  /** The next number, a key never used before, and one batch of checks of that round. */
  ghost predicate FreshAttempt(pre: Tables, a: Attempt) {
    && a.number == |pre.rounds| + 1
    && IdsBelow(pre.rounds, a.id)
    && (forall c | c in a.checks :: c.round == a.id && c.completed)
  }

  /** The manifest of a round is all that its knowledge base has more. */
  lemma ManifestAdded(t: Tables, pre: Tables, number: int)
    requires t.kb == pre.kb + [Kb(TASK_IDS, number)]
    ensures WithoutManifest(t.kb, number) == WithoutManifest(pre.kb, number)
  {
    FilterAppend(pre.kb, [Kb(TASK_IDS, number)], OtherKb(number));
  }

  lemma AppendRound(pre: Tables, r: Round)
    requires Pairwise(pre.rounds, IdsIncrease) && Numbered(pre.rounds)
    requires IdsBelow(pre.rounds, r.id) && r.number == |pre.rounds| + 1
    ensures Pairwise(pre.rounds + [r], IdsIncrease) && Numbered(pre.rounds + [r])
    ensures forall id | HasId(pre.rounds, id) :: HasId(pre.rounds + [r], id)
    ensures forall id, number | HasRound(pre.rounds, id, number) :: HasRound(pre.rounds + [r], id, number)
    ensures HasId(pre.rounds + [r], r.id) && HasRound(pre.rounds + [r], r.id, r.number)
  {
    var all := pre.rounds + [r];
    assert all[|pre.rounds|] == r && r in all;
    forall i, j | 0 <= i < j < |all| ensures IdsIncrease(all[i], all[j]) {
      assert all[i] in pre.rounds;
      assert j < |pre.rounds| ==> IdsIncrease(pre.rounds[i], pre.rounds[j]);
    }
    forall id | HasId(pre.rounds, id) ensures HasId(all, id) {
      var x :| x in pre.rounds && x.id == id;
      assert x in all;
    }
    forall id, number | HasRound(pre.rounds, id, number) ensures HasRound(all, id, number) {
      var x :| x in pre.rounds && x.id == id && x.number == number;
      assert x in all;
    }
  }

  lemma OlderRounds(t: Tables, bound: int)
    requires Linked(t) && IdsBelow(t.rounds, bound)
    ensures forall c | c in t.checks :: c.round < bound
    ensures forall row | row in t.scores :: row.round < bound
  {
  }

  lemma ClosedScores(t: Tables, pre: Tables, a: Attempt)
    requires Linked(pre) && ScoresMatch(pre, a.services) && FreshAttempt(pre, a) && Closed(t, pre, a)
    ensures ScoresMatch(t, a.services)
  {
    var rows := t.scores[|pre.scores|..];
    assert t.scores == pre.scores + rows;
    OlderRounds(pre, a.id);
    PairwiseAppend(pre.scores, rows, DifferentKey);
    forall id, team
      ensures Sum(t.scores, RowPoints(id, team)) == Sum(t.checks, CheckPoints(a.services, id, team))
    {
      SumAppend(pre.scores, rows, RowPoints(id, team));
      SumAppend(pre.checks, a.checks, CheckPoints(a.services, id, team));
      if id == a.id {
        assert Sum(rows, RowPoints(id, team)) == Sum(a.checks, CheckPoints(a.services, id, team));
      } else {
        SumZero(rows, RowPoints(id, team));
        SumZero(a.checks, CheckPoints(a.services, id, team));
      }
    }
  }

  lemma ClosedStreaks(t: Tables, pre: Tables, a: Attempt, service: int)
    requires Linked(pre) && FreshAttempt(pre, a) && Closed(t, pre, a)
    ensures StreakMatches(pre, service) ==> StreakMatches(t, service)
    ensures AnyPass(a.checks, service) ==> StreakMatches(t, service)
  {
    OlderRounds(pre, a.id);
    CloseStreak(pre.checks, a.checks, service, a.id);
  }

  lemma StagesAreLinked(t: Tables, pre: Tables, a: Attempt)
    requires Linked(pre) && Numbered(pre.rounds) && FreshAttempt(pre, a) && Stage(t, pre, a)
    ensures Linked(t) && Numbered(t.rounds)
  {
    if Opened(t, pre, a) {
      AppendRound(pre, Round(a.id, a.number, a.start, None));
    } else if Closed(t, pre, a) {
      AppendRound(pre, Round(a.id, a.number, a.start, Some(a.end)));
      assert t.scores == pre.scores + t.scores[|pre.scores|..];
    }
  }

  /** Whatever part of a round has been committed, the score table agrees with the checks ... */
  lemma StagesAreSound(t: Tables, pre: Tables, a: Attempt)
    requires Sound(pre, a.services) && FreshAttempt(pre, a) && Stage(t, pre, a)
    ensures Sound(t, a.services)
  {
    StagesAreLinked(t, pre, a);
    if Closed(t, pre, a) {
      ClosedScores(t, pre, a);
    }
  }

  /** ... no correct streak becomes wrong, and a passing service's streak is right from then on. */
  lemma StagesKeepStreaks(t: Tables, pre: Tables, a: Attempt, service: int)
    requires Linked(pre) && FreshAttempt(pre, a) && Stage(t, pre, a)
    ensures StreakMatches(pre, service) ==> StreakMatches(t, service)
    ensures Closed(t, pre, a) && AnyPass(a.checks, service) ==> StreakMatches(t, service)
  {
    if Closed(t, pre, a) {
      ClosedStreaks(t, pre, a, service);
    }
  }

  lemma StagesAreConsistent(t: Tables, pre: Tables, a: Attempt)
    requires Consistent(pre, a.services) && FreshAttempt(pre, a) && Stage(t, pre, a)
    ensures Consistent(t, a.services)
  {
    StagesAreSound(t, pre, a);
    forall s ensures StreakMatches(t, s) {
      assert StreakMatches(pre, s);
      StagesKeepStreaks(t, pre, a, s);
    }
  }

  // ---- Cleaning up ----

  function RoundIds(rounds: seq<Round>, number: int): set<int> {
    set r | r in rounds && r.number == number :: r.id
  }

  function Touched(checks: seq<Check>, ids: set<int>): set<int> {
    set c | c in checks && c.round in ids :: c.service
  }

  function KeepRound(ids: set<int>): Round -> bool { (r: Round) => r.id !in ids }

  function KeepCheck(ids: set<int>): Check -> bool { (c: Check) => c.round !in ids }

  function KeepScore(ids: set<int>): RoundScore -> bool { (row: RoundScore) => row.round !in ids }

  /** The rounds `ids` and their rows deleted, the streaks rebuilt for the services they touched. */
  ghost function WithoutRounds(t: Tables, ids: set<int>): Tables {
    var checks := Filter(t.checks, KeepCheck(ids));
    t.(checks := checks,
       scores := Filter(t.scores, KeepScore(ids)),
       rounds := Filter(t.rounds, KeepRound(ids)),
       streaks := Recomputed(t.streaks, checks, Some(Touched(t.checks, ids))))
  }

  /** The state one cleanup transaction commits. */
  ghost function CleanedUp(t: Tables, number: int): Tables {
    WithoutRounds(t, RoundIds(t.rounds, number)).(kb := WithoutManifest(t.kb, number))
  }

  lemma NewestIds(t: Tables, pre: Tables, a: Attempt, r: Round)
    requires Numbered(pre.rounds) && FreshAttempt(pre, a)
    requires t.rounds == pre.rounds + [r] && r.id == a.id && r.number == a.number
    ensures RoundIds(t.rounds, a.number) == {a.id}
    ensures Filter(t.rounds, KeepRound({a.id})) == pre.rounds
  {
    assert t.rounds[|pre.rounds|] == r;
    FilterPrefix(pre.rounds, [r], KeepRound({a.id}));
  }

  lemma CleanupStreaks(t: Tables, pre: Tables, a: Attempt)
    requires StreaksFold(t.streaks, pre.streaks, a.checks)
    requires t.checks == pre.checks + a.checks
    requires forall c | c in a.checks :: c.round == a.id
    ensures StreaksKept(Recomputed(t.streaks, pre.checks, Some(Touched(t.checks, {a.id}))), pre)
  {
    var touched := Touched(t.checks, {a.id});
    forall s | s in pre.streaks && s !in touched ensures t.streaks[s] == pre.streaks[s] {
      forall c | c in a.checks ensures c.service != s {
        assert c in t.checks && c.round in {a.id};
      }
      SumZero(a.checks, AnyFailure(s));
    }
  }

  lemma CleanupClosed(t: Tables, pre: Tables, a: Attempt)
    requires Linked(pre) && Numbered(pre.rounds) && FreshAttempt(pre, a) && Closed(t, pre, a)
    ensures SameData(CleanedUp(t, a.number), pre, a.number)
  {
    NewestIds(t, pre, a, Round(a.id, a.number, a.start, Some(a.end)));
    OlderRounds(pre, a.id);
    ManifestAdded(t, pre, a.number);
    var rows := t.scores[|pre.scores|..];
    assert t.scores == pre.scores + rows;
    FilterPrefix(pre.checks, a.checks, KeepCheck({a.id}));
    FilterPrefix(pre.scores, rows, KeepScore({a.id}));
    CleanupStreaks(t, pre, a);
    FilterAll(WithoutManifest(t.kb, a.number), OtherKb(a.number));
  }

  lemma NothingToDelete(t: Tables, ids: set<int>)
    requires forall c | c in t.checks :: c.round !in ids
    requires forall row | row in t.scores :: row.round !in ids
    ensures Filter(t.checks, KeepCheck(ids)) == t.checks
    ensures Filter(t.scores, KeepScore(ids)) == t.scores
    ensures Recomputed(t.streaks, t.checks, Some(Touched(t.checks, ids))) == t.streaks
  {
    FilterAll(t.checks, KeepCheck(ids));
    FilterAll(t.scores, KeepScore(ids));
    assert Touched(t.checks, ids) == {};
  }

  lemma CleanupUnscored(t: Tables, pre: Tables, a: Attempt)
    requires Linked(pre) && Numbered(pre.rounds) && FreshAttempt(pre, a)
    requires SameData(t, pre, a.number) || Opened(t, pre, a)
    ensures SameData(CleanedUp(t, a.number), pre, a.number)
  {
    OlderRounds(pre, a.id);
    if Opened(t, pre, a) {
      NewestIds(t, pre, a, Round(a.id, a.number, a.start, None));
      ManifestAdded(t, pre, a.number);
      NothingToDelete(t, {a.id});
    } else {
      assert RoundIds(t.rounds, a.number) == {};
      FilterAll(t.rounds, KeepRound({}));
      NothingToDelete(t, {});
    }
    FilterAll(WithoutManifest(t.kb, a.number), OtherKb(a.number));
  }

  /** Cleaning up undoes every stage of the attempt: nothing of it is left and nothing else is lost. */
  lemma CleanupRestores(t: Tables, pre: Tables, a: Attempt)
    requires Linked(pre) && Numbered(pre.rounds) && FreshAttempt(pre, a) && Stage(t, pre, a)
    ensures SameData(CleanedUp(t, a.number), pre, a.number)
    ensures forall kb | kb in CleanedUp(t, a.number).kb :: !IsManifest(a.number)(kb)
    ensures StreaksMatch(pre) ==> CleanedUp(t, a.number) == pre.(kb := WithoutManifest(pre.kb, a.number))
  {
    if t.kb == pre.kb + [Kb(TASK_IDS, a.number)] {
      ManifestAdded(t, pre, a.number);
    }
    if Closed(t, pre, a) {
      CleanupClosed(t, pre, a);
    } else {
      CleanupUnscored(t, pre, a);
    }
    if StreaksMatch(pre) {
      var cleaned := CleanedUp(t, a.number).streaks;
      forall s | s in cleaned ensures cleaned[s] == pre.streaks[s] {
        assert StreakMatches(pre, s);
      }
      assert cleaned == pre.streaks;
    }
  }

  /** Rebuilding only the touched services is as good as rebuilding all of them. */
  lemma PartialRebuildSuffices(t: Tables, ids: set<int>)
    requires StreaksMatch(t)
    ensures StreaksMatch(WithoutRounds(t, ids))
    ensures WithoutRounds(t, ids).streaks == Recomputed(t.streaks, Filter(t.checks, KeepCheck(ids)), None)
  {
    var u, all := WithoutRounds(t, ids), Recomputed(t.streaks, Filter(t.checks, KeepCheck(ids)), None);
    forall s | s in t.streaks ensures u.streaks[s] == all[s] {
      assert StreakMatches(t, s);
      if s !in Touched(t.checks, ids) {
        DeleteUntouched(t.checks, KeepCheck(ids), s);
      }
    }
    assert u.streaks == all;
  }

  // ---- One check per service and round ----

  predicate DifferentSlot(a: Check, b: Check) { a.round != b.round || a.service != b.service }

  ghost predicate OneCheckEach(t: Tables) { Pairwise(t.checks, DifferentSlot) }

  lemma OneCheckEachIsUnmixed(t: Tables, service: int)
    requires OneCheckEach(t)
    ensures !MixedLastPass(t.checks, service)
  {
    var last := LastPass(t.checks, service);
    LastPassIs(t.checks, service);
    if last.Some? {
      var p :| p in t.checks && Passed(p, service) && p.round == last.value;
      var i :| 0 <= i < |t.checks| && t.checks[i] == p;
      forall c | c in t.checks && Failed(c, service) ensures c.round != last.value {
        var j :| 0 <= j < |t.checks| && t.checks[j] == c;
        assert if i < j then DifferentSlot(p, c) else DifferentSlot(c, p);
      }
    }
  }

  /** Where every round has one check per service, the column is what the backward scan counts. */
  lemma {:induction false} StreakIsTheScan(t: Tables, service: int, rows: seq<Check>)
    requires OneCheckEach(t) && service in t.streaks && StreakMatches(t, service)
    requires QueryResult(rows, t.checks, service)
    ensures t.streaks[service] == LeadingFailures(rows)
  {
    OneCheckEachIsUnmixed(t, service);
    ScanAgreesExactlyWhenUnmixed(t.checks, service);
  }

  lemma StagesKeepOneCheckEach(t: Tables, pre: Tables, a: Attempt)
    requires OneCheckEach(pre) && Linked(pre) && FreshAttempt(pre, a) && Stage(t, pre, a)
    requires Pairwise(a.checks, DifferentService)
    ensures OneCheckEach(t)
  {
    if Closed(t, pre, a) {
      OlderRounds(pre, a.id);
      forall i, j | 0 <= i < j < |a.checks| ensures DifferentSlot(a.checks[i], a.checks[j]) {
        assert DifferentService(a.checks[i], a.checks[j]);
      }
      PairwiseAppend(pre.checks, a.checks, DifferentSlot);
    }
  }
}
