/** The engine's round protocol: dispatch, three commits, cleanup on any exception, retry. */
module Engine {
  import opened Sums
  import opened Store
  import opened Streaks
  import opened Scores
  import opened Tasks
  import opened Lifecycle
  import opened Rollback
  import opened Plans
  import opened Runs
  import opened Turns
  import opened Schedule

  const CLEANUP_MAX_ATTEMPTS: nat := 3

  class Engine {
    const db: Database
    const reader: ResultReader
    const services: seq<Service>
    const search: Search
    const totalRounds: nat
    const maxRoundFailures: nat
    var currentRound: int
    var roundsRun: nat
    var roundFailures: nat
    var lastRound: bool

    ghost predicate Valid()
      reads this, db
    {
      && db.Valid()
      && Linked(db.committed) && Numbered(db.committed.rounds)
      && |db.committed.rounds| <= currentRound
    }

    constructor (db: Database, services: seq<Service>, search: Search, totalRounds: nat, maxRoundFailures: nat)
      requires db.Valid() && Linked(db.committed) && Numbered(db.committed.rounds)
      ensures Valid() && this.db == db && this.services == services && fresh(reader)
      ensures this.totalRounds == totalRounds && this.maxRoundFailures == maxRoundFailures
      ensures currentRound == |db.committed.rounds| && roundsRun == 0 && roundFailures == 0 && !lastRound
    {
      LastNumberCounts(db.committed.rounds);
      this.db := db;
      this.reader := new ResultReader();
      this.services := services;
      this.search := search;
      this.totalRounds := totalRounds;
      this.maxRoundFailures := maxRoundFailures;
      this.currentRound := LastNumber(db.committed.rounds);
      this.roundsRun := 0;
      this.roundFailures := 0;
      this.lastRound := false;
    }

    predicate IsLastRound()
      reads this
    {
      lastRound || (roundsRun == totalRounds && totalRounds != 0)
    }

    // ---- The three commits ----

    /** First commit: the manifest of dispatched tasks. */
    method SaveManifest(ghost a: Attempt) returns (o: Outcome)
      requires db.Valid() && db.working == db.committed && a.number == currentRound
      modifies db`ops, db`working, db`committed, db`seen
      ensures db.Valid() && db.ops > old(db.ops)
      ensures Ran(o, db.script, old(db.ops), db.ops)
      ensures ManifestOnly(db.committed, old(db.committed), a) && Unscored(db.committed, old(db.committed), a)
      ensures old(db.seen) <= db.seen && SeenUnscored(db.seen, old(db.seen), old(db.committed), a)
      ensures o.Done? ==> db.working == db.committed && Announced(db.committed, old(db.committed), a)
    {
      db.working := db.working.(kb := db.working.kb + [Kb(TASK_IDS, currentRound)]);
      FilterAppend(db.committed.kb, [Kb(TASK_IDS, currentRound)], OtherKb(currentRound));
      o := db.Commit();
    }

    /** Second commit: the bare round row. */
    method OpenRound(start: int, ghost pre: Tables, ghost a: Attempt, ghost before: set<Tables>)
      returns (o: Outcome, id: int)
      requires db.Valid() && db.working == db.committed && Announced(db.committed, pre, a)
      requires a.number == currentRound && a.id == db.nextRoundId && a.start == start
      requires before <= db.seen && SeenUnscored(db.seen, before, pre, a)
      modifies db`ops, db`working, db`committed, db`seen, db`nextRoundId
      ensures db.Valid() && db.ops > old(db.ops) && id == a.id
      ensures Ran(o, db.script, old(db.ops), db.ops)
      ensures Unscored(db.committed, pre, a)
      ensures o.Done? ==> db.working == db.committed && Opened(db.committed, pre, a)
      ensures before <= db.seen && SeenUnscored(db.seen, before, pre, a)
    {
      ghost var seen := db.seen;
      ManifestAdded(db.committed, pre, a.number);
      o, id := db.InsertRound(currentRound, start);
      if o.Done? {
        o := db.Commit();
        OneMoreUnscored(before, seen, db.seen, db.committed, pre, a);
      }
    }

    /** Results into checks and aggregates, and the round's end; not yet committed. */
    method RecordChecks(id: int, end: int, tasks: seq<int>, inbox: Inbox, ghost pre: Tables, ghost a: Attempt)
      returns (o: Outcome, points: map<int, int>, passed: set<int>, failed: map<int, int>)
      requires IdsBelow(db.working.rounds, db.nextRoundId) && Opened(db.working, pre, a)
      requires KnownServices(inbox, services)
      requires a == Attempt(services, currentRound, id, a.start, end, RoundChecks(tasks, inbox, search, id))
      modifies db`ops, db`working
      ensures db.ops > old(db.ops)
      ensures Ran(o, db.script, old(db.ops), db.ops)
      ensures o.Done? ==> Aggregates(a.checks, services, id, points, passed, failed)
      ensures o.Done? ==>
                db.working == old(db.working).(checks := old(db.working.checks) + a.checks,
                                               rounds := pre.rounds + [Round(id, a.number, a.start, Some(end))])
      ensures IdsBelow(db.working.rounds, db.nextRoundId)
    {
      points, passed, failed := map[], {}, map[];
      o := db.Statement();
      if o.Raised? { return; }
      var checks;
      checks, points, passed, failed := ProcessResults(tasks, inbox, search, services, id);
      var rounds := db.working.rounds;
      RoundsEnd(rounds, pre.rounds, a, db.nextRoundId);
      db.working := db.working.(checks := db.working.checks + checks,
                                rounds := rounds[|rounds| - 1 := rounds[|rounds| - 1].(end := Some(end))]);
    }

    /** The checks, the round's end, its score rows and the failure streaks, not yet committed. */
    method ScoreRound(id: int, end: int, tasks: seq<int>, inbox: Inbox, ghost pre: Tables, ghost a: Attempt)
      returns (o: Outcome)
      requires db.Valid() && IdsBelow(db.working.rounds, db.nextRoundId) && Opened(db.working, pre, a)
      requires KnownServices(inbox, services)
      requires a == Attempt(services, currentRound, id, a.start, end, RoundChecks(tasks, inbox, search, id))
      modifies db`ops, db`working, db`committed, db`seen
      ensures db.Valid() && db.ops > old(db.ops)
      ensures db.committed == old(db.committed) && db.seen == old(db.seen)
      ensures Ran(o, db.script, old(db.ops), db.ops)
      ensures o.Done? ==> Closed(db.working, pre, a) && IdsBelow(db.working.rounds, db.nextRoundId)
    {
      ghost var bare := db.working;
      var points, passed, failed;
      o, points, passed, failed := RecordChecks(id, end, tasks, inbox, pre, a);
      if o.Raised? { return; }
      var written; ghost var rows;
      o, written, rows := MaterializeRound(db, services, id, currentRound, Some(points), false, false);
      if o.Raised? { return; }
      o := ApplyConsecutiveFailures(db, passed, failed);
      if o.Raised? { return; }
      ClosingParts(db.working, bare, pre, a, points, passed, failed, rows);
    }

    /** Third commit: checks, round end, score rows and failure streaks together. */
    method CloseRound(id: int, end: int, tasks: seq<int>, inbox: Inbox, ghost pre: Tables, ghost a: Attempt)
      returns (o: Outcome)
      requires db.Valid() && db.working == db.committed && Opened(db.committed, pre, a)
      requires KnownServices(inbox, services)
      requires a == Attempt(services, currentRound, id, a.start, end, RoundChecks(tasks, inbox, search, id))
      modifies db`ops, db`working, db`committed, db`seen
      ensures db.Valid() && db.ops > old(db.ops)
      ensures Ran(o, db.script, old(db.ops), db.ops)
      ensures db.committed == old(db.committed) || Closed(db.committed, pre, a)
      ensures o.Done? ==> Closed(db.committed, pre, a)
      ensures old(db.seen) <= db.seen <= old(db.seen) + {db.committed}
    {
      o := ScoreRound(id, end, tasks, inbox, pre, a);
      if o.Done? {
        o := db.Commit();
      }
    }

    /** Polls until the tasks are done or the ceiling is hit. */
    method CollectResults(p: Plan, tasks: seq<int>, ghost batch: bool) returns (metas: map<int, Meta>, last: nat)
      requires tasks == Sent(p) && batch == reader.batchResultFetch
      modifies reader
      ensures Collected(p, batch, tasks, metas, last)
      ensures tasks != [] ==> reader.batchResultFetch == BatchAt(Watching(p, batch), last + 1)
    {
      var pending, completed;
      pending, completed, metas, last := reader.AwaitTasks(Watching(p, batch), p.polls, tasks, p.patience);
    }

    /** Looks up the environments that are left, and asks once more for whatever result is missing. */
    method FillInbox(p: Plan, tasks: seq<int>, envOf: map<int, int>, metas: map<int, Meta>, last: nat,
                     ghost batch: bool)
      returns (inbox: Inbox)
      requires tasks == Sent(p) && envOf == Assigned(p)
      requires Collected(p, batch, tasks, metas, last)
      requires tasks != [] ==> reader.batchResultFetch == BatchAt(Watching(p, batch), last + 1)
      modifies reader
      ensures inbox == InboxOf(p, batch)
    {
      var missing := Filter(tasks, (id: int) => id !in metas);
      var late := reader.FetchTaskMetas(p.polls(last + 1), missing);
      inbox := Inbox(metas + late, envOf, Surviving(p, envOf));
      FilledInbox(p, batch, metas, late, last);
    }

    /** The try block up to the bare round row. */
    method PrepareRound(p: Plan, start: int, tasks: seq<int>, ghost a: Attempt, ghost batch: bool)
      returns (o: Outcome, id: int, metas: map<int, Meta>, last: nat)
      requires db.Valid() && db.working == db.committed && tasks == Sent(p) && batch == reader.batchResultFetch
      requires currentRound == |db.committed.rounds| + 1
      requires a.number == currentRound && a.id == db.nextRoundId && a.start == start
      modifies db`ops, db`working, db`committed, db`seen, db`nextRoundId, reader
      ensures db.Valid() && db.ops > old(db.ops)
      ensures Ran(o, db.script, old(db.ops), db.ops)
      ensures id == a.id
      ensures Unscored(db.committed, old(db.committed), a)
      ensures old(db.seen) <= db.seen
      ensures SeenUnscored(db.seen, old(db.seen), old(db.committed), a)
      ensures o.Done? ==> db.working == db.committed && Opened(db.committed, old(db.committed), a)
      ensures o.Done? ==> Collected(p, batch, tasks, metas, last)
      ensures o.Done? && tasks != [] ==> reader.batchResultFetch == BatchAt(Watching(p, batch), last + 1)
    {
      ghost var pre := db.committed;
      id, metas, last := db.nextRoundId, map[], 0;
      o := SaveManifest(a);
      if o.Raised? { return; }
      o := db.Statement();
      if o.Raised? { return; }
      metas, last := CollectResults(p, tasks, batch);
      o, id := OpenRound(start, pre, a, old(db.seen));
    }

    /** The try block up to the last fetch. */
    method JudgeRound(p: Plan, start: int, tasks: seq<int>, envOf: map<int, int>, ghost a: Attempt)
      returns (o: Outcome, id: int, inbox: Inbox)
      requires db.Valid() && db.working == db.committed
      requires currentRound == |db.committed.rounds| + 1
      requires tasks == Sent(p) && envOf == Assigned(p)
      requires a.number == currentRound && a.id == db.nextRoundId && a.start == start
      modifies db`ops, db`working, db`committed, db`seen, db`nextRoundId, reader
      ensures db.Valid() && db.ops > old(db.ops)
      ensures Ran(o, db.script, old(db.ops), db.ops)
      ensures id == a.id
      ensures Unscored(db.committed, old(db.committed), a)
      ensures old(db.seen) <= db.seen && SeenUnscored(db.seen, old(db.seen), old(db.committed), a)
      ensures o.Done? ==> db.working == db.committed && Opened(db.committed, old(db.committed), a)
      ensures o.Done? ==> inbox == InboxOf(p, old(reader.batchResultFetch))
    {
      var metas, last;
      ghost var batch := reader.batchResultFetch;
      o, id, metas, last := PrepareRound(p, start, tasks, a, batch);
      inbox := Inbox(map[], envOf, map[]);
      if o.Done? {
        inbox := FillInbox(p, tasks, envOf, metas, last, batch);
      }
    }

    /** The try block of a round; the attempt is settled by the plan before anything happens. */
    method TryRound(p: Plan, start: int, end: int, tasks: seq<int>, envOf: map<int, int>, ghost a: Attempt)
      returns (o: Outcome)
      requires db.Valid() && db.working == db.committed
      requires Linked(db.committed) && Numbered(db.committed.rounds)
      requires currentRound == |db.committed.rounds| + 1
      requires ValidPlan(p, services) && tasks == Sent(p) && envOf == Assigned(p)
      requires a == AttemptOf(services, search, p, reader.batchResultFetch, currentRound, db.nextRoundId, start, end)
      modifies db`ops, db`working, db`committed, db`seen, db`nextRoundId, reader
      ensures db.Valid() && db.ops > old(db.ops)
      ensures Ran(o, db.script, old(db.ops), db.ops)
      ensures Stage(db.committed, old(db.committed), a)
      ensures old(db.seen) <= db.seen
      ensures SeenStages(db.seen, old(db.seen), old(db.committed), a)
      ensures o.Done? ==> Closed(db.committed, old(db.committed), a)
    {
      ghost var pre := db.committed;
      var id, inbox;
      o, id, inbox := JudgeRound(p, start, tasks, envOf, a);
      UnscoredIsStage(db.committed, db.seen, old(db.seen), pre, a);
      if o.Raised? { return; }
      PlannedAttempt(pre, services, search, p, old(reader.batchResultFetch), id, start, end);
      ghost var seen := db.seen;
      o := CloseRound(id, end, tasks, inbox, pre, a);
      OneMoreStage(old(db.seen), seen, db.seen, db.committed, pre, a);
    }

    // ---- Cleaning up ----

    /** Deletes the rows of the rounds `ids` and repairs the streaks of the services they touched. */
    method DeleteRows(ids: set<int>) returns (o: Outcome)
      requires db.Valid() && IdsBelow(db.working.rounds, db.nextRoundId)
      modifies db`ops, db`working, db`committed, db`seen
      ensures db.Valid() && db.ops > old(db.ops)
      ensures db.committed == old(db.committed) && db.seen == old(db.seen)
      ensures Ran(o, db.script, old(db.ops), db.ops)
      ensures o.Done? ==> db.working == WithoutRounds(old(db.working), ids)
      ensures o.Done? ==> IdsBelow(db.working.rounds, db.nextRoundId)
    {
      o := db.Statement();
      if o.Raised? { return; }
      var t := db.working;
      var touched := Touched(t.checks, ids);
      db.working := t.(checks := Filter(t.checks, KeepCheck(ids)),
                       scores := Filter(t.scores, KeepScore(ids)),
                       rounds := Filter(t.rounds, KeepRound(ids)));
      if touched != {} {
        o := RecomputeStreaks(db, Some(touched), false);
      } else {
        assert Recomputed(t.streaks, db.working.checks, Some({})) == t.streaks;
      }
    }

    /** One cleanup attempt up to its commit. */
    method DeleteRound(number: int) returns (o: Outcome)
      requires db.Valid() && db.working == db.committed
      modifies db`ops, db`working, db`committed, db`seen
      ensures db.Valid() && db.ops > old(db.ops)
      ensures db.committed == old(db.committed) && db.seen == old(db.seen)
      ensures Ran(o, db.script, old(db.ops), db.ops)
      ensures o.Done? ==> db.working == CleanedUp(old(db.committed), number)
      ensures o.Done? ==> IdsBelow(db.working.rounds, db.nextRoundId)
    {
      o := db.Statement();
      if o.Raised? { return; }
      var ids := RoundIds(db.working.rounds, number);
      if ids != {} {
        o := DeleteRows(ids);
        if o.Raised? { return; }
      } else {
        NoRoundsToDelete(db.working);
      }
      o := db.Statement();
      if o.Raised? { return; }
      db.working := db.working.(kb := WithoutManifest(db.working.kb, number));
    }

    method CleanupOnce(number: int) returns (o: Outcome)
      requires db.Valid()
      modifies db`ops, db`working, db`committed, db`seen
      ensures db.Valid() && db.ops > old(db.ops)
      ensures Ran(o, db.script, old(db.ops), db.ops)
      ensures db.committed == old(db.committed) || db.committed == CleanedUp(old(db.committed), number)
      ensures o.Done? ==> db.committed == CleanedUp(old(db.committed), number)
      ensures old(db.seen) <= db.seen <= old(db.seen) + {db.committed}
    {
      o := db.Rollback();
      if o.Raised? { return; }
      o := DeleteRound(number);
      if o.Raised? { return; }
      o := db.Commit();
    }

    /** One attempt; when it fails, the session is rolled back, and an exception in that is swallowed. */
    method TryCleanup(number: int) returns (o: Outcome)
      requires db.Valid()
      modifies db`ops, db`working, db`committed, db`seen
      ensures db.Valid() && db.ops > old(db.ops)
      ensures db.committed == old(db.committed) || db.committed == CleanedUp(old(db.committed), number)
      ensures o.Done? ==> db.committed == CleanedUp(old(db.committed), number)
      ensures var faults := Faults(db.script, old(db.ops), db.ops);
              if o.Done? then faults == 0 else 1 <= faults <= 2
      ensures old(db.seen) <= db.seen <= old(db.seen) + {db.committed}
    {
      o := CleanupOnce(number);
      RanFaults(o, db.script, old(db.ops), db.ops);
      if o.Raised? {
        var _ := db.Rollback();
      }
    }

    /** At most three attempts, each one transaction. `clean` only when a commit was confirmed. */
    method CleanupFailedRound(ghost pre: Tables, ghost a: Attempt) returns (clean: bool)
      requires db.Valid()
      requires Linked(pre) && Numbered(pre.rounds) && FreshAttempt(pre, a) && a.number == currentRound
      requires Stage(db.committed, pre, a)
      modifies db`ops, db`working, db`committed, db`seen
      ensures db.Valid() && db.ops >= old(db.ops)
      ensures Stage(db.committed, pre, a)
      ensures old(db.seen) <= db.seen
      ensures forall t | t in db.seen :: t in old(db.seen) || SameData(t, pre, a.number) || t == old(db.committed)
      ensures clean ==> SameData(db.committed, pre, a.number)
      ensures clean ==> forall kb | kb in db.committed.kb :: !IsManifest(a.number)(kb)
      ensures clean && StreaksMatch(pre) ==> db.committed == pre.(kb := WithoutManifest(pre.kb, a.number))
      ensures Faults(db.script, old(db.ops), db.ops) < 3 ==> clean
      ensures Faults(db.script, old(db.ops), db.ops) <= if clean then 4 else 6
    {
      var attempt := 1;
      while attempt <= CLEANUP_MAX_ATTEMPTS
        invariant 1 <= attempt <= CLEANUP_MAX_ATTEMPTS + 1
        invariant db.Valid() && db.ops >= old(db.ops)
        invariant db.committed == old(db.committed) || SameData(db.committed, pre, a.number)
        invariant old(db.seen) <= db.seen
        invariant forall t | t in db.seen :: t in old(db.seen) || SameData(t, pre, a.number) || t == old(db.committed)
        invariant attempt - 1 <= Faults(db.script, old(db.ops), db.ops) <= 2 * (attempt - 1)
      {
        CleanupRestores(db.committed, pre, a);
        ghost var from := db.ops;
        var o := TryCleanup(currentRound);
        FaultsAdd(db.script, old(db.ops), from, db.ops);
        if o.Done? { return true; }
        attempt := attempt + 1;
      }
      return false;
    }

    // ---- One pass of the loop ----

    /** Try, and on an exception count it and clean up. */
    method AttemptRound(p: Plan, start: int, end: int, tasks: seq<int>, envOf: map<int, int>, ghost a: Attempt)
      returns (r: RoundResult)
      requires Valid() && db.working == db.committed
      requires currentRound == |db.committed.rounds| + 1
      requires ValidPlan(p, services) && tasks == Sent(p) && envOf == Assigned(p)
      requires a == AttemptOf(services, search, p, reader.batchResultFetch, currentRound, db.nextRoundId, start, end)
      modifies this`roundFailures, reader
      modifies db`ops, db`working, db`committed, db`seen, db`nextRoundId
      ensures db.Valid() && db.ops > old(db.ops)
      ensures Stage(db.committed, old(db.committed), a)
      ensures old(db.seen) <= db.seen
      ensures SeenStages(db.seen, old(db.seen), old(db.committed), a)
      ensures !r.Crashed? && Reported(r, db.committed, old(db.committed), a)
      ensures roundFailures == if r.Landed? then 0 else old(roundFailures) + 1
      ensures Paid(r, Faults(db.script, old(db.ops), db.ops))
      ensures r.Landed? ==> db.script(db.ops - 1) == Works
    {
      ghost var pre := db.committed;
      PlannedAttempt(pre, services, search, p, reader.batchResultFetch, db.nextRoundId, start, end);
      var o := TryRound(p, start, end, tasks, envOf, a);
      ghost var from := db.ops;
      RanFaults(o, db.script, old(db.ops), from);
      if o.Done? {
        roundFailures := 0;
        r := Landed;
      } else {
        roundFailures := roundFailures + 1;
        var clean := CleanupFailedRound(pre, a);
        r := if clean then Discarded else Stuck;
        FaultsAdd(db.script, old(db.ops), from, db.ops);
      }
    }

    /** Dispatch, then the attempt; a service without a check class ends the process. */
    method DispatchRound(p: Plan, start: int, end: int, ghost a: Attempt) returns (r: RoundResult)
      requires db.Valid() && Linked(db.committed) && Numbered(db.committed.rounds) && db.working == db.committed
      requires currentRound == |db.committed.rounds| + 1
      requires ValidPlan(p, services)
      requires a == AttemptOf(services, search, p, reader.batchResultFetch, currentRound, db.nextRoundId, start, end)
      modifies this`roundFailures, reader
      modifies db`ops, db`working, db`committed, db`seen, db`nextRoundId
      ensures Valid() && db.ops > old(db.ops)
      ensures Stage(db.committed, old(db.committed), a) && Reported(r, db.committed, old(db.committed), a)
      ensures old(db.seen) <= db.seen
      ensures SeenStages(db.seen, old(db.seen), old(db.committed), a)
      ensures Ended(r, Supported(p), db.script, old(db.ops), db.ops, old(roundFailures), roundFailures)
    {
      ghost var pre := db.committed;
      PlannedAttempt(pre, services, search, p, reader.batchResultFetch, db.nextRoundId, start, end);
      var o := db.Statement();
      if o.Raised? { return Crashed; }
      var tasks, envOf := Dispatch(p.order, p.supported, p.environments, p.choice, p.taskId, p.envs);
      if tasks.None? { return Crashed; }
      r := AttemptRound(p, start, end, tasks.value, envOf, a);
      EndedAfterDispatch(r, db.script, old(db.ops), db.ops, old(roundFailures), roundFailures);
      StagesAreLinked(db.committed, pre, a);
    }

    /** One pass of the loop after its gate; the loop head's rollback has already happened. */
    method RunRound(p: Plan, start: int, end: int) returns (r: RoundResult, ghost a: Attempt)
      requires Valid() && db.working == db.committed
      requires ValidPlan(p, services)
      modifies this`currentRound, this`roundsRun, this`roundFailures, reader
      modifies db`ops, db`working, db`committed, db`seen, db`nextRoundId
      ensures Valid() && db.ops > old(db.ops)
      ensures currentRound == |old(db.committed.rounds)| + 1 && roundsRun == old(roundsRun) + 1
      ensures a == AttemptOf(services, search, p, old(reader.batchResultFetch), |old(db.committed.rounds)| + 1,
                             old(db.nextRoundId), start, end)
      ensures FreshAttempt(old(db.committed), a) && FitsPlan(a, p, search)
      ensures HonestPlan(p) ==> Pairwise(a.checks, DifferentService)
      ensures Stage(db.committed, old(db.committed), a) && Reported(r, db.committed, old(db.committed), a)
      ensures old(db.seen) <= db.seen
      ensures SeenStages(db.seen, old(db.seen), old(db.committed), a)
      ensures Ended(r, Supported(p), db.script, old(db.ops), db.ops, old(roundFailures), roundFailures)
    {
      var dbRound := LastNumber(db.working.rounds);
      LastNumberCounts(db.working.rounds);
      if dbRound < currentRound {
        currentRound := dbRound;
      }
      currentRound := currentRound + 1;
      roundsRun := roundsRun + 1;
      a := AttemptOf(services, search, p, reader.batchResultFetch, currentRound, db.nextRoundId, start, end);
      PlannedAttempt(db.committed, services, search, p, reader.batchResultFetch, db.nextRoundId, start, end);
      PlannedIsHonest(p, services, search, reader.batchResultFetch, db.nextRoundId);
      r := DispatchRound(p, start, end, a);
    }

    /** The administrator's rollback, taken while the engine is between rounds. */
    method TakeRollback(n: int, ghost clock: int) returns (ghost leg: Leg)
      requires Valid()
      modifies db`ops, db`working, db`committed, db`seen
      ensures Valid() && db.ops >= old(db.ops)
      ensures leg == Leg(old(db.committed), leg.event, db.committed, clock, clock)
      ensures leg.event.Rewound? && leg.event.n == n && RewindHolds(leg)
      ensures old(db.seen) <= db.seen && SeenOn(db.seen, old(db.seen), leg)
    {
      ghost var pre := db.committed;
      LastNumberCounts(pre.rounds);
      var answer := AdminRollback(db, n);
      leg := Leg(pre, Rewound(n, answer), db.committed, clock, clock);
      if db.committed != pre {
        PartlyIsLinked(db.committed, pre, n);
        PartlyShrinks(db.committed, pre, n);
      }
      PointsOnLeg(db.seen, old(db.seen), leg);
    }

    /** The round of a turn whose gate is open; after a landed one, unless it is the last, the pace is looked up. */
    method TakeRound(turn: Turn, ghost clock: int) returns (go: bool, ghost leg: Leg, ghost ended: nat)
      requires Valid() && db.working == db.committed
      requires ValidPlan(turn.plan, services)
      requires !turn.paused && EngineShouldRun(turn.windows, turn.now)
      modifies this`currentRound, this`roundsRun, this`roundFailures, reader
      modifies db`ops, db`working, db`committed, db`seen, db`nextRoundId
      ensures Valid() && db.ops > old(db.ops)
      ensures leg.pre == old(db.committed) && leg.post == db.committed && leg.since == clock && leg.until == turn.end
      ensures leg.event.Attempted? && LegHolds(leg, services) && LegOfTurn(leg, turn, search)
      ensures clock <= turn.now <= turn.start <= turn.end ==> OnTime(leg)
      ensures old(db.seen) <= db.seen && SeenOn(db.seen, old(db.seen), leg)
      ensures Ended(leg.event.result, Supported(turn.plan), db.script, old(db.ops), ended, old(roundFailures),
                    roundFailures)
      ensures db.ops == ended + if leg.event.result.Landed? && !IsLastRound() then 1 else 0
      ensures LegTaken(Settings(), old(Now()), Now(), leg, turn, go)
    {
      ghost var pre := db.committed;
      var r; ghost var a;
      r, a := RunRound(turn.plan, turn.start, turn.end);
      ended := db.ops;
      leg := Leg(pre, Attempted(a, r, turn.windows, turn.now, HonestPlan(turn.plan)), db.committed, clock, turn.end);
      RoundLeg(leg, turn, services, search, db.seen, old(db.seen));
      go := !r.Crashed? && !((r.Discarded? || r.Stuck?) && maxRoundFailures != 0 && roundFailures >= maxRoundFailures);
      if r.Landed? && !IsLastRound() {
        var o := db.Statement();
        go := o.Done?;
      }
      RoundTaken(Settings(), old(Now()), ended, Now(), leg, turn, go);
    }

    /** One iteration of the main loop. `go` is false once the engine process is gone. */
    method TakeTurn(turn: Turn, ghost clock: int) returns (go: bool, ghost leg: Leg)
      requires Valid()
      requires ValidPlan(turn.plan, services)
      modifies this`currentRound, this`roundsRun, this`roundFailures, reader
      modifies db`ops, db`working, db`committed, db`seen, db`nextRoundId
      ensures Valid() && db.ops > old(db.ops)
      ensures leg.pre == old(db.committed) && leg.post == db.committed && leg.since == clock && leg.until == turn.end
      ensures LegHolds(leg, services) && LegOfTurn(leg, turn, search) && !leg.event.Rewound?
      ensures clock <= turn.now <= turn.start <= turn.end ==> OnTime(leg)
      ensures old(db.seen) <= db.seen && SeenOn(db.seen, old(db.seen), leg)
      ensures LegTaken(Settings(), old(Now()), Now(), leg, turn, go)
    {
      leg := Leg(db.committed, Idle, db.committed, clock, turn.end);
      var ready := Enter(turn);
      go := ready.Some?;
      if ready == Some(true) {
        ghost var ops := db.ops;
        ghost var ended;
        go, leg, ended := TakeRound(turn, clock);
        FaultsAdd(db.script, old(db.ops), ops, db.ops);
      }
    }

    /** The loop head: fresh transaction, pause switch, schedule, last round number. None when one of them raises. */
    method Enter(turn: Turn) returns (ready: Option<bool>)
      requires db.Valid()
      modifies db`ops, db`working
      ensures db.Valid() && db.ops > old(db.ops)
      ensures Ran(if ready.Some? then Done else Raised, db.script, old(db.ops), db.ops)
      ensures ready.Some? ==> ready.value == (!turn.paused && EngineShouldRun(turn.windows, turn.now))
      ensures ready == Some(true) ==> db.working == db.committed
    {
      var o := db.Rollback();
      if o.Raised? { return None; }
      o := db.Statement();
      if o.Raised? { return None; }
      if turn.paused {
        o := db.Statement();
        return if o.Done? then Some(false) else None;
      }
      o := db.Statement();
      if o.Raised? { return None; }
      if !EngineShouldRun(turn.windows, turn.now) {
        o := db.Statement();
        return if o.Done? then Some(false) else None;
      }
      o := db.Statement();
      return if o.Done? then Some(true) else None;
    }

    /** A rollback the administrator may have taken, then one iteration. */
    method Iterate(turn: Turn, ghost legs: seq<Leg>, ghost first: Tables, ghost now: int, ghost before: set<Tables>)
      returns (go: bool, ghost legs': seq<Leg>)
      requires Valid()
      requires Trace(legs, first, db.committed, db.seen, before, services)
      requires ValidPlan(turn.plan, services)
      modifies this`currentRound, this`roundsRun, this`roundFailures, reader
      modifies db`ops, db`working, db`committed, db`seen, db`nextRoundId
      ensures Valid() && db.ops > old(db.ops)
      ensures Trace(legs', first, db.committed, db.seen, before, services)
      ensures TurnTaken(turn, legs, legs', now, search)
      ensures LegTaken(Settings(), old(Now()), Now(), legs'[|legs'| - 1], turn, go)
    {
      legs' := legs;
      if turn.rollback.Some? {
        ghost var rewound := TakeRollback(turn.rollback.value, now);
        TraceOneMore(legs', rewound, first, old(db.seen), db.seen, before, services);
        legs' := legs' + [rewound];
      }
      ghost var leg;
      ghost var seen, from := db.seen, db.ops;
      go, leg := TakeTurn(turn, now);
      FaultsAdd(db.script, old(db.ops), from, db.ops);
      TraceOneMore(legs', leg, first, seen, db.seen, before, services);
      legs' := legs' + [leg];
    }

    /** Turn `i` of a run. */
    method Advance(turns: seq<Turn>, i: nat, ghost s: Mark, ghost legs: seq<Leg>, ghost clock: int)
      returns (go: bool, ghost legs': seq<Leg>)
      requires Valid()
      requires i < |turns| && ValidPlan(turns[i].plan, services)
      requires OnAccount(Settings(), s, Now(), legs, turns, i, true, clock)
      modifies this`currentRound, this`roundsRun, this`roundFailures, reader
      modifies db`ops, db`working, db`committed, db`seen, db`nextRoundId
      ensures Valid()
      ensures roundsRun <= old(roundsRun) + 1
      ensures OnAccount(Settings(), s, Now(), legs', turns, i + 1, go, clock)
    {
      ghost var e := Now();
      go, legs' := Iterate(turns[i], legs, s.tables, ClockAfter(turns, i, clock), s.seen);
      MoreAccount(Settings(), s, e, Now(), legs, legs', turns, i, go, clock);
    }

    /**
     The main loop, over any sequence of pauses, edited schedules, rounds good and bad, and
     rollbacks finished or cut short. What it leaves, and every state anyone saw, lies on `legs`;
     `taken` of the turns were taken before it ended.
     */
    method Run(turns: seq<Turn>, ghost clock: int) returns (taken: nat, ghost legs: seq<Leg>)
      requires Valid()
      requires forall k | 0 <= k < |turns| :: ValidPlan(turns[k].plan, services)
      requires totalRounds != 0 ==> roundsRun <= totalRounds
      modifies this`currentRound, this`roundsRun, this`roundFailures, reader
      modifies db`ops, db`working, db`committed, db`seen, db`nextRoundId
      ensures Valid()
      ensures Trace(legs, old(db.committed), db.committed, db.seen, old(db.seen), services)
      ensures FromTurns(legs, turns, search)
      ensures Chronological(turns, clock) ==> Timely(legs, clock)
      ensures Chronological(turns, clock) ==> ClockAt(legs, |legs|, clock) <= ClockAfter(turns, |turns|, clock)
      ensures totalRounds != 0 ==> roundsRun <= totalRounds
      ensures taken <= |turns|
      ensures OnAccount(Settings(), old(Now()), Now(), legs, turns, taken, taken == |turns| || IsLastRound(), clock)
      ensures Faults(db.script, old(db.ops), db.ops) == 0 && AllOpen(turns) && !lastRound ==>
                roundsRun == old(roundsRun) + RoundsDue(|turns|, old(roundsRun))
                && |db.committed.rounds| == |old(db.committed.rounds)| + RoundsDue(|turns|, old(roundsRun))
    {
      ghost var s := Now();
      BeginAccount(Settings(), s, turns, clock);
      var go;
      taken, go, legs := TakeTurns(turns, s, clock);
      SmoothRun(Settings(), s, Now(), legs, turns, taken, go, clock);
      if Chronological(turns, clock) {
        LaterClock(turns, taken, |turns|, clock);
      }
    }

    /** Its iterations, until one ends the process or the last round is done. */
    method TakeTurns(turns: seq<Turn>, ghost s: Mark, ghost clock: int)
      returns (taken: nat, go: bool, ghost legs: seq<Leg>)
      requires Valid()
      requires forall k | 0 <= k < |turns| :: ValidPlan(turns[k].plan, services)
      requires totalRounds != 0 ==> roundsRun <= totalRounds
      requires OnAccount(Settings(), s, Now(), [], turns, 0, true, clock)
      modifies this`currentRound, this`roundsRun, this`roundFailures, reader
      modifies db`ops, db`working, db`committed, db`seen, db`nextRoundId
      ensures Valid() && taken <= |turns|
      ensures totalRounds != 0 ==> roundsRun <= totalRounds
      ensures OnAccount(Settings(), s, Now(), legs, turns, taken, go, clock)
      ensures taken == |turns| || !go || IsLastRound()
    {
      legs, go, taken := [], true, 0;
      while taken < |turns| && go && !IsLastRound()
        invariant 0 <= taken <= |turns|
        invariant Valid()
        invariant totalRounds != 0 ==> roundsRun <= totalRounds
        invariant OnAccount(Settings(), s, Now(), legs, turns, taken, go, clock)
      {
        go, legs := Advance(turns, taken, s, legs, clock);
        taken := taken + 1;
      }
    }

    ghost function Now(): Mark
      reads this, db
    {
      Mark(db.committed, db.seen, db.ops, roundsRun, roundFailures)
    }

    ghost function Settings(): Setting { Setting(services, search, maxRoundFailures, db.script) }

    /** One round a turn, up to the number asked for. */
    function RoundsDue(turns: nat, before: nat): nat
      requires totalRounds != 0 ==> before <= totalRounds
    {
      if totalRounds != 0 && totalRounds - before < turns then totalRounds - before else turns
    }
  }

  lemma NoRoundsToDelete(t: Tables)
    ensures WithoutRounds(t, {}) == t
  {
    FilterAll(t.rounds, KeepRound({}));
    FilterAll(t.checks, KeepCheck({}));
    FilterAll(t.scores, KeepScore({}));
    assert Touched(t.checks, {}) == {};
    assert Recomputed(t.streaks, t.checks, Some({})) == t.streaks;
  }

  lemma PointsOnLeg(seen: set<Tables>, before: set<Tables>, leg: Leg)
    requires leg.event.Rewound? && SeenWithin(seen, before, Points(leg.pre, leg.event.n))
    requires 1 <= leg.event.n <= |leg.pre.rounds| || seen == before
    ensures SeenOn(seen, before, leg)
  {
  }

  /** Nothing scored yet: before the round closes. */
  ghost predicate Unscored(t: Tables, pre: Tables, a: Attempt) {
    SameData(t, pre, a.number) || Opened(t, pre, a)
  }

  ghost predicate SeenUnscored(seen: set<Tables>, before: set<Tables>, pre: Tables, a: Attempt) {
    forall t | t in seen :: t in before || Unscored(t, pre, a)
  }

  lemma OneMoreUnscored(before: set<Tables>, seen: set<Tables>, later: set<Tables>, t: Tables, pre: Tables, a: Attempt)
    requires SeenUnscored(seen, before, pre, a) && Unscored(t, pre, a) && later <= seen + {t}
    ensures SeenUnscored(later, before, pre, a)
  {
  }

  /** One manifest more. */
  ghost predicate Announced(t: Tables, pre: Tables, a: Attempt) {
    t == pre.(kb := pre.kb + [Kb(TASK_IDS, a.number)])
  }

  /** At most a manifest more. */
  ghost predicate ManifestOnly(t: Tables, pre: Tables, a: Attempt) {
    t == pre.(kb := t.kb) && WithoutManifest(t.kb, a.number) == WithoutManifest(pre.kb, a.number)
  }

  /** What is unscored is a stage. */
  lemma UnscoredIsStage(t: Tables, seen: set<Tables>, before: set<Tables>, pre: Tables, a: Attempt)
    requires Unscored(t, pre, a) && SeenUnscored(seen, before, pre, a)
    ensures Stage(t, pre, a) && SeenStages(seen, before, pre, a)
  {
  }

  lemma OneMoreStage(before: set<Tables>, seen: set<Tables>, later: set<Tables>, t: Tables, pre: Tables, a: Attempt)
    requires SeenStages(seen, before, pre, a) && Stage(t, pre, a) && later <= seen + {t}
    ensures SeenStages(later, before, pre, a)
  {
  }

  lemma RoundsEnd(rounds: seq<Round>, before: seq<Round>, a: Attempt, bound: int)
    requires rounds == before + [Round(a.id, a.number, a.start, None)] && IdsBelow(rounds, bound)
    ensures rounds[|rounds| - 1 := rounds[|rounds| - 1].(end := Some(a.end))] ==
            before + [Round(a.id, a.number, a.start, Some(a.end))]
    ensures IdsBelow(before + [Round(a.id, a.number, a.start, Some(a.end))], bound)
  {
    assert rounds[|before|] in rounds;
    assert forall r | r in before :: r in rounds;
  }

  /** The in-memory aggregates write exactly the rows and streaks that the round's checks call for. */
  lemma ClosingParts(t: Tables, bare: Tables, pre: Tables, a: Attempt,
                     points: map<int, int>, passed: set<int>, failed: map<int, int>, rows: seq<RoundScore>)
    requires Opened(bare, pre, a)
    requires Aggregates(a.checks, a.services, a.id, points, passed, failed)
    requires RowsFor(rows, a.id, a.number, points)
    requires t == bare.(checks := bare.checks + a.checks,
                          rounds := pre.rounds + [Round(a.id, a.number, a.start, Some(a.end))],
                          scores := bare.scores + rows,
                          streaks := Folded(bare.streaks, passed, failed))
    ensures Closed(t, pre, a)
  {
    assert t.scores[|pre.scores|..] == rows;
    assert StreaksFold(t.streaks, pre.streaks, a.checks) by {
      forall s | s in pre.streaks
        ensures t.streaks[s] == if AnyPass(a.checks, s) then 0 else pre.streaks[s] + Failures(a.checks, s)
      {
        assert s in passed <==> AnyPass(a.checks, s);
        assert Get(failed, s, 0) == Failures(a.checks, s);
      }
    }
    forall team ensures Sum(rows, RowPoints(a.id, team)) == Sum(a.checks, CheckPoints(a.services, a.id, team)) {
      assert Get(points, team, 0) == Sum(a.checks, CheckPoints(a.services, a.id, team));
    }
  }
}
