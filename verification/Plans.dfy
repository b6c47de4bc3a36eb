/** What one round meets outside the engine, and the checks it comes to. */
module Plans {
  import opened Sums
  import opened Store
  import opened Streaks
  import opened Scores
  import opened Tasks
  import opened Lifecycle

  /** Everything outside the engine that one round meets; `surviving` are the environments left when results come in. */
  datatype Plan = Plan(order: seq<int>, supported: set<int>, environments: map<int, seq<int>>,
                       choice: nat -> nat, taskId: nat -> int, envs: map<int, Environment>, surviving: set<int>,
                       polls: nat -> Backend, patience: nat)

  ghost predicate ValidPlan(p: Plan, services: seq<Service>) {
    && (forall i: nat, j: nat | i != j :: p.taskId(i) != p.taskId(j))
    && (forall i, j | 0 <= i < j < |p.order| :: p.order[i] != p.order[j])
    && Owned(p.environments, p.envs)
    && (forall e | e in p.envs :: Find(services, p.envs[e].service).Some?)
  }

  /** The dispatched environments that still exist: `env_cache`. */
  function Surviving(p: Plan, envOf: map<int, int>): map<int, Environment> {
    map e | e in p.envs && e in p.surviving && e in envOf.Values :: p.envs[e]
  }

  /** The tasks a round sends, in order. */
  function Sent(p: Plan): seq<int> { Issued(p.order, p.environments, p.taskId) }

  /** Which environments they are sent to. */
  function Assigned(p: Plan): map<int, int> { Assignment(p.order, p.environments, p.choice, p.taskId) }

  function Watching(p: Plan, batch: bool): Watch { Watch(batch, p.polls) }

  ghost function LastOf(p: Plan, batch: bool): nat { LastPoll(Watching(p, batch), Sent(p), p.patience, 0) }

  /** What polling has collected when it ends. */
  ghost predicate Collected(p: Plan, batch: bool, tasks: seq<int>, metas: map<int, Meta>, last: nat) {
    && last == LastOf(p, batch)
    && (forall id :: id in metas <==> id in tasks && Kept(Watching(p, batch), last + 1, id).Some?)
    && (forall id | id in metas :: metas[id] == Kept(Watching(p, batch), last + 1, id).value)
  }

  /** What the result loop works on; `batch` says whether bulk lookups are still tried. */
  ghost function InboxOf(p: Plan, batch: bool): Inbox {
    Inbox(map id | id in Sent(p) :: FinalMeta(Watching(p, batch), LastOf(p, batch), id),
          Assigned(p), Surviving(p, Assigned(p)))
  }

  ghost function PlannedChecks(p: Plan, search: Search, batch: bool, round: int): seq<Check> {
    RoundChecks(Sent(p), InboxOf(p, batch), search, round)
  }

  ghost function AttemptOf(services: seq<Service>, search: Search, p: Plan, batch: bool, number: int, id: int,
                           start: int, end: int): Attempt
  {
    Attempt(services, number, id, start, end, PlannedChecks(p, search, batch, id))
  }

  lemma FilledInbox(p: Plan, batch: bool, metas: map<int, Meta>, late: map<int, Meta>, last: nat)
    requires Collected(p, batch, Sent(p), metas, last)
    requires forall id :: id in late <==> id in Sent(p) && id !in metas
    requires forall id | id in late :: late[id] == SeenAt(Watching(p, batch), last + 1, id)
    ensures metas + late == InboxOf(p, batch).metas
  {
    var filled := InboxOf(p, batch).metas;
    forall id ensures id in metas + late <==> id in filled {
    }
    forall id | id in filled ensures (metas + late)[id] == filled[id] {
      assert id in metas <==> Kept(Watching(p, batch), last + 1, id).Some?;
    }
  }

  /** The checks of the attempt are those its plan calls for. */
  ghost predicate FitsPlan(a: Attempt, p: Plan, search: Search) {
    a.checks == PlannedChecks(p, search, true, a.id) || a.checks == PlannedChecks(p, search, false, a.id)
  }

  lemma PlannedAttempt(pre: Tables, services: seq<Service>, search: Search, p: Plan, batch: bool, id: int,
                       start: int, end: int)
    requires IdsBelow(pre.rounds, id) && ValidPlan(p, services)
    ensures FreshAttempt(pre, AttemptOf(services, search, p, batch, |pre.rounds| + 1, id, start, end))
    ensures KnownServices(InboxOf(p, batch), services)
  {
    RoundChecksOfRound(Sent(p), InboxOf(p, batch), search, id);
  }

  /** Every task was dispatched. */
  ghost predicate Mapped(tasks: seq<int>, envOf: map<int, int>) { forall id | id in tasks :: id in envOf }

  ghost predicate DistinctTargets(tasks: seq<int>, envOf: map<int, int>, envs: map<int, Environment>) {
    forall i, j | 0 <= i < j < |tasks| :: Target(tasks[i], envOf, envs) != Target(tasks[j], envOf, envs)
  }

  /** Workers report on the environments this round sent them. */
  ghost predicate HonestPlan(p: Plan) {
    forall k: nat, id, r | id in Assigned(p) && Showed(p.polls(k), id, r) :: r.environment == Assigned(p)[id]
  }

  predicate Supported(p: Plan) { forall s | s in p.order :: s in p.supported }

  /** Dispatch sends every service of the order at most one task. */
  lemma DispatchedTargets(p: Plan, services: seq<Service>)
    requires ValidPlan(p, services)
    ensures DistinctTargets(Sent(p), Assigned(p), p.envs) && Mapped(Sent(p), Assigned(p))
  {
    var probed := Filter(p.order, Dispatchable(p.environments));
    AssignmentProbes(p.order, p.environments, p.choice, p.taskId, p.envs);
    FilterPairwise(p.order, Dispatchable(p.environments), (x: int, y: int) => x != y);
    forall id | id in Sent(p) ensures id in Assigned(p) {
      var k :| 0 <= k < |Sent(p)| && Sent(p)[k] == id;
      assert Target(Sent(p)[k], Assigned(p), p.envs).Some?;
    }
  }

  /** With honest workers the inbox is honest. */
  lemma PlannedIsHonest(p: Plan, services: seq<Service>, search: Search, batch: bool, round: int)
    requires ValidPlan(p, services)
    ensures HonestPlan(p) ==> Honest(InboxOf(p, batch))
    ensures HonestPlan(p) ==> Pairwise(PlannedChecks(p, search, batch, round), DifferentService)
  {
    if HonestPlan(p) {
      DispatchedTargets(p, services);
      HonestInbox(p, batch);
      LiveTargets(p, batch);
      OneCheckPerService(Sent(p), InboxOf(p, batch), search, round);
    }
  }

  lemma HonestInbox(p: Plan, batch: bool)
    requires HonestPlan(p) && Mapped(Sent(p), Assigned(p))
    ensures Honest(InboxOf(p, batch))
  {
    var inbox, w := InboxOf(p, batch), Watching(p, batch);
    forall id | id in inbox.metas && inbox.metas[id].status == Success && inbox.metas[id].result.Some?
      ensures inbox.metas[id].result.value.environment == inbox.envOf[id]
    {
      var r := inbox.metas[id].result.value;
      FinalWasShown(w, LastOf(p, batch), id, r);
      var k: nat :| k <= LastOf(p, batch) + 1 && Showed(w.polls(k), id, r);
      assert Showed(p.polls(k), id, r);
    }
  }

  lemma LiveTargets(p: Plan, batch: bool)
    requires DistinctTargets(Sent(p), Assigned(p), p.envs)
    ensures var tasks, inbox := Sent(p), InboxOf(p, batch);
            forall i, j | 0 <= i < j < |tasks| && Live(inbox)(tasks[i]) && Live(inbox)(tasks[j]) ::
              Target(tasks[i], inbox.envOf, inbox.envs) != Target(tasks[j], inbox.envOf, inbox.envs)
  {
    var tasks, inbox := Sent(p), InboxOf(p, batch);
    forall i, j | 0 <= i < j < |tasks| && Live(inbox)(tasks[i]) && Live(inbox)(tasks[j])
      ensures Target(tasks[i], inbox.envOf, inbox.envs) != Target(tasks[j], inbox.envOf, inbox.envs)
    {
      assert Target(tasks[i], inbox.envOf, p.envs) != Target(tasks[j], inbox.envOf, p.envs);
    }
  }

  // ---- What the checks of a round say of it ----

  /** The environment a task was sent to still exists. */
  function StillThere(p: Plan): int -> bool { id => id in Assigned(p) && Assigned(p)[id] in p.surviving }

  /** The tasks that can be scored. */
  function Scorable(p: Plan): seq<int> { Filter(Sent(p), StillThere(p)) }

  /** A task went to an environment of the service. */
  predicate OfService(p: Plan, id: int, service: int) {
    id in Assigned(p) && Assigned(p)[id] in p.envs && p.envs[Assigned(p)[id]].service == service
  }

  /** Poll `k` showed that task `id` succeeded, with a report that passes on a surviving environment of `service`. */
  ghost predicate Vouches(p: Plan, search: Search, service: int, id: int, k: nat, r: Report) {
    && id in Sent(p) && k <= p.patience + 1 && Showed(p.polls(k), id, r)
    && r.environment in p.surviving && r.environment in p.envs
    && p.envs[r.environment].service == service && Passes(r, p.envs[r.environment], search)
  }

  /** A report on the environment that task `id` was sent to, and one that passes there. */
  function Good(p: Plan, search: Search, id: int): Report -> bool {
    (r: Report) => id in Assigned(p) && r.environment == Assigned(p)[id] && r.environment in p.envs
      && Passes(r, p.envs[r.environment], search)
  }

  /** Every poll shows a passing result of it. */
  ghost predicate AlwaysGood(p: Plan, search: Search, id: int) {
    forall k: nat | k <= p.patience + 1 :: ShowsGood(p.polls(k), id, Good(p, search, id))
  }

  ghost predicate Vouched(p: Plan, search: Search, c: Check) {
    exists id, k, r :: Vouches(p, search, c.service, id, k, r)
  }

  ghost predicate PassesIn(checks: seq<Check>, p: Plan, id: int) {
    exists c :: c in checks && c.result && OfService(p, id, c.service)
  }

  /** The check is of the service that `id` was sent to, and says what the workers said of it. */
  ghost predicate TellsOf(c: Check, p: Plan, search: Search, id: int) {
    && OfService(p, id, c.service)
    && (c.result ==> exists k, r :: Vouches(p, search, c.service, id, k, r))
    && (AlwaysGood(p, search, id) ==> c.result)
  }

  /**
   What the checks of a round say, in terms of what the round met: only a reported and matching
   success passes, and what every poll reports as one does; with honest workers there is exactly
   one check for each task whose environment is left, of its service, and it speaks of that task.
   */
  ghost predicate Answers(checks: seq<Check>, p: Plan, search: Search) {
    && (forall c | c in checks && c.result :: Vouched(p, search, c))
    && (forall id | id in Scorable(p) && AlwaysGood(p, search, id) :: PassesIn(checks, p, id))
    && (HonestPlan(p) ==>
          |checks| == |Scorable(p)| && forall i | 0 <= i < |checks| :: TellsOf(checks[i], p, search, Scorable(p)[i]))
  }

  /** A pass was reported. */
  lemma PassWasShown(p: Plan, search: Search, batch: bool, id: int, service: int)
    requires id in Sent(p) && Judge(id, InboxOf(p, batch), search) == Scored(service, true)
    ensures exists k, r :: Vouches(p, search, service, id, k, r)
  {
    var r := Delivered(id, InboxOf(p, batch)).value;
    FinalWasShown(Watching(p, batch), LastOf(p, batch), id, r);
    var k: nat :| k <= LastOf(p, batch) + 1 && Showed(Watching(p, batch).polls(k), id, r);
    assert Vouches(p, search, service, id, k, r);
  }

  /** What is always reported as passing passes. */
  lemma SteadyPass(p: Plan, search: Search, batch: bool, id: int)
    requires id in Sent(p) && StillThere(p)(id) && AlwaysGood(p, search, id)
    ensures var v := Judge(id, InboxOf(p, batch), search); v.Scored? && v.result && OfService(p, id, v.service)
  {
    SteadyIsFinal(Watching(p, batch), LastOf(p, batch), id, Good(p, search, id));
    assert Assigned(p)[id] in Assigned(p).Values;
  }

  lemma ScorableIsLive(p: Plan, services: seq<Service>, batch: bool, id: int)
    requires ValidPlan(p, services) && id in Sent(p)
    ensures Live(InboxOf(p, batch))(id) <==> StillThere(p)(id)
    ensures StillThere(p)(id) ==> id in Assigned(p) && Assigned(p)[id] in p.envs
  {
    DispatchedTargets(p, services);
    AssignmentProbes(p.order, p.environments, p.choice, p.taskId, p.envs);
    var k :| 0 <= k < |Sent(p)| && Sent(p)[k] == id;
    assert Target(Sent(p)[k], Assigned(p), p.envs).Some?;
    assert Assigned(p)[id] in Assigned(p).Values;
  }

  lemma PlannedPassesWereShown(p: Plan, search: Search, batch: bool, round: int)
    ensures forall c | c in PlannedChecks(p, search, batch, round) && c.result :: Vouched(p, search, c)
  {
    var inbox := InboxOf(p, batch);
    OneCheckPerTask(Sent(p), inbox, search, round);
    var checks, reached := PlannedChecks(p, search, batch, round), Filter(Sent(p), Reached(inbox));
    forall c | c in checks && c.result ensures Vouched(p, search, c) {
      var i :| 0 <= i < |checks| && checks[i] == c;
      assert Judge(reached[i], inbox, search) == Scored(c.service, true);
      PassWasShown(p, search, batch, reached[i], c.service);
    }
  }

  lemma PlannedSteadyPasses(p: Plan, search: Search, batch: bool, round: int, id: int)
    requires id in Scorable(p) && AlwaysGood(p, search, id)
    ensures PassesIn(PlannedChecks(p, search, batch, round), p, id)
  {
    var inbox := InboxOf(p, batch);
    OneCheckPerTask(Sent(p), inbox, search, round);
    SteadyPass(p, search, batch, id);
    var checks, reached := PlannedChecks(p, search, batch, round), Filter(Sent(p), Reached(inbox));
    assert Reached(inbox)(id);
    var i :| 0 <= i < |reached| && reached[i] == id;
    assert checks[i] in checks && checks[i].result && OfService(p, id, checks[i].service);
  }

  lemma PlannedTellsOf(p: Plan, services: seq<Service>, search: Search, batch: bool, round: int)
    requires ValidPlan(p, services) && HonestPlan(p)
    ensures var checks := PlannedChecks(p, search, batch, round);
            && |checks| == |Scorable(p)|
            && forall i | 0 <= i < |checks| :: TellsOf(checks[i], p, search, Scorable(p)[i])
  {
    var inbox := InboxOf(p, batch);
    PlannedIsHonest(p, services, search, batch, round);
    forall id | id in Sent(p) ensures Live(inbox)(id) <==> StillThere(p)(id) {
      ScorableIsLive(p, services, batch, id);
    }
    FilterSame(Sent(p), Live(inbox), StillThere(p));
    OneCheckPerLiveTask(Sent(p), inbox, search, round);
    var checks, live := PlannedChecks(p, search, batch, round), Scorable(p);
    forall i | 0 <= i < |checks| ensures TellsOf(checks[i], p, search, live[i]) {
      ScorableIsLive(p, services, batch, live[i]);
      if checks[i].result {
        PassWasShown(p, search, batch, live[i], checks[i].service);
      }
      if AlwaysGood(p, search, live[i]) {
        SteadyPass(p, search, batch, live[i]);
      }
    }
  }

  /** The checks a plan calls for answer it. */
  lemma FittingChecksAnswer(a: Attempt, p: Plan, services: seq<Service>, search: Search)
    requires ValidPlan(p, services) && FitsPlan(a, p, search)
    ensures Answers(a.checks, p, search)
  {
    var batch := a.checks == PlannedChecks(p, search, true, a.id);
    PlannedPassesWereShown(p, search, batch, a.id);
    forall id | id in Scorable(p) && AlwaysGood(p, search, id) ensures PassesIn(a.checks, p, id) {
      PlannedSteadyPasses(p, search, batch, a.id, id);
    }
    if HonestPlan(p) {
      PlannedTellsOf(p, services, search, batch, a.id);
    }
  }

  /** With a coherent backend the checks of a round do not depend on whether bulk lookups work. */
  lemma ChecksIgnoreBatch(p: Plan, search: Search, round: int)
    requires forall k: nat, id | k <= p.patience + 1 && id in Sent(p) ::
               Coherent(p.polls(k)) && Readable(p.polls(k).payload(id))
    ensures PlannedChecks(p, search, true, round) == PlannedChecks(p, search, false, round)
  {
    var v, w := Watching(p, true), Watching(p, false);
    LastPollIgnoresBatch(v, w, Sent(p), p.patience, 0);
    forall id | id in Sent(p) ensures FinalMeta(v, LastOf(p, true), id) == FinalMeta(w, LastOf(p, false), id) {
      FinalIgnoresBatch(v, w, LastOf(p, true), id);
    }
    assert InboxOf(p, true) == InboxOf(p, false);
  }
}
