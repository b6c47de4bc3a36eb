/** The path a run takes through the committed states, and what holds along every such path. */
module Runs {
  import opened Sums
  import opened Store
  import opened Streaks
  import opened Scores
  import opened Tasks
  import opened Lifecycle
  import opened Rollback
  import opened Schedule
  import Freeze
  import Reads

  datatype RoundResult = Landed | Discarded | Stuck | Crashed

  /** What the result of a round tells about the tables. */
  ghost predicate Reported(r: RoundResult, t: Tables, pre: Tables, a: Attempt) {
    match r
    case Landed => Closed(t, pre, a)
    case Crashed => t == pre
    case Stuck => Stage(t, pre, a)
    case Discarded =>
      && SameData(t, pre, a.number)
      && (forall kb | kb in t.kb :: !IsManifest(a.number)(kb))
      && (StreaksMatch(pre) ==> t == pre.(kb := WithoutManifest(pre.kb, a.number)))
  }

  /**
   `gate` is when the loop passed the gate of the schedule `windows` then in force; `honest`
   says that the workers reported on their own environments.
   */
  datatype Event =
    | Idle
    | Attempted(a: Attempt, result: RoundResult, windows: seq<Window>, gate: int, honest: bool)
    | Rewound(n: int, answer: RollbackResult)

  /** From one committed state to the next, between two instants. */
  datatype Leg = Leg(pre: Tables, event: Event, post: Tables, since: int, until: int)

  ghost predicate AttemptHolds(leg: Leg, services: seq<Service>)
    requires leg.event.Attempted?
  {
    var a := leg.event.a;
    && a.services == services && FreshAttempt(leg.pre, a)
    && EngineShouldRun(leg.event.windows, leg.event.gate)
    && Stage(leg.post, leg.pre, a) && Reported(leg.event.result, leg.post, leg.pre, a)
    && (leg.event.honest ==> Pairwise(a.checks, DifferentService))
  }

  ghost predicate RewindHolds(leg: Leg)
    requires leg.event.Rewound?
  {
    var n := leg.event.n;
    && (leg.post == leg.pre || (1 <= n <= |leg.pre.rounds| && IsPartly(leg.post, leg.pre, n)))
    && (leg.event.answer.Rejected? ==> leg.post == leg.pre && (n < 1 || |leg.pre.rounds| < n))
    && (leg.event.answer.Finished? ==> 1 <= n <= |leg.pre.rounds| && leg.post == RolledBack(leg.pre, n))
  }

  ghost predicate LegHolds(leg: Leg, services: seq<Service>) {
    match leg.event
    case Idle => leg.post == leg.pre
    case Attempted(_, _, _, _, _) => AttemptHolds(leg, services)
    case Rewound(_, _) => RewindHolds(leg)
  }

  /** States that other readers may have seen on the way. */
  ghost predicate Saw(t: Tables, leg: Leg) {
    match leg.event
    case Idle => t == leg.pre
    case Attempted(a, _, _, _, _) => Stage(t, leg.pre, a)
    case Rewound(n, _) => t == leg.pre || (1 <= n <= |leg.pre.rounds| && IsPartly(t, leg.pre, n))
  }

  /** The rollback deleted something. */
  ghost predicate Rewinds(leg: Leg) { leg.event.Rewound? && leg.post != leg.pre }

  // ---- Paths ----

  ghost function StateAt(legs: seq<Leg>, k: nat, first: Tables): Tables
    requires k <= |legs|
  {
    if k == 0 then first else legs[k - 1].post
  }

  ghost predicate LegAt(legs: seq<Leg>, i: nat, first: Tables, services: seq<Service>)
    requires i < |legs|
  {
    LegHolds(legs[i], services) && legs[i].pre == StateAt(legs, i, first)
  }

  ghost predicate Path(legs: seq<Leg>, first: Tables, services: seq<Service>) {
    forall i | 0 <= i < |legs| :: LegAt(legs, i, first, services)
  }

  lemma LegOf(legs: seq<Leg>, i: nat, first: Tables, services: seq<Service>)
    requires Path(legs, first, services) && i < |legs|
    ensures LegHolds(legs[i], services) && legs[i].pre == StateAt(legs, i, first)
  {
    assert LegAt(legs, i, first, services);
  }

  ghost predicate SawOn(t: Tables, legs: seq<Leg>) {
    exists i :: 0 <= i < |legs| && Saw(t, legs[i])
  }

  /** The path leads to `last`, and accounts for every state seen since `before`. */
  ghost predicate Trace(legs: seq<Leg>, first: Tables, last: Tables, seen: set<Tables>, before: set<Tables>,
                        services: seq<Service>) {
    && Path(legs, first, services) && StateAt(legs, |legs|, first) == last
    && before <= seen && forall t | t in seen :: t in before || SawOn(t, legs)
  }

  lemma PathOneMore(legs: seq<Leg>, leg: Leg, first: Tables, services: seq<Service>)
    requires Path(legs, first, services)
    requires LegHolds(leg, services) && leg.pre == StateAt(legs, |legs|, first)
    ensures Path(legs + [leg], first, services)
  {
    var more := legs + [leg];
    forall i | 0 <= i < |more| ensures LegAt(more, i, first, services) {
      if i < |legs| {
        assert LegAt(legs, i, first, services);
      }
    }
  }

  lemma TraceOneMore(legs: seq<Leg>, leg: Leg, first: Tables, seen: set<Tables>, later: set<Tables>,
                     before: set<Tables>, services: seq<Service>)
    requires Trace(legs, first, leg.pre, seen, before, services)
    requires LegHolds(leg, services)
    requires seen <= later && forall t | t in later :: t in seen || Saw(t, leg)
    ensures Trace(legs + [leg], first, leg.post, later, before, services)
  {
    var more := legs + [leg];
    PathOneMore(legs, leg, first, services);
    forall t | t in later && t !in before ensures SawOn(t, more) {
      if t in seen {
        var i :| 0 <= i < |legs| && Saw(t, legs[i]);
        assert Saw(t, more[i]);
      } else {
        assert Saw(t, more[|legs|]);
      }
    }
  }

  // ---- Counting rounds ----

  ghost predicate NoRewound(legs: seq<Leg>) {
    forall i | 0 <= i < |legs| :: !legs[i].event.Rewound?
  }

  function Attempts(): Leg -> int { (leg: Leg) => if leg.event.Attempted? then 1 else 0 }

  predicate IsLanding(leg: Leg) { leg.event.Attempted? && leg.event.result.Landed? }

  function Landings(): Leg -> int { (leg: Leg) => if IsLanding(leg) then 1 else 0 }

  /** The round failed inside its try block. */
  predicate IsLoss(leg: Leg) { leg.event.Attempted? && (leg.event.result.Discarded? || leg.event.result.Stuck?) }

  /** The failing statements it takes at least: one in the round, and one in each cleanup that fails. */
  function Cost(leg: Leg): nat {
    if !IsLoss(leg) then 0 else if leg.event.result.Discarded? then 1 else 4
  }

  function Costs(): Leg -> int { (leg: Leg) => Cost(leg) }

  function NextInARow(failures: nat, leg: Leg): nat {
    if IsLanding(leg) then 0 else if IsLoss(leg) then failures + 1 else failures
  }

  /** Failed rounds since the last landed one, counted on from `before`. */
  function InARow(legs: seq<Leg>, before: nat): nat {
    if legs == [] then before else NextInARow(InARow(legs[..|legs| - 1], before), legs[|legs| - 1])
  }

  lemma {:induction false} OneMoreLeg(legs: seq<Leg>, leg: Leg, before: nat)
    ensures InARow(legs + [leg], before) == NextInARow(InARow(legs, before), leg)
    ensures Sum(legs + [leg], Attempts()) == Sum(legs, Attempts()) + Attempts()(leg)
    ensures Sum(legs + [leg], Landings()) == Sum(legs, Landings()) + Landings()(leg)
    ensures Sum(legs + [leg], Costs()) == Sum(legs, Costs()) + Cost(leg)
  {
    assert (legs + [leg])[..|legs|] == legs;
    SumSnoc(legs, leg, Attempts());
    SumSnoc(legs, leg, Landings());
    SumSnoc(legs, leg, Costs());
  }

  /** Every failed round of a row is paid for. */
  lemma {:induction false} InARowIsPaid(legs: seq<Leg>, before: nat)
    ensures InARow(legs, before) <= before + Sum(legs, Costs())
  {
    if legs == [] {
    } else {
      var init, leg := legs[..|legs| - 1], legs[|legs| - 1];
      assert legs == init + [leg];
      InARowIsPaid(init, before);
      OneMoreLeg(init, leg, before);
      CostsNonNegative(init);
    }
  }

  lemma {:induction false} CostsNonNegative(legs: seq<Leg>)
    ensures Sum(legs, Costs()) >= 0 && Sum(legs, Landings()) <= Sum(legs, Attempts())
  {
    if legs != [] {
      CostsNonNegative(legs[1..]);
    }
  }

  lemma {:induction false} CostOfLast(legs: seq<Leg>)
    requires legs != []
    ensures Sum(legs, Costs()) >= Cost(legs[|legs| - 1])
  {
    var init, leg := legs[..|legs| - 1], legs[|legs| - 1];
    assert legs == init + [leg];
    OneMoreLeg(init, leg, 0);
    CostsNonNegative(init);
  }

  /** Without a rollback, landed rounds stay, and only a round that could not be cleaned up may add another. */
  lemma {:induction false} LandingsAreRounds(legs: seq<Leg>, k: nat, first: Tables, services: seq<Service>)
    requires Path(legs, first, services) && NoRewound(legs) && k <= |legs|
    requires Linked(first) && Numbered(first.rounds)
    ensures |first.rounds| + Sum(legs[..k], Landings()) <= |StateAt(legs, k, first).rounds|
    ensures |StateAt(legs, k, first).rounds| <= |first.rounds| + Sum(legs[..k], Landings()) + Sum(legs[..k], Costs())
  {
    if k > 0 {
      LandingsAreRounds(legs, k - 1, first, services);
      LegOf(legs, k - 1, first, services);
      assert legs[..k] == legs[..k - 1] + [legs[k - 1]];
      OneMoreLeg(legs[..k - 1], legs[k - 1], 0);
      LegRounds(legs[k - 1], services);
    }
  }

  lemma LegRounds(leg: Leg, services: seq<Service>)
    requires LegHolds(leg, services) && !leg.event.Rewound?
    ensures |leg.pre.rounds| + (if IsLanding(leg) then 1 else 0) <= |leg.post.rounds|
    ensures |leg.post.rounds| <= |leg.pre.rounds| + (if IsLanding(leg) then 1 else 0) + Cost(leg)
  {
  }

  // ---- What a run knows and no table stores ----

  /**
   The services whose streak is known to be right, whether that is all of them, whether every
   round had one check per service, and, after a rollback that was cut short, the number from
   which on score rows and checks may disagree.
   */
  datatype Log = Log(settled: iset<int>, trusted: bool, honest: bool, damage: Option<int>)

  ghost predicate DamageHolds(damage: Option<int>, t: Tables, services: seq<Service>) {
    match damage
    case None => Sound(t, services)
    case Some(n) => 1 <= n <= |t.rounds| + 1 && Sound(RolledBack(t, n), services)
  }

  ghost predicate LogHolds(log: Log, t: Tables, services: seq<Service>) {
    && Linked(t) && Numbered(t.rounds)
    && (forall s | s in log.settled :: StreakMatches(t, s))
    && (log.trusted ==> StreaksMatch(t))
    && (log.honest ==> OneCheckEach(t))
    && DamageHolds(log.damage, t, services)
  }

  function DamageAfter(damage: Option<int>, n: int, done: bool): Option<int> {
    if damage.Some? && damage.value < n then damage
    else if done then None
    else Some(n)
  }

  ghost function NextLog(log: Log, leg: Leg): Log {
    match leg.event
    case Idle => log
    case Attempted(a, _, _, _, honest) =>
      Log(if Closed(leg.post, leg.pre, a) then iset s | s in log.settled || AnyPass(a.checks, s) else log.settled,
          log.trusted, log.honest && honest, log.damage)
    case Rewound(n, _) =>
      if leg.post == leg.pre then log
      else Log(iset{}, false, log.honest, DamageAfter(log.damage, n, leg.post == RolledBack(leg.pre, n)))
  }

  ghost function LogAt(log: Log, legs: seq<Leg>, k: nat): Log
    requires k <= |legs|
  {
    if k == 0 then log else NextLog(LogAt(log, legs, k - 1), legs[k - 1])
  }

  // ---- One leg keeps what is known ----

  lemma AttemptKeepsStreaks(log: Log, leg: Leg, services: seq<Service>)
    requires Linked(leg.pre) && leg.event.Attempted? && AttemptHolds(leg, services)
    requires forall s | s in log.settled :: StreakMatches(leg.pre, s)
    requires log.trusted ==> StreaksMatch(leg.pre)
    ensures forall s | s in NextLog(log, leg).settled :: StreakMatches(leg.post, s)
    ensures log.trusted ==> StreaksMatch(leg.post)
  {
    forall s | s in NextLog(log, leg).settled || log.trusted ensures StreakMatches(leg.post, s) {
      StagesKeepStreaks(leg.post, leg.pre, leg.event.a, s);
    }
  }

  lemma AttemptKeepsDamage(damage: Option<int>, leg: Leg, services: seq<Service>)
    requires Linked(leg.pre) && Numbered(leg.pre.rounds)
    requires leg.event.Attempted? && AttemptHolds(leg, services)
    requires DamageHolds(damage, leg.pre, services)
    ensures DamageHolds(damage, leg.post, services)
  {
    var a := leg.event.a;
    match damage
    case None => StagesAreSound(leg.post, leg.pre, a);
    case Some(n) =>
      StageKeepsBelow(leg.post, leg.pre, a, n);
      CoreIsSound(RolledBack(leg.pre, n), RolledBack(leg.post, n), services);
  }

  lemma AttemptKeepsLog(log: Log, leg: Leg, services: seq<Service>)
    requires LogHolds(log, leg.pre, services)
    requires leg.event.Attempted? && AttemptHolds(leg, services)
    ensures LogHolds(NextLog(log, leg), leg.post, services)
  {
    StagesAreLinked(leg.post, leg.pre, leg.event.a);
    AttemptKeepsStreaks(log, leg, services);
    AttemptKeepsDamage(log.damage, leg, services);
    if log.honest && leg.event.honest {
      StagesKeepOneCheckEach(leg.post, leg.pre, leg.event.a);
    }
  }

  lemma PartlyShrinks(u: Tables, t: Tables, n: int)
    requires Numbered(t.rounds) && 1 <= n <= |t.rounds| && IsPartly(u, t, n)
    ensures u.rounds == t.rounds || u.rounds == t.rounds[..n - 1]
    ensures OneCheckEach(t) ==> OneCheckEach(u)
  {
    var p :| ValidProgress(p, t, n) && u == Partly(t, n, p);
    PrefixOfNumbered(t.rounds, n);
    if OneCheckEach(t) {
      var ids := IdsFrom(t.rounds, n);
      FilterPairwise(t.checks, KeepCheck(SetOf(if p.ChecksGone? then ids[..p.i] else ids)), DifferentSlot);
    }
  }

  lemma SoundBelow(damage: Option<int>, t: Tables, n: int, services: seq<Service>)
    requires Linked(t) && Numbered(t.rounds) && 1 <= n <= |t.rounds| + 1
    requires DamageHolds(damage, t, services) && (damage.Some? ==> n <= damage.value)
    ensures Sound(RolledBack(t, n), services)
  {
    match damage
    case None => RollbackIsSound(t, n, services);
    case Some(m) =>
      RollbackIsLinked(t, m);
      PrefixOfNumbered(t.rounds, m);
      RollbackIsSound(RolledBack(t, m), n, services);
      RollTwice(t, m, n);
      CoreIsSound(RolledBack(RolledBack(t, m), n), RolledBack(t, n), services);
  }

  lemma RewindKeepsDamage(damage: Option<int>, leg: Leg, services: seq<Service>)
    requires Linked(leg.pre) && Numbered(leg.pre.rounds) && DamageHolds(damage, leg.pre, services)
    requires Rewinds(leg) && RewindHolds(leg)
    ensures DamageHolds(DamageAfter(damage, leg.event.n, leg.post == RolledBack(leg.pre, leg.event.n)), leg.post,
                        services)
  {
    var t, u, n := leg.pre, leg.post, leg.event.n;
    PartlyShrinks(u, t, n);
    if damage.Some? && damage.value < n {
      PartlyKeepsBelow(u, t, n, damage.value);
      CoreIsSound(RolledBack(t, damage.value), RolledBack(u, damage.value), services);
    } else {
      SoundBelow(damage, t, n, services);
      PartlyKeepsBelow(u, t, n, n);
      CoreIsSound(RolledBack(t, n), RolledBack(u, n), services);
    }
  }

  lemma RewindParts(damage: Option<int>, leg: Leg, services: seq<Service>)
    requires Linked(leg.pre) && Numbered(leg.pre.rounds) && DamageHolds(damage, leg.pre, services)
    requires Rewinds(leg) && RewindHolds(leg)
    ensures Linked(leg.post) && Numbered(leg.post.rounds)
    ensures OneCheckEach(leg.pre) ==> OneCheckEach(leg.post)
    ensures DamageHolds(DamageAfter(damage, leg.event.n, leg.post == RolledBack(leg.pre, leg.event.n)), leg.post,
                        services)
  {
    PartlyIsLinked(leg.post, leg.pre, leg.event.n);
    PartlyShrinks(leg.post, leg.pre, leg.event.n);
    RewindKeepsDamage(damage, leg, services);
  }

  lemma RewindKeepsLog(log: Log, leg: Leg, services: seq<Service>)
    requires LogHolds(log, leg.pre, services)
    requires Rewinds(leg) && RewindHolds(leg)
    ensures LogHolds(NextLog(log, leg), leg.post, services)
  {
    RewindParts(log.damage, leg, services);
  }

  lemma LegKeepsLog(log: Log, leg: Leg, services: seq<Service>)
    requires LogHolds(log, leg.pre, services) && LegHolds(leg, services)
    ensures LogHolds(NextLog(log, leg), leg.post, services)
  {
    if leg.event.Attempted? {
      AttemptKeepsLog(log, leg, services);
    } else if Rewinds(leg) {
      RewindKeepsLog(log, leg, services);
    }
  }

  /** What is known after `k` legs. */
  ghost predicate KnownAt(legs: seq<Leg>, k: nat, log: Log, first: Tables, services: seq<Service>)
    requires k <= |legs|
  {
    LogHolds(LogAt(log, legs, k), StateAt(legs, k, first), services)
  }

  lemma KnownFirst(legs: seq<Leg>, log: Log, first: Tables, services: seq<Service>)
    requires LogHolds(log, first, services)
    ensures KnownAt(legs, 0, log, first, services)
  {
  }

  lemma KnownNext(legs: seq<Leg>, k: nat, log: Log, first: Tables, services: seq<Service>)
    requires Path(legs, first, services) && 0 < k <= |legs|
    requires KnownAt(legs, k - 1, log, first, services)
    ensures KnownAt(legs, k, log, first, services)
  {
    LegOf(legs, k - 1, first, services);
    LegKeepsLog(LogAt(log, legs, k - 1), legs[k - 1], services);
  }

  /** After any number of legs the log tells the truth: links, numbering, streaks, scores. */
  lemma {:induction false} PathKeepsLog(legs: seq<Leg>, k: nat, log: Log, first: Tables, services: seq<Service>)
    requires Path(legs, first, services) && k <= |legs|
    requires LogHolds(log, first, services)
    ensures KnownAt(legs, k, log, first, services)
  {
    if k == 0 {
      KnownFirst(legs, log, first, services);
    } else {
      PathKeepsLog(legs, k - 1, log, first, services);
      KnownNext(legs, k, log, first, services);
    }
  }

  // ---- Every state anyone saw ----

  /**
   Every state seen on the way is linked and numbered. Unless a rollback was cut short before,
   or this is one in progress, its score rows are right; and its streaks, as long as there was
   no rollback.
   */
  lemma {:induction false} SeenStatesAreRight(legs: seq<Leg>, i: nat, t: Tables, log: Log, first: Tables,
                                              services: seq<Service>)
    requires Path(legs, first, services) && i < |legs| && Saw(t, legs[i])
    requires LogHolds(log, first, services)
    ensures Linked(t) && Numbered(t.rounds)
    ensures (legs[i].event.Rewound? ==> t == legs[i].pre) && LogAt(log, legs, i).damage.None? ==>
              Sound(t, services) && (LogAt(log, legs, i).trusted ==> Consistent(t, services))
  {
    PathKeepsLog(legs, i, log, first, services);
    LegOf(legs, i, first, services);
    SeenOnLeg(t, legs[i], LogAt(log, legs, i), services);
  }

  lemma SeenOnLeg(t: Tables, leg: Leg, log: Log, services: seq<Service>)
    requires LegHolds(leg, services) && Saw(t, leg)
    requires LogHolds(log, leg.pre, services)
    ensures Linked(t) && Numbered(t.rounds)
    ensures (leg.event.Rewound? ==> t == leg.pre) && log.damage.None? ==>
              Sound(t, services) && (log.trusted ==> Consistent(t, services))
  {
    match leg.event
    case Idle =>
    case Attempted(a, _, _, _, _) =>
      StagesAreLinked(t, leg.pre, a);
      if log.damage.None? {
        StagesAreSound(t, leg.pre, a);
        if log.trusted {
          StagesAreConsistent(t, leg.pre, a);
        }
      }
    case Rewound(n, _) =>
      if t != leg.pre {
        PartlyIsLinked(t, leg.pre, n);
      }
  }

  /** Without a rollback nothing is damaged or distrusted, and nothing unsettled. */
  lemma {:induction false} NoRewindKeepsTrust(legs: seq<Leg>, k: nat, log: Log)
    requires k <= |legs| && forall j | 0 <= j < k :: !Rewinds(legs[j])
    ensures LogAt(log, legs, k).trusted == log.trusted && LogAt(log, legs, k).damage == log.damage
    ensures log.settled <= LogAt(log, legs, k).settled
  {
    if k > 0 {
      NoRewindKeepsTrust(legs, k - 1, log);
      assert !Rewinds(legs[k - 1]);
    }
  }

  // ---- Streaks stabilise ----

  /** The round landed and `service` passed in it. */
  ghost predicate PassedOn(leg: Leg, service: int) {
    leg.event.Attempted? && Closed(leg.post, leg.pre, leg.event.a) && AnyPass(leg.event.a.checks, service)
  }

  lemma {:induction false} PassSettles(legs: seq<Leg>, i: nat, k: nat, log: Log, service: int)
    requires i < k <= |legs| && PassedOn(legs[i], service)
    requires forall j | i < j < k :: !Rewinds(legs[j])
    ensures service in LogAt(log, legs, k).settled
    decreases k
  {
    if k > i + 1 {
      PassSettles(legs, i, k - 1, log, service);
      assert !Rewinds(legs[k - 1]);
    }
  }

  /** However stale it was, a streak is right from the first pass that landed since the last rollback. */
  lemma StreakIsRightSincePass(legs: seq<Leg>, i: nat, k: nat, log: Log, first: Tables, services: seq<Service>,
                               service: int)
    requires Path(legs, first, services) && LogHolds(log, first, services)
    requires i < k <= |legs| && PassedOn(legs[i], service)
    requires forall j | i < j < k :: !Rewinds(legs[j])
    ensures StreakMatches(StateAt(legs, k, first), service)
  {
    PassSettles(legs, i, k, log, service);
    PathKeepsLog(legs, k, log, first, services);
  }

  lemma {:induction false} HonestLegs(legs: seq<Leg>, k: nat, log: Log)
    requires k <= |legs| && log.honest
    requires forall j | 0 <= j < k :: legs[j].event.Attempted? ==> legs[j].event.honest
    ensures LogAt(log, legs, k).honest
  {
    if k > 0 {
      HonestLegs(legs, k - 1, log);
    }
  }

  /** With honest workers, the column then is what the backward scan counts, for every order of its rows. */
  lemma {:induction false} ColumnIsScanSincePass(legs: seq<Leg>, i: nat, k: nat, log: Log, first: Tables,
                                                 services: seq<Service>,
                                                 service: int, rows: seq<Check>)
    requires Path(legs, first, services) && LogHolds(log, first, services)
    requires i < k <= |legs| && PassedOn(legs[i], service)
    requires forall j | i < j < k :: !Rewinds(legs[j])
    requires log.honest && forall j | 0 <= j < k :: legs[j].event.Attempted? ==> legs[j].event.honest
    requires var t := StateAt(legs, k, first); service in t.streaks && QueryResult(rows, t.checks, service)
    ensures StateAt(legs, k, first).streaks[service] == LeadingFailures(rows)
  {
    StreakIsRightSincePass(legs, i, k, log, first, services, service);
    HonestLegs(legs, k, log);
    PathKeepsLog(legs, k, log, first, services);
    StreakIsTheScan(StateAt(legs, k, first), service, rows);
  }

  // ---- Rollbacks that were cut short ----

  /** No rollback further down than `n`. */
  ghost predicate NoneBelow(legs: seq<Leg>, i: nat, k: nat, n: int)
    requires i <= k <= |legs|
  {
    forall j | i <= j < k && Rewinds(legs[j]) :: legs[j].event.n >= n
  }

  lemma {:induction false} DamageStaysAbove(legs: seq<Leg>, i: nat, k: nat, log: Log, n: int)
    requires i <= k <= |legs| && NoneBelow(legs, i, k, n)
    requires LogAt(log, legs, i).damage.None?
    ensures LogAt(log, legs, k).damage.Some? ==> LogAt(log, legs, k).damage.value >= n
    decreases k
  {
    if k > i {
      var known, leg := LogAt(log, legs, k - 1), legs[k - 1];
      DamageStaysAbove(legs, i, k - 1, log, n);
      assert Rewinds(leg) ==> leg.event.n >= n;
      assert LogAt(log, legs, k) == NextLog(known, leg);
    }
  }

  /**
   A rollback to `n` cut short any number of times, with rounds run in between and no rollback
   further down: once one to `n` finishes, score rows and checks agree again.
   */
  lemma {:induction false} RetryRepairs(legs: seq<Leg>, i: nat, k: nat, log: Log, first: Tables,
                                        services: seq<Service>, n: int)
    requires Path(legs, first, services) && LogHolds(log, first, services)
    requires i <= k < |legs| && LogAt(log, legs, i).damage.None?
    requires NoneBelow(legs, i, k, n)
    requires legs[k].event.Rewound? && legs[k].event.n == n && legs[k].event.answer.Finished?
    ensures Sound(StateAt(legs, k + 1, first), services)
  {
    FinishedAt(legs, k, log, first, services);
    FinishedRepairs(legs, i, k, log, n);
    UndamagedIsSound(legs, k + 1, log, first, services);
  }

  lemma FinishedAt(legs: seq<Leg>, k: nat, log: Log, first: Tables, services: seq<Service>)
    requires Path(legs, first, services) && LogHolds(log, first, services)
    requires k < |legs| && legs[k].event.Rewound? && legs[k].event.answer.Finished?
    ensures Rewinds(legs[k]) && legs[k].post == RolledBack(legs[k].pre, legs[k].event.n)
  {
    PathKeepsLog(legs, k, log, first, services);
    LegOf(legs, k, first, services);
    FinishedShrinks(legs[k]);
  }

  lemma FinishedRepairs(legs: seq<Leg>, i: nat, k: nat, log: Log, n: int)
    requires i <= k < |legs| && LogAt(log, legs, i).damage.None?
    requires NoneBelow(legs, i, k, n)
    requires Rewinds(legs[k]) && legs[k].event.n == n && legs[k].post == RolledBack(legs[k].pre, n)
    ensures LogAt(log, legs, k + 1).damage.None?
  {
    DamageStaysAbove(legs, i, k, log, n);
    assert LogAt(log, legs, k + 1) == NextLog(LogAt(log, legs, k), legs[k]);
  }

  lemma {:induction false} UndamagedIsSound(legs: seq<Leg>, k: nat, log: Log, first: Tables, services: seq<Service>)
    requires Path(legs, first, services) && k <= |legs|
    requires LogHolds(log, first, services) && LogAt(log, legs, k).damage.None?
    ensures Sound(StateAt(legs, k, first), services)
  {
    PathKeepsLog(legs, k, log, first, services);
  }

  lemma FinishedShrinks(leg: Leg)
    requires leg.event.Rewound? && leg.event.answer.Finished? && RewindHolds(leg)
    ensures Numbered(leg.pre.rounds) ==> Rewinds(leg)
  {
    if Numbered(leg.pre.rounds) {
      PrefixOfNumbered(leg.pre.rounds, leg.event.n);
      assert |leg.post.rounds| < |leg.pre.rounds|;
    }
  }

  // ---- Links alone ----

  /** Links and numbering need no more than themselves. */
  lemma {:induction false} PathIsLinked(legs: seq<Leg>, k: nat, first: Tables, services: seq<Service>)
    requires Path(legs, first, services) && k <= |legs|
    requires Linked(first) && Numbered(first.rounds)
    ensures Linked(StateAt(legs, k, first)) && Numbered(StateAt(legs, k, first).rounds)
  {
    if k > 0 {
      PathIsLinked(legs, k - 1, first, services);
      LegOf(legs, k - 1, first, services);
      LegIsLinked(legs[k - 1], services);
    }
  }

  lemma LegIsLinked(leg: Leg, services: seq<Service>)
    requires LegHolds(leg, services) && Linked(leg.pre) && Numbered(leg.pre.rounds)
    ensures Linked(leg.post) && Numbered(leg.post.rounds)
  {
    match leg.event
    case Idle =>
    case Attempted(a, _, _, _, _) => StagesAreLinked(leg.post, leg.pre, a);
    case Rewound(n, _) =>
      if leg.post != leg.pre {
        PartlyIsLinked(leg.post, leg.pre, n);
      }
  }

  // ---- The frozen board: how much it hides ----

  ghost predicate OnTime(leg: Leg) {
    && leg.since <= leg.until
    && (leg.event.Attempted? ==>
          leg.since <= leg.event.gate <= leg.event.a.start <= leg.event.a.end <= leg.until)
  }

  ghost function ClockAt(legs: seq<Leg>, k: nat, clock: int): int
    requires k <= |legs|
  {
    if k == 0 then clock else legs[k - 1].until
  }

  ghost predicate TimelyAt(legs: seq<Leg>, i: nat, clock: int)
    requires i < |legs|
  {
    OnTime(legs[i]) && ClockAt(legs, i, clock) <= legs[i].since
  }

  /** The clock never went back. */
  ghost predicate Timely(legs: seq<Leg>, clock: int) {
    forall i | 0 <= i < |legs| :: TimelyAt(legs, i, clock)
  }

  lemma TimelyOneMore(legs: seq<Leg>, leg: Leg, clock: int)
    requires Timely(legs, clock) && OnTime(leg) && ClockAt(legs, |legs|, clock) <= leg.since
    ensures Timely(legs + [leg], clock)
  {
    var more := legs + [leg];
    forall i | 0 <= i < |more| ensures TimelyAt(more, i, clock) {
      if i < |legs| {
        assert TimelyAt(legs, i, clock);
      }
    }
  }

  /** From `since` on the schedule was not edited. */
  ghost predicate UnderSchedule(legs: seq<Leg>, windows: seq<Window>, since: int) {
    forall i | 0 <= i < |legs| && legs[i].event.Attempted? && legs[i].event.gate >= since ::
      legs[i].event.windows == windows
  }

  ghost function NextGates(gates: seq<int>, leg: Leg): seq<int> {
    if |leg.post.rounds| < |gates| then gates[..|leg.post.rounds|]
    else if leg.event.Attempted? && |leg.post.rounds| > |leg.pre.rounds| then gates + [leg.event.gate]
    else gates
  }

  /** The gate instants of the rounds there are after `k` legs. */
  ghost function GatesAt(gates: seq<int>, legs: seq<Leg>, k: nat): seq<int>
    requires k <= |legs|
  {
    if k == 0 then gates else NextGates(GatesAt(gates, legs, k - 1), legs[k - 1])
  }

  lemma LegKeepsTimes(leg: Leg, gates: seq<int>, services: seq<Service>, windows: seq<Window>, since: int, clock: int)
    requires LegHolds(leg, services) && OnTime(leg) && Numbered(leg.pre.rounds)
    requires leg.event.Attempted? && leg.event.gate >= since ==> leg.event.windows == windows
    requires Timed(leg.pre.rounds, gates, windows, since, clock) && clock <= leg.since
    ensures Timed(leg.post.rounds, NextGates(gates, leg), windows, since, leg.until)
  {
    var before, after := leg.pre.rounds, leg.post.rounds;
    if leg.event.Attempted? && after != before {
      var r := after[|before|];
      assert after == before + [r];
      TimedAppend(before, gates, windows, since, clock, r, leg.event.gate, leg.until);
    } else {
      if Rewinds(leg) {
        PartlyShrinks(leg.post, leg.pre, leg.event.n);
      }
      var k := |after|;
      TimedPrefix(before, gates, windows, since, clock, k, leg.until);
      assert after == before[..k] && NextGates(gates, leg) == gates[..k];
    }
  }

  lemma {:induction false} PathKeepsTimes(legs: seq<Leg>, k: nat, gates: seq<int>, first: Tables,
                                          services: seq<Service>, windows: seq<Window>, since: int, clock: int)
    requires Path(legs, first, services) && Timely(legs, clock) && UnderSchedule(legs, windows, since) && k <= |legs|
    requires Linked(first) && Numbered(first.rounds) && Timed(first.rounds, gates, windows, since, clock)
    ensures Timed(StateAt(legs, k, first).rounds, GatesAt(gates, legs, k), windows, since, ClockAt(legs, k, clock))
  {
    if k > 0 {
      PathKeepsTimes(legs, k - 1, gates, first, services, windows, since, clock);
      PathIsLinked(legs, k - 1, first, services);
      LegOf(legs, k - 1, first, services);
      assert TimelyAt(legs, k - 1, clock);
      LegKeepsTimes(legs[k - 1], GatesAt(gates, legs, k - 1), services, windows, since, ClockAt(legs, k - 1, clock));
    }
  }

  /** A score row is on the frozen board exactly when its round is closed and not hidden. */
  lemma ShownUnlessHidden(t: Tables, r: Round, row: RoundScore, freeze: int)
    requires Linked(t) && r in t.rounds && row.round == r.id
    ensures Reads.InFreeze(t.rounds, Some(freeze))(row) <==> r.end.Some? && !Hidden(r, freeze)
  {
    EndOfRound(t.rounds, r);
  }

  lemma {:induction false} EndOfRound(rounds: seq<Round>, r: Round)
    requires Pairwise(rounds, IdsIncrease) && r in rounds
    ensures Reads.EndOf(rounds, r.id) == r.end
  {
    if rounds[0] != r {
      assert rounds[0].id != r.id by {
        var i :| 0 <= i < |rounds| && rounds[i] == r;
        assert IdsIncrease(rounds[0], rounds[i]);
      }
      EndOfRound(rounds[1..], r);
    }
  }

  /** After any run, a closed round that the frozen board hides passed the gate before the freeze ... */
  lemma {:induction false} RunHidesOnlyEarlierGates(legs: seq<Leg>, gates: seq<int>, first: Tables,
                                                    services: seq<Service>,
                                                    windows: seq<Window>, since: int, clock: int, now: int, i: nat)
    requires Path(legs, first, services) && Timely(legs, clock) && UnderSchedule(legs, windows, since)
    requires Linked(first) && Numbered(first.rounds) && Timed(first.rounds, gates, windows, since, clock)
    requires ClockAt(legs, |legs|, clock) <= now && GapSince(windows, since, now)
    requires var rounds := StateAt(legs, |legs|, first).rounds;
             i < |rounds| && Hidden(rounds[i], FreezeOf(windows, now))
    ensures i < |GatesAt(gates, legs, |legs|)| && GatesAt(gates, legs, |legs|)[i] < FreezeOf(windows, now)
  {
    PathKeepsTimes(legs, |legs|, gates, first, services, windows, since, clock);
    HiddenRoundsStartedEarlier(StateAt(legs, |legs|, first).rounds, GatesAt(gates, legs, |legs|), windows, since,
                               ClockAt(legs, |legs|, clock), now, i);
  }

  /** ... and there is at most one such round. */
  lemma RunHidesAtMostOneRound(legs: seq<Leg>, gates: seq<int>, first: Tables, services: seq<Service>,
                               windows: seq<Window>, since: int, clock: int, now: int, i: nat, j: nat)
    requires Path(legs, first, services) && Timely(legs, clock) && UnderSchedule(legs, windows, since)
    requires Linked(first) && Numbered(first.rounds) && Timed(first.rounds, gates, windows, since, clock)
    requires ClockAt(legs, |legs|, clock) <= now && GapSince(windows, since, now)
    requires var rounds := StateAt(legs, |legs|, first).rounds;
             && i < |rounds| && Hidden(rounds[i], FreezeOf(windows, now))
             && j < |rounds| && Hidden(rounds[j], FreezeOf(windows, now))
    ensures i == j
  {
    PathKeepsTimes(legs, |legs|, gates, first, services, windows, since, clock);
    AtMostOneHiddenRound(StateAt(legs, |legs|, first).rounds, GatesAt(gates, legs, |legs|), windows, since,
                         ClockAt(legs, |legs|, clock), now, i, j);
  }

  // ---- The frozen board: what it shows ----

  /** Any two states seen during one attempt are related by a step of the snapshot theorem. */
  lemma SeenStatesAreSteps(legs: seq<Leg>, i: nat, t: Tables, u: Tables, first: Tables, services: seq<Service>)
    requires Path(legs, first, services) && Linked(first) && Numbered(first.rounds)
    requires i < |legs| && legs[i].event.Attempted? && Saw(t, legs[i]) && Saw(u, legs[i])
    ensures Freeze.RoundStep(t, u, legs[i].pre, legs[i].event.a)
  {
    PathIsLinked(legs, i, first, services);
    LegOf(legs, i, first, services);
  }

  /** States an observer noted in order: from one to the next the run was on leg `on[j]`. */
  ghost predicate Observed(states: seq<Tables>, on: seq<nat>, legs: seq<Leg>) {
    && |states| == |on| + 1
    && (forall j | 0 <= j < |on| :: ObservedAt(states, on, legs, j))
  }

  ghost predicate ObservedAt(states: seq<Tables>, on: seq<nat>, legs: seq<Leg>, j: nat)
    requires |states| == |on| + 1 && j < |on|
  {
    on[j] < |legs| && Saw(states[j], legs[on[j]]) && Saw(states[j + 1], legs[on[j]])
  }

  ghost function StepOf(leg: Leg): Freeze.Step {
    if leg.event.Attempted? then Freeze.Attempted(leg.pre, leg.event.a) else Freeze.Unchanged
  }

  function BoardOf(t: Tables): Freeze.Board { Freeze.Board(t, [], []) }

  ghost function BoardsOf(states: seq<Tables>): seq<Freeze.Board> {
    seq(|states|, j requires 0 <= j < |states| => BoardOf(states[j]))
  }

  ghost function StepsOf(on: seq<nat>, legs: seq<Leg>): seq<Freeze.Step> {
    seq(|on|, j requires 0 <= j < |on| => if on[j] < |legs| then StepOf(legs[on[j]]) else Freeze.Unchanged)
  }

  lemma ObservedIsHistory(states: seq<Tables>, on: seq<nat>, legs: seq<Leg>, first: Tables, services: seq<Service>)
    requires Path(legs, first, services) && Linked(first) && Numbered(first.rounds)
    requires NoRewound(legs) && Observed(states, on, legs)
    ensures Freeze.History(BoardsOf(states), StepsOf(on, legs))
  {
    var boards, steps := BoardsOf(states), StepsOf(on, legs);
    forall j | 0 <= j < |steps| ensures Freeze.StepHolds(boards[j], boards[j + 1], steps[j]) {
      assert ObservedAt(states, on, legs, j);
      if legs[on[j]].event.Attempted? {
        SeenStatesAreSteps(legs, on[j], states[j], states[j + 1], first, services);
      }
    }
  }

  /** Every team's total, frozen in `t`, is its live total in `u`. */
  ghost predicate FrozenTotals(t: Tables, freeze: int, u: Tables) {
    forall team, c :: Reads.ServiceScore(t, Some(freeze), team, c) == Reads.ServiceScore(u, None, team, c)
  }

  lemma TotalsAreReads(t: Tables, freeze: int, u: Tables)
    ensures Freeze.SameReads(BoardOf(t), Some(freeze), BoardOf(u), None) <==> FrozenTotals(t, freeze, u)
  {
  }

  /**
   The snapshot theorem for a run without rollbacks. An observer notes states in any detail;
   those up to `states[k]` are of the freeze instant and before. From then on every noted
   state's frozen totals are the live ones of `states[k]`, if and only if no round that earned
   something and ends up to the freeze lands or is discarded between two of them.
   */
  lemma FrozenRunIsSnapshot(states: seq<Tables>, on: seq<nat>, legs: seq<Leg>, first: Tables, services: seq<Service>,
                            k: nat, freeze: int)
    requires Path(legs, first, services) && Linked(first) && Numbered(first.rounds) && NoRewound(legs)
    requires Observed(states, on, legs) && k <= |on|
    requires Freeze.Recorded(BoardOf(states[0]), freeze)
    requires forall j | 0 <= j < k ::
               Freeze.InTimeStep(BoardsOf(states)[j + 1], StepsOf(on, legs)[j], freeze)
    ensures (forall j | k <= j <= |on| :: FrozenTotals(states[j], freeze, states[k])) <==>
            (forall j | k <= j < |on| :: Freeze.PunctualAt(BoardsOf(states), StepsOf(on, legs), j, freeze))
  {
    var boards, steps := BoardsOf(states), StepsOf(on, legs);
    ObservedIsHistory(states, on, legs, first, services);
    Freeze.FrozenViewIsSnapshot(boards, steps, k, freeze);
    forall j | k <= j <= |on|
      ensures FrozenTotals(states[j], freeze, states[k]) <==>
              Freeze.SameReads(boards[j], Some(freeze), boards[k], None)
    {
      TotalsAreReads(states[j], freeze, states[k]);
    }
  }
}
