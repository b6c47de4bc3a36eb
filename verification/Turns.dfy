/** The turns of the main loop, and how they account for the legs of a run. */
module Turns {
  import opened Sums
  import opened Store
  import opened Streaks
  import opened Scores
  import opened Tasks
  import opened Lifecycle
  import opened Plans
  import opened Runs
  import opened Schedule

  /** One iteration of the main loop: what an administrator did just before it, and what the engine meets. */
  datatype Turn = Turn(rollback: Option<int>, paused: bool, windows: seq<Window>,
                       now: int, start: int, end: int, plan: Plan)

  /** What the account of a run looks at, at one point of it ... */
  datatype Mark = Mark(tables: Tables, seen: set<Tables>, ops: nat, roundsRun: nat, failures: nat)

  /** ... and what does not change. */
  datatype Setting = Setting(services: seq<Service>, search: Search, limit: nat, script: nat -> Fate)

  /** The last statement did not fail. */
  ghost predicate Worked(c: Setting, m: Mark) { m.ops > 0 && c.script(m.ops - 1) == Works }

  /** Nothing keeps the engine from running a round. */
  predicate Open(turn: Turn) {
    turn.rollback.None? && !turn.paused && EngineShouldRun(turn.windows, turn.now) && Supported(turn.plan)
  }

  ghost predicate AllOpen(turns: seq<Turn>) { forall k | 0 <= k < |turns| :: Open(turns[k]) }

  function ClockAfter(turns: seq<Turn>, k: nat, clock: int): int
    requires k <= |turns|
  {
    if k == 0 then clock else turns[k - 1].end
  }

  /** The clock never goes back. */
  ghost predicate Chronological(turns: seq<Turn>, clock: int) {
    forall k {:trigger ClockAfter(turns, k, clock)} | 0 <= k < |turns| ::
      ClockAfter(turns, k, clock) <= turns[k].now <= turns[k].start <= turns[k].end
  }

  lemma {:induction false} LaterClock(turns: seq<Turn>, i: nat, j: nat, clock: int)
    requires i <= j <= |turns| && Chronological(turns, clock)
    ensures ClockAfter(turns, i, clock) <= ClockAfter(turns, j, clock)
    decreases j
  {
    if i < j {
      LaterClock(turns, i, j - 1, clock);
    }
  }

  /** The leg comes from this turn: its rollback, or its round, with the checks its plan calls for. */
  ghost predicate LegOfTurn(leg: Leg, turn: Turn, search: Search) {
    match leg.event
    case Idle => true
    case Attempted(a, _, windows, gate, honest) =>
      && windows == turn.windows && gate == turn.now && honest == HonestPlan(turn.plan)
      && !turn.paused && (turn.windows == [] || InSomeWindow(turn.windows, turn.now))
      && a.start == turn.start && a.end == turn.end && FitsPlan(a, turn.plan, search)
    case Rewound(n, _) => turn.rollback == Some(n)
  }

  /**
   When the engine process goes on after a turn: idle, as long as no statement failed, and
   then only for a pause or a closed gate; after a landed round likewise; after a failed one
   below the limit; and never after an exception during dispatch.
   */
  ghost predicate GoesOn(go: bool, event: Event, turn: Turn, failures: nat, limit: nat, worked: bool) {
    match event
    case Idle =>
      (go <==> worked) && (go ==> turn.paused || (turn.windows != [] && !InSomeWindow(turn.windows, turn.now)))
    case Attempted(_, Landed, _, _, _) => go <==> worked
    case Attempted(_, Crashed, _, _, _) => !go && (!worked || !Supported(turn.plan))
    case Attempted(_, _, _, _, _) => go <==> limit == 0 || failures < limit
    case Rewound(_, _) => false
  }

  /**
   The account of `i` turns. Failed rounds in a row are what the counter says; every failed
   round is paid for by failing statements of its own, a round that cannot be cleaned up by
   four; an open turn that lands no round costs a failing statement; and the process stopped
   early only where `GoesOn` says so.
   */
  ghost predicate Ledger(legs: seq<Leg>, turns: seq<Turn>, i: nat, go: bool, before: nat, failures: nat, limit: nat,
                         worked: bool, faults: nat)
  {
    && i <= |turns| && Sum(legs, Attempts()) <= i
    && failures == InARow(legs, before)
    && Sum(legs, Costs()) <= faults
    && (AllOpen(turns) ==> i <= Sum(legs, Landings()) + faults)
    && (!go ==> i > 0 && legs != []
                && GoesOn(false, legs[|legs| - 1].event, turns[i - 1], failures, limit, worked))
  }

  /** One turn, from `e` to `e'`: what it counts and costs, and whether the process goes on. */
  ghost predicate LegTaken(c: Setting, e: Mark, e': Mark, leg: Leg, turn: Turn, go: bool) {
    && e.ops < e'.ops
    && e'.roundsRun == e.roundsRun + (if leg.event.Attempted? then 1 else 0)
    && e'.failures == NextInARow(e.failures, leg)
    && GoesOn(go, leg.event, turn, e'.failures, c.limit, Worked(c, e'))
    && Cost(leg) <= Faults(c.script, e.ops, e'.ops)
  }

  /** How a round ended tells how many statements failed at least. */
  ghost predicate Paid(r: RoundResult, faults: nat) {
    match r
    case Landed => faults == 0
    case Discarded => faults >= 1
    case Stuck => faults >= 4
    case Crashed => true
  }

  /** How a round ended: the statements it sent, and the count of failed rounds before and after it. */
  ghost predicate Ended(r: RoundResult, supported: bool, script: nat -> Fate, from: nat, to: nat, before: nat,
                        after: nat) {
    && from < to
    && (r.Crashed? <==> script(from) != Works || !supported) && (r.Crashed? ==> to == from + 1)
    && after == (if r.Crashed? then before else if r.Landed? then 0 else before + 1)
    && (!r.Crashed? ==> Paid(r, Faults(script, from, to)))
    && (r.Landed? ==> script(to - 1) == Works)
  }

  lemma {:induction false} EndedAfterDispatch(r: RoundResult, script: nat -> Fate, from: nat, to: nat, before: nat,
                                              after: nat)
    requires from + 1 < to && script(from) == Works && !r.Crashed? && Paid(r, Faults(script, from + 1, to))
    requires after == (if r.Landed? then 0 else before + 1) && (r.Landed? ==> script(to - 1) == Works)
    ensures Ended(r, true, script, from, to, before, after)
  {
    FirstWorks(script, from, to);
  }

  /** A round that ended, and after a landed one perhaps the statement that looks up the pace. */
  lemma RoundTaken(c: Setting, e: Mark, ops: nat, e': Mark, leg: Leg, turn: Turn, go: bool)
    requires leg.event.Attempted? && e'.roundsRun == e.roundsRun + 1
    requires Ended(leg.event.result, Supported(turn.plan), c.script, e.ops, ops, e.failures, e'.failures)
    requires e'.ops == ops || (e'.ops == ops + 1 && IsLanding(leg))
    requires go <==> if IsLoss(leg) then c.limit == 0 || e'.failures < c.limit
                     else IsLanding(leg) && (e'.ops > ops ==> c.script(ops) == Works)
    ensures LegTaken(c, e, e', leg, turn, go)
  {
    FaultsAdd(c.script, e.ops, ops, e'.ops);
  }

  /** What is kept of the first `i` turns of a run from `s` to `e`. */
  ghost predicate OnAccount(c: Setting, s: Mark, e: Mark, legs: seq<Leg>, turns: seq<Turn>, i: nat, go: bool,
                            clock: int)
    requires i <= |turns|
  {
    && s.ops <= e.ops && (i > 0 ==> s.ops < e.ops)
    && Trace(legs, s.tables, e.tables, e.seen, s.seen, c.services)
    && FromTurns(legs, turns, c.search) && TurnOf(legs, |legs|) == i
    && (Chronological(turns, clock) ==> InStep(legs, turns, i, clock))
    && e.roundsRun == s.roundsRun + Sum(legs, Attempts())
    && Ledger(legs, turns, i, go, s.failures, e.failures, c.limit, Worked(c, e), Faults(c.script, s.ops, e.ops))
  }

  lemma BeginAccount(c: Setting, s: Mark, turns: seq<Turn>, clock: int)
    ensures OnAccount(c, s, s, [], turns, 0, true, clock)
  {
  }

  lemma MoreAccount(c: Setting, s: Mark, e: Mark, e': Mark, legs: seq<Leg>, legs': seq<Leg>, turns: seq<Turn>, i: nat,
                    go: bool, clock: int)
    requires i < |turns| && OnAccount(c, s, e, legs, turns, i, true, clock)
    requires Trace(legs', s.tables, e'.tables, e'.seen, s.seen, c.services)
    requires TurnTaken(turns[i], legs, legs', ClockAfter(turns, i, clock), c.search)
    requires LegTaken(c, e, e', legs'[|legs'| - 1], turns[i], go)
    ensures OnAccount(c, s, e', legs', turns, i + 1, go, clock)
  {
    var now := ClockAfter(turns, i, clock);
    FaultsAdd(c.script, s.ops, e.ops, e'.ops);
    LastFault(c.script, e.ops, e'.ops);
    MoreFromTurns(legs, legs', turns, i, clock, c.search);
    if Chronological(turns, clock) {
      MoreInStep(legs, legs', turns, i, clock, c.search);
    }
    MoreLegs(turns[i], legs, legs', now, c.search, s.failures);
    MoreLedger(legs, legs', turns, i, go, s.failures, e.failures, e'.failures, c.limit, Worked(c, e'),
               Faults(c.script, s.ops, e.ops), Faults(c.script, e.ops, e'.ops), now, c.search);
  }

  /** A rollback before a turn's leg changes none of the counts. */
  lemma {:induction false} MoreLegs(turn: Turn, legs: seq<Leg>, legs': seq<Leg>, now: int, search: Search, before: nat)
    requires TurnTaken(turn, legs, legs', now, search)
    ensures var leg := legs'[|legs'| - 1];
            && InARow(legs', before) == NextInARow(InARow(legs, before), leg)
            && Sum(legs', Attempts()) == Sum(legs, Attempts()) + (if leg.event.Attempted? then 1 else 0)
            && Sum(legs', Landings()) == Sum(legs, Landings()) + (if IsLanding(leg) then 1 else 0)
            && Sum(legs', Costs()) == Sum(legs, Costs()) + Cost(leg)
  {
    var leg := legs'[|legs'| - 1];
    if |legs'| == |legs| + 2 {
      assert legs' == legs + [legs'[|legs|]] + [leg];
      OneMoreLeg(legs, legs'[|legs|], before);
      OneMoreLeg(legs + [legs'[|legs|]], leg, before);
    } else {
      assert legs' == legs + [leg];
      OneMoreLeg(legs, leg, before);
    }
  }

  lemma MoreLedger(legs: seq<Leg>, legs': seq<Leg>, turns: seq<Turn>, i: nat, go: bool, before: nat, failures: nat,
                   failures': nat, limit: nat, worked: bool, faults: nat, more: nat, now: int, search: Search)
    requires i < |turns| && Ledger(legs, turns, i, true, before, failures, limit, true, faults)
    requires TurnTaken(turns[i], legs, legs', now, search)
    requires var leg := legs'[|legs'| - 1];
             && failures' == NextInARow(failures, leg) && Cost(leg) <= more
             && GoesOn(go, leg.event, turns[i], failures', limit, worked)
    requires !worked ==> more >= 1
    ensures Ledger(legs', turns, i + 1, go, before, failures', limit, worked, faults + more)
  {
    MoreLegs(turns[i], legs, legs', now, search, before);
    if AllOpen(turns) {
      assert Open(turns[i]);
    }
  }

  /** Open turns and no failing statement: every turn lands a round. */
  lemma SmoothRun(c: Setting, s: Mark, e: Mark, legs: seq<Leg>, turns: seq<Turn>, i: nat, go: bool, clock: int)
    requires i <= |turns| && OnAccount(c, s, e, legs, turns, i, go, clock)
    requires Linked(s.tables) && Numbered(s.tables.rounds)
    ensures AllOpen(turns) && Faults(c.script, s.ops, e.ops) == 0 ==>
              go && e.roundsRun == s.roundsRun + i && |e.tables.rounds| == |s.tables.rounds| + i
  {
    if AllOpen(turns) && Faults(c.script, s.ops, e.ops) == 0 {
      if i > 0 {
        LastFault(c.script, s.ops, e.ops);
      }
      if legs != [] {
        CostOfLast(legs);
      }
      CostsNonNegative(legs);
      OpenTurnsRewindNothing(legs, turns, c.search);
      LandingsAreRounds(legs, |legs|, s.tables, c.services);
      assert legs[..|legs|] == legs;
    }
  }

  /**
   With fewer failing statements than failed rounds are tolerated, open turns end early only
   at the last round asked for, or by a statement that failed outside a round; and all turns
   but as many as statements failed land a round.
   */
  lemma {:induction false} FewFaultsAreSurvived(c: Setting, s: Mark, e: Mark, legs: seq<Leg>, turns: seq<Turn>,
                                                i: nat, go: bool, clock: int)
    requires i <= |turns| && OnAccount(c, s, e, legs, turns, i, go, clock) && AllOpen(turns)
    requires c.limit == 0 || s.failures + Faults(c.script, s.ops, e.ops) < c.limit
    ensures Sum(legs, Landings()) >= i - Faults(c.script, s.ops, e.ops)
    ensures go || (!Worked(c, e) && legs != [] && !IsLoss(legs[|legs| - 1]))
  {
    InARowIsPaid(legs, s.failures);
    assert i > 0 ==> Open(turns[i - 1]);
  }

  /** A turn adds one leg, or two when there was a rollback first. */
  ghost predicate TurnTaken(turn: Turn, legs: seq<Leg>, legs': seq<Leg>, now: int, search: Search) {
    && |legs| < |legs'| <= |legs| + 2 && legs <= legs'
    && (forall i | |legs| <= i < |legs'| :: LegOfTurn(legs'[i], turn, search))
    && (forall i | |legs| <= i < |legs'| :: legs'[i].since == now)
    && (|legs'| == |legs| + 2 ==> legs'[|legs|].until == now && legs'[|legs|].event.Rewound?)
    && !legs'[|legs'| - 1].event.Rewound?
    && legs'[|legs'| - 1].until == turn.end
    && (now <= turn.now <= turn.start <= turn.end ==> OnTime(legs'[|legs'| - 1]))
  }

  /** The turn that leg `i` belongs to: every leg but a rollback's ends one. */
  function TurnOf(legs: seq<Leg>, i: nat): nat
    requires i <= |legs|
  {
    if i == 0 then 0 else TurnOf(legs, i - 1) + if legs[i - 1].event.Rewound? then 0 else 1
  }

  lemma {:induction false} TurnOfPrefix(legs: seq<Leg>, legs': seq<Leg>, i: nat)
    requires legs <= legs' && i <= |legs|
    ensures TurnOf(legs', i) == TurnOf(legs, i)
  {
    if i > 0 {
      TurnOfPrefix(legs, legs', i - 1);
    }
  }

  ghost predicate FromTurn(legs: seq<Leg>, i: nat, turns: seq<Turn>, search: Search)
    requires i < |legs|
  {
    TurnOf(legs, i) < |turns| && LegOfTurn(legs[i], turns[TurnOf(legs, i)], search)
  }

  /** The legs are those of the turns, in order. */
  ghost predicate FromTurns(legs: seq<Leg>, turns: seq<Turn>, search: Search) {
    forall i | 0 <= i < |legs| :: FromTurn(legs, i, turns, search)
  }

  /** The legs so far fit the clock of the turns so far. */
  ghost predicate InStep(legs: seq<Leg>, turns: seq<Turn>, k: nat, clock: int)
    requires k <= |turns|
  {
    Timely(legs, clock) && ClockAt(legs, |legs|, clock) == ClockAfter(turns, k, clock)
  }

  lemma MoreInStep(legs: seq<Leg>, legs': seq<Leg>, turns: seq<Turn>, k: nat, clock: int, search: Search)
    requires k < |turns| && InStep(legs, turns, k, clock) && Chronological(turns, clock)
    requires TurnTaken(turns[k], legs, legs', ClockAfter(turns, k, clock), search)
    ensures InStep(legs', turns, k + 1, clock)
  {
    var now, last := ClockAfter(turns, k, clock), |legs'| - 1;
    assert now <= turns[k].now <= turns[k].start <= turns[k].end;
    if last == |legs| + 1 {
      TimelyOneMore(legs, legs'[|legs|], clock);
      TimelyOneMore(legs + [legs'[|legs|]], legs'[last], clock);
      assert legs' == legs + [legs'[|legs|]] + [legs'[last]];
    } else {
      TimelyOneMore(legs, legs'[last], clock);
      assert legs' == legs + [legs'[last]];
    }
  }

  lemma OldLegsStay(legs: seq<Leg>, legs': seq<Leg>, i: nat, turns: seq<Turn>, search: Search)
    requires legs <= legs' && i < |legs| && FromTurn(legs, i, turns, search)
    ensures FromTurn(legs', i, turns, search)
  {
    TurnOfPrefix(legs, legs', i);
  }

  lemma {:induction false} MoreFromTurns(legs: seq<Leg>, legs': seq<Leg>, turns: seq<Turn>, k: nat, clock: int,
                                         search: Search)
    requires k < |turns| && FromTurns(legs, turns, search) && TurnOf(legs, |legs|) == k
    requires TurnTaken(turns[k], legs, legs', ClockAfter(turns, k, clock), search)
    ensures FromTurns(legs', turns, search) && TurnOf(legs', |legs'|) == k + 1
  {
    TurnOfPrefix(legs, legs', |legs|);
    forall i | 0 <= i < |legs'| ensures FromTurn(legs', i, turns, search) {
      if i < |legs| {
        OldLegsStay(legs, legs', i, turns, search);
      } else {
        assert LegOfTurn(legs'[i], turns[k], search) && TurnOf(legs', i) == k;
      }
    }
  }

  /** A schedule that no administrator edits from `since` on. */
  lemma ScheduledTurns(legs: seq<Leg>, turns: seq<Turn>, search: Search, windows: seq<Window>, since: int)
    requires FromTurns(legs, turns, search)
    requires forall k | 0 <= k < |turns| && turns[k].now >= since :: turns[k].windows == windows
    ensures UnderSchedule(legs, windows, since)
  {
    forall i | 0 <= i < |legs| && legs[i].event.Attempted? && legs[i].event.gate >= since
      ensures legs[i].event.windows == windows
    {
      assert FromTurn(legs, i, turns, search);
    }
  }

  ghost predicate NoRollback(turns: seq<Turn>) {
    forall k | 0 <= k < |turns| :: turns[k].rollback.None?
  }

  lemma QuietTurns(legs: seq<Leg>, turns: seq<Turn>, search: Search)
    requires FromTurns(legs, turns, search) && NoRollback(turns)
    ensures forall i | 0 <= i < |legs| :: !legs[i].event.Rewound?
  {
    forall i | 0 <= i < |legs| ensures !legs[i].event.Rewound? {
      assert FromTurn(legs, i, turns, search);
    }
  }

  lemma OpenTurnsRewindNothing(legs: seq<Leg>, turns: seq<Turn>, search: Search)
    requires FromTurns(legs, turns, search) && AllOpen(turns)
    ensures NoRewound(legs)
  {
    forall k | 0 <= k < |turns| ensures turns[k].rollback.None? {
      assert Open(turns[k]);
    }
    QuietTurns(legs, turns, search);
  }

  /** Without a schedule and a pause, a turn in which no statement fails attempts a round. */
  lemma NoScheduleNoIdling(c: Setting, e: Mark, e': Mark, leg: Leg, turn: Turn, go: bool)
    requires LegTaken(c, e, e', leg, turn, go) && Faults(c.script, e.ops, e'.ops) == 0
    requires !turn.paused && turn.windows == []
    ensures leg.event.Attempted?
  {
    LastFault(c.script, e.ops, e'.ops);
  }

  /** The checks of every round of a run answer the plan of its turn; a landed round has added them to the history. */
  lemma {:induction false} RunAnswersPlans(legs: seq<Leg>, turns: seq<Turn>, search: Search, first: Tables,
                                           services: seq<Service>, i: nat)
    requires Path(legs, first, services) && FromTurns(legs, turns, search)
    requires forall k | 0 <= k < |turns| :: ValidPlan(turns[k].plan, services)
    requires i < |legs| && legs[i].event.Attempted?
    ensures TurnOf(legs, i) < |turns| && Answers(legs[i].event.a.checks, turns[TurnOf(legs, i)].plan, search)
    ensures IsLanding(legs[i]) ==> legs[i].post.checks == legs[i].pre.checks + legs[i].event.a.checks
  {
    assert FromTurn(legs, i, turns, search);
    LegOf(legs, i, first, services);
    FittingChecksAnswer(legs[i].event.a, turns[TurnOf(legs, i)].plan, services, search);
  }

  ghost predicate HonestTurns(turns: seq<Turn>) {
    forall k | 0 <= k < |turns| :: HonestPlan(turns[k].plan)
  }

  lemma HonestTurnsAreHonestLegs(legs: seq<Leg>, turns: seq<Turn>, search: Search)
    requires FromTurns(legs, turns, search) && HonestTurns(turns)
    ensures forall i | 0 <= i < |legs| :: legs[i].event.Attempted? ==> legs[i].event.honest
  {
    forall i | 0 <= i < |legs| ensures legs[i].event.Attempted? ==> legs[i].event.honest {
      assert FromTurn(legs, i, turns, search);
    }
  }

  /** Crash-atomic scoring: without a rollback, every state anyone saw during a run has right scores and streaks. */
  lemma RunIsCrashAtomic(legs: seq<Leg>, turns: seq<Turn>, search: Search, t: Tables, log: Log, first: Tables,
                         services: seq<Service>)
    requires Path(legs, first, services) && FromTurns(legs, turns, search) && NoRollback(turns)
    requires LogHolds(log, first, services) && log.damage.None? && SawOn(t, legs)
    ensures Sound(t, services) && (log.trusted ==> Consistent(t, services))
  {
    QuietTurns(legs, turns, search);
    var i :| 0 <= i < |legs| && Saw(t, legs[i]);
    NoRewindKeepsTrust(legs, i, log);
    SeenStatesAreRight(legs, i, t, log, first, services);
  }

  /** With honest workers the history a run leaves holds one check per service and round. */
  lemma HonestRunIsUnmixed(legs: seq<Leg>, turns: seq<Turn>, search: Search, log: Log, first: Tables,
                           services: seq<Service>)
    requires Path(legs, first, services) && FromTurns(legs, turns, search) && HonestTurns(turns)
    requires LogHolds(log, first, services) && log.honest
    ensures OneCheckEach(StateAt(legs, |legs|, first))
  {
    HonestTurnsAreHonestLegs(legs, turns, search);
    HonestLegs(legs, |legs|, log);
    PathKeepsLog(legs, |legs|, log, first, services);
  }

  ghost predicate SeenStages(seen: set<Tables>, before: set<Tables>, pre: Tables, a: Attempt) {
    forall t | t in seen :: t in before || Stage(t, pre, a)
  }

  /** A round that was run on a turn is a leg of it. */
  lemma RoundLeg(leg: Leg, turn: Turn, services: seq<Service>, search: Search, seen: set<Tables>, before: set<Tables>)
    requires leg.event.Attempted? && FreshAttempt(leg.pre, leg.event.a) && leg.event.a.services == services
    requires leg.event.windows == turn.windows && leg.event.gate == turn.now
    requires leg.event.honest == HonestPlan(turn.plan)
    requires !turn.paused && EngineShouldRun(turn.windows, turn.now)
    requires leg.event.a.start == turn.start && leg.event.a.end == turn.end && leg.until == turn.end
    requires FitsPlan(leg.event.a, turn.plan, search)
    requires HonestPlan(turn.plan) ==> Pairwise(leg.event.a.checks, DifferentService)
    requires Stage(leg.post, leg.pre, leg.event.a)
    requires Reported(leg.event.result, leg.post, leg.pre, leg.event.a)
    requires SeenStages(seen, before, leg.pre, leg.event.a)
    ensures LegHolds(leg, services) && LegOfTurn(leg, turn, search) && SeenOn(seen, before, leg)
    ensures leg.since <= turn.now <= turn.start <= turn.end ==> OnTime(leg)
  {
  }

  ghost predicate SeenOn(seen: set<Tables>, before: set<Tables>, leg: Leg) {
    forall t | t in seen :: t in before || Saw(t, leg)
  }
}
