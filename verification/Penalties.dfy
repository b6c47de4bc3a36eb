/** The batched SLA penalties and the per-service loop they replace. */
module Penalties {
  import opened Sums
  import opened Store
  import opened Streaks
  import opened Scores
  import opened Sla
  import opened Lifecycle

  // ---- Three buckets against one sum per check ----

  function Early(c: Config): int -> int { (round: int) => if round <= c.earlyRounds then 1 else 0 }

  function Middle(c: Config): int -> int {
    (round: int) => if round > c.earlyRounds && round < c.lateStart then 1 else 0
  }

  function Late(c: Config): int -> int {
    (round: int) => if round > c.earlyRounds && round >= c.lateStart then 1 else 0
  }

  function Bucketed(passing: seq<int>, points: int, c: Config): int {
    Sum(passing, Early(c)) * Scale(points, c.earlyMultiplier)
    + Sum(passing, Middle(c)) * points
    + Sum(passing, Late(c)) * Scale(points, c.lateMultiplier)
  }

  function PassCount(service: int): Check -> int {
    (c: Check) => if c.service == service && c.result then 1 else 0
  }

  /** `_service_base_scores` for one service. */
  function BatchedBase(t: Tables, s: Service, c: Config): int {
    if c.dynamicEnabled then Bucketed(PassingRounds(t.rounds, t.checks, s.id), s.points, c)
    else Sum(t.checks, PassCount(s.id)) * s.points
  }

  lemma ScaleOne(points: int)
    ensures Scale(points, 1.0) == points
  {
    assert points as real * 1.0 == points as real;
  }

  lemma TimesOneMore(n: int, k: int)
    ensures (n + 1) * k == n * k + k
  {
  }

  /** Counting per bucket loses nothing, even when the late phase starts inside the early one. */
  lemma {:induction false} BucketsEqualPerCheckSum(passing: seq<int>, points: int, c: Config)
    requires c.dynamicEnabled
    ensures Bucketed(passing, points, c) == Sum(passing, PointsAt(points, c))
  {
    if passing != [] {
      var rest := passing[1..];
      BucketsEqualPerCheckSum(rest, points, c);
      ScaleOne(points);
      TimesOneMore(Sum(rest, Early(c)), Scale(points, c.earlyMultiplier));
      TimesOneMore(Sum(rest, Middle(c)), points);
      TimesOneMore(Sum(rest, Late(c)), Scale(points, c.lateMultiplier));
    }
  }

  lemma {:induction false} PassCountIsLength(rounds: seq<Round>, checks: seq<Check>, service: int)
    requires forall c | c in checks :: HasId(rounds, c.round)
    ensures Sum(checks, PassCount(service)) == |PassingRounds(rounds, checks, service)|
  {
    if checks != [] {
      PassCountIsLength(rounds, checks[1..], service);
      assert HasId(rounds, checks[0].round);
    }
  }

  lemma BatchedBaseIsServiceBase(t: Tables, s: Service, c: Config)
    requires Linked(t)
    ensures BatchedBase(t, s, c) == ServiceBase(t, s, c)
  {
    var passing := PassingRounds(t.rounds, t.checks, s.id);
    if c.dynamicEnabled {
      BucketsEqualPerCheckSum(passing, s.points, c);
    } else {
      PassCountIsLength(t.rounds, t.checks, s.id);
      PlainBase(passing, s.points, c);
    }
  }

  // ---- team_penalties ----

  /** What one service adds to its team's penalty in the batched read. */
  function BatchedPenalty(t: Tables, c: Config, team: int): Service -> int {
    (s: Service) =>
      var percent := PenaltyPercent(Get(t.streaks, s.id, 0), c);
      if s.team == team && percent > 0 then PenaltyPoints(BatchedBase(t, s, c), percent) else 0
  }

  datatype Penalized = Penalized(service: Service, percent: int)

  function RowPenalty(t: Tables, c: Config, team: int): Penalized -> int {
    (row: Penalized) =>
      if row.service.team == team then PenaltyPoints(BatchedBase(t, row.service, c), row.percent) else 0
  }

  lemma {:induction false} RowPenaltySnoc(t: Tables, c: Config, rows: seq<Penalized>, row: Penalized)
    ensures forall team :: Sum(rows + [row], RowPenalty(t, c, team)) ==
                           Sum(rows, RowPenalty(t, c, team))
                           + if row.service.team == team
                             then PenaltyPoints(BatchedBase(t, row.service, c), row.percent) else 0
  {
    forall team ensures Sum(rows + [row], RowPenalty(t, c, team)) ==
                        Sum(rows, RowPenalty(t, c, team)) + RowPenalty(t, c, team)(row) {
      SumSnoc(rows, row, RowPenalty(t, c, team));
    }
  }

  /** Services over the threshold, with their percentage. */
  method OverThreshold(t: Tables, services: seq<Service>, c: Config) returns (rows: seq<Penalized>)
    ensures forall team :: Sum(rows, RowPenalty(t, c, team)) == Sum(services, BatchedPenalty(t, c, team))
  {
    rows := [];
    var i := 0;
    while i < |services|
      invariant 0 <= i <= |services|
      invariant forall team :: Sum(rows, RowPenalty(t, c, team)) == Sum(services[..i], BatchedPenalty(t, c, team))
    {
      var s := services[i];
      var percent := PenaltyPercent(Get(t.streaks, s.id, 0), c);
      assert services[..i + 1] == services[..i] + [s];
      forall team ensures Sum(services[..i + 1], BatchedPenalty(t, c, team)) ==
                          Sum(services[..i], BatchedPenalty(t, c, team)) + BatchedPenalty(t, c, team)(s) {
        SumSnoc(services[..i], s, BatchedPenalty(t, c, team));
      }
      if percent > 0 {
        RowPenaltySnoc(t, c, rows, Penalized(s, percent));
        rows := rows + [Penalized(s, percent)];
      }
      i := i + 1;
    }
    assert services[..i] == services;
  }

  /** Teams without a penalty are absent, so the result is read with default 0. */
  method TeamPenalties(t: Tables, services: seq<Service>, c: Config) returns (penalties: map<int, int>)
    ensures forall team :: Get(penalties, team, 0) == Sum(services, BatchedPenalty(t, c, team))
  {
    penalties := map[];
    if !c.enabled {
      forall team ensures Sum(services, BatchedPenalty(t, c, team)) == 0 {
        SumZero(services, BatchedPenalty(t, c, team));
      }
      return;
    }
    var rows := OverThreshold(t, services, c);
    var i := 0;
    while i < |rows|
      invariant 0 <= i <= |rows|
      invariant forall team :: Get(penalties, team, 0) == Sum(rows[..i], RowPenalty(t, c, team))
    {
      var row := rows[i];
      var penalty := PenaltyPoints(BatchedBase(t, row.service, c), row.percent);
      assert rows[..i + 1] == rows[..i] + [row];
      RowPenaltySnoc(t, c, rows[..i], row);
      if penalty != 0 {
        penalties := penalties[row.service.team := Get(penalties, row.service.team, 0) + penalty];
      }
      i := i + 1;
    }
    assert rows[..i] == rows;
  }

  // ---- calculate_team_total_penalties ----

  function OfTeam(team: int): Service -> bool { (s: Service) => s.team == team }

  /** `scan` gives, per service, the rows of the query behind `get_consecutive_failures`. */
  function LoopPenalty(t: Tables, c: Config, scan: int -> seq<Check>): Service -> int {
    (s: Service) => ServicePenalty(ServiceBase(t, s, c), LeadingFailures(scan(s.id)), c)
  }

  method TeamTotalPenalties(t: Tables, members: seq<Service>, c: Config, scan: int -> seq<Check>) returns (total: int)
    ensures total == Sum(members, LoopPenalty(t, c, scan))
  {
    total := 0;
    if !c.enabled {
      forall s | s in members ensures LoopPenalty(t, c, scan)(s) == 0 {
        assert ServicePenalty(ServiceBase(t, s, c), LeadingFailures(scan(s.id)), c) == 0;
      }
      SumZero(members, LoopPenalty(t, c, scan));
      return;
    }
    var i := 0;
    while i < |members|
      invariant 0 <= i <= |members|
      invariant total == Sum(members[..i], LoopPenalty(t, c, scan))
    {
      var failures := GetConsecutiveFailures(scan(members[i].id));
      assert members[..i + 1] == members[..i] + [members[i]];
      SumSnoc(members[..i], members[i], LoopPenalty(t, c, scan));
      total := total + ServicePenalty(ServiceBase(t, members[i], c), failures, c);
      i := i + 1;
    }
    assert members[..i] == members;
  }

  /** One service counts alike in both readings exactly when its percentage is not negative, or takes nothing off. */
  lemma ContributionsAgree(t: Tables, c: Config, scan: int -> seq<Check>, s: Service)
    requires Linked(t) && Get(t.streaks, s.id, 0) == LeadingFailures(scan(s.id))
    ensures var percent := PenaltyPercent(LeadingFailures(scan(s.id)), c);
            BatchedPenalty(t, c, s.team)(s) == LoopPenalty(t, c, scan)(s) <==>
            percent >= 0 || PenaltyPoints(ServiceBase(t, s, c), percent) == 0
  {
    BatchedBaseIsServiceBase(t, s, c);
  }

  /** The batched read and the per-service loop give every team the same penalty, in every mode. */
  lemma {:induction false} BatchedEqualsLoop(t: Tables, services: seq<Service>, c: Config, scan: int -> seq<Check>,
                                             team: int)
    requires Linked(t) && StreaksMatch(t)
    requires forall s | s in services ::
               s.id in t.streaks && QueryResult(scan(s.id), t.checks, s.id) && !MixedLastPass(t.checks, s.id)
    requires c.percent >= 0 && c.maxPercent >= 0
    ensures Sum(services, BatchedPenalty(t, c, team)) == Sum(Filter(services, OfTeam(team)), LoopPenalty(t, c, scan))
  {
    SumFilter(services, OfTeam(team), LoopPenalty(t, c, scan));
    forall s | s in services
      ensures BatchedPenalty(t, c, team)(s) == Masked(OfTeam(team), LoopPenalty(t, c, scan))(s)
    {
      assert StreakMatches(t, s.id);
      ScanAgreesExactlyWhenUnmixed(t.checks, s.id);
      PenaltyGrowsByOne(LeadingFailures(scan(s.id)), c);
      ContributionsAgree(t, c, scan, s);
    }
    SumEq(services, BatchedPenalty(t, c, team), Masked(OfTeam(team), LoopPenalty(t, c, scan)));
  }

  // ---- Along a streak ----

  /** The adjusted score as read: `rows` is what the scan's query happened to return. */
  function AdjustedFrom(t: Tables, s: Service, c: Config, rows: seq<Check>): int {
    AdjustedScore(ServiceBase(t, s, c), LeadingFailures(rows), c)
  }

  ghost predicate NonNegative(s: Service, c: Config) {
    && s.points >= 0 && c.earlyMultiplier >= 0.0 && c.lateMultiplier >= 0.0
    && c.percent >= 0 && c.maxPercent >= 0
  }

  lemma AdjustedNeverRises(base: int, failures: int, more: nat, c: Config)
    requires base >= 0 && c.percent >= 0 && c.maxPercent >= 0
    ensures AdjustedScore(base, failures + more, c) <= AdjustedScore(base, failures, c) <= base
  {
    PenaltyGrows(failures, more, c);
    PenaltyMonotone(base, PenaltyPercent(failures, c), PenaltyPercent(failures + more, c));
    PenaltyMonotone(base, 0, PenaltyPercent(failures, c));
    assert base as real * (0 as real / 100.0) == 0.0;
  }

  /** The score is the base exactly when the penalty takes nothing off. */
  lemma AdjustedIsBase(base: int, failures: int, c: Config)
    requires base >= 0 && c.percent >= 0 && c.maxPercent >= 0
    ensures AdjustedScore(base, failures, c) == base <==> ServicePenalty(base, failures, c) == 0
  {
    PenaltyGrows(failures, 0, c);
    PenaltyMonotone(base, 0, PenaltyPercent(failures, c));
    assert base as real * (0 as real / 100.0) == 0.0;
  }

  lemma {:induction false} NumberOfPrefix(rounds: seq<Round>, r: Round, id: int)
    requires HasId(rounds, id)
    ensures NumberOf(rounds + [r], id) == NumberOf(rounds, id)
  {
    assert (rounds + [r])[0] == rounds[0];
    if rounds[0].id != id {
      assert (rounds + [r])[1..] == rounds[1..] + [r];
      NumberOfPrefix(rounds[1..], r, id);
    }
  }

  /** A round without a pass of the service leaves its list of passing rounds alone. */
  lemma {:induction false} PassingRoundsKept(rounds: seq<Round>, r: Round, checks: seq<Check>, added: seq<Check>,
                                             service: int)
    requires forall c | c in checks :: HasId(rounds, c.round)
    requires forall c | c in added :: c.service == service ==> !c.result
    ensures PassingRounds(rounds + [r], checks + added, service) == PassingRounds(rounds, checks, service)
    decreases |checks| + |added|
  {
    if checks != [] {
      assert (checks + added)[1..] == checks[1..] + added;
      NumberOfPrefix(rounds, r, checks[0].round);
      PassingRoundsKept(rounds, r, checks[1..], added, service);
    } else if added != [] {
      assert checks + added == added && (checks + added)[1..] == checks + added[1..];
      PassingRoundsKept(rounds, r, checks, added[1..], service);
    }
  }

  lemma BaseNonNegative(t: Tables, s: Service, c: Config)
    requires s.points >= 0 && c.earlyMultiplier >= 0.0 && c.lateMultiplier >= 0.0
    ensures ServiceBase(t, s, c) >= 0
  {
    var passing := PassingRounds(t.rounds, t.checks, s.id);
    forall n | n in passing ensures PointsAt(s.points, c)(n) >= 0 {
      RealProduct(s.points as real, Multiplier(n, c));
    }
    SumNonNegative(passing, PointsAt(s.points, c));
  }

  lemma FailingRoundKeepsBase(t: Tables, pre: Tables, a: Attempt, s: Service, c: Config)
    requires Linked(pre) && FreshAttempt(pre, a) && Closed(t, pre, a) && !AnyPass(a.checks, s.id)
    ensures ServiceBase(t, s, c) == ServiceBase(pre, s, c)
  {
    forall k | k in a.checks && k.service == s.id ensures !k.result {
      assert k.completed && !Passed(k, s.id);
    }
    PassingRoundsKept(pre.rounds, Round(a.id, a.number, a.start, Some(a.end)), pre.checks, a.checks, s.id);
  }

  /** After a round with a pass, that round is the last passing one, and nothing trails it. */
  lemma PassingRoundCounts(t: Tables, pre: Tables, a: Attempt, service: int)
    requires Linked(pre) && FreshAttempt(pre, a) && Closed(t, pre, a) && AnyPass(a.checks, service)
    ensures TrailingFailures(t.checks, service) == 0
    ensures LastPassFailures(t.checks, service) == Failures(a.checks, service)
  {
    OlderRounds(pre, a.id);
    CloseStreak(pre.checks, a.checks, service, a.id);
    LastPassSplit(pre.checks, a.checks, service);
    LastPassIs(a.checks, service);
    var weight := FailureIn(service, a.id);
    SumAppend(pre.checks, a.checks, weight);
    SumZero(pre.checks, weight);
    SumEq(a.checks, weight, AnyFailure(service));
  }

  /** After a round without a pass, the last passing round is the old one, and every failure trails it. */
  lemma FailingRoundCounts(t: Tables, pre: Tables, a: Attempt, service: int)
    requires Linked(pre) && FreshAttempt(pre, a) && Closed(t, pre, a) && !AnyPass(a.checks, service)
    ensures TrailingFailures(t.checks, service) == TrailingFailures(pre.checks, service) + Failures(a.checks, service)
    ensures LastPassFailures(t.checks, service) == LastPassFailures(pre.checks, service)
  {
    OlderRounds(pre, a.id);
    CloseStreak(pre.checks, a.checks, service, a.id);
    LastPassSplit(pre.checks, a.checks, service);
    LastPassIs(pre.checks, service);
    var last := LastPass(pre.checks, service);
    if last.Some? {
      SumAppend(pre.checks, a.checks, FailureIn(service, last.value));
      SumZero(a.checks, FailureIn(service, last.value));
    }
  }

  /** Highest and lowest adjusted score over the orders the query may return. */
  function BestAdjusted(t: Tables, s: Service, c: Config): int {
    AdjustedScore(ServiceBase(t, s, c), TrailingFailures(t.checks, s.id), c)
  }

  function WorstAdjusted(t: Tables, s: Service, c: Config): int {
    AdjustedScore(ServiceBase(t, s, c), TrailingFailures(t.checks, s.id) + LastPassFailures(t.checks, s.id), c)
  }

  lemma AdjustedWithin(t: Tables, s: Service, c: Config, rows: seq<Check>)
    requires NonNegative(s, c) && QueryResult(rows, t.checks, s.id)
    ensures WorstAdjusted(t, s, c) <= AdjustedFrom(t, s, c, rows) <= BestAdjusted(t, s, c) <= ServiceBase(t, s, c)
  {
    BaseNonNegative(t, s, c);
    ScanWithin(rows, t.checks, s.id);
    var base, least, seen := ServiceBase(t, s, c), TrailingFailures(t.checks, s.id), LeadingFailures(rows);
    AdjustedNeverRises(base, least, seen - least, c);
    AdjustedNeverRises(base, seen, least + LastPassFailures(t.checks, s.id) - seen, c);
  }

  lemma AdjustedExtremes(t: Tables, s: Service, c: Config) returns (best: seq<Check>, worst: seq<Check>)
    ensures QueryResult(best, t.checks, s.id) && AdjustedFrom(t, s, c, best) == BestAdjusted(t, s, c)
    ensures QueryResult(worst, t.checks, s.id) && AdjustedFrom(t, s, c, worst) == WorstAdjusted(t, s, c)
  {
    best, worst := ExtremeScans(t.checks, s.id);
  }

  /**
   A passing round brings the adjusted score back to the base, in whatever order the rows
   come, exactly when the failures of that same round would cost nothing.
   */
  lemma PassRestoresBaseExactly(t: Tables, pre: Tables, a: Attempt, s: Service, c: Config)
    requires Linked(pre) && FreshAttempt(pre, a) && Closed(t, pre, a) && AnyPass(a.checks, s.id)
    requires NonNegative(s, c)
    ensures (forall rows | QueryResult(rows, t.checks, s.id) :: AdjustedFrom(t, s, c, rows) == ServiceBase(t, s, c))
            <==> ServicePenalty(ServiceBase(t, s, c), Failures(a.checks, s.id), c) == 0
  {
    BaseNonNegative(t, s, c);
    PassingRoundCounts(t, pre, a, s.id);
    AdjustedIsBase(ServiceBase(t, s, c), Failures(a.checks, s.id), c);
    forall rows | QueryResult(rows, t.checks, s.id)
      ensures WorstAdjusted(t, s, c) <= AdjustedFrom(t, s, c, rows) <= ServiceBase(t, s, c)
    {
      AdjustedWithin(t, s, c, rows);
    }
    var best, worst := AdjustedExtremes(t, s, c);
  }

  /** In whatever orders the rows come before and after, the adjusted score does not rise. */
  ghost predicate NeverRaises(t: Tables, pre: Tables, s: Service, c: Config) {
    forall before, after | QueryResult(before, pre.checks, s.id) && QueryResult(after, t.checks, s.id) ::
      AdjustedFrom(t, s, c, after) <= AdjustedFrom(pre, s, c, before)
  }

  /**
   A failing round cannot raise the adjusted score, in whatever orders the rows come before
   and after, exactly when the new trailing failures cost at least as much as the old ones
   together with those of the last passing round.
   */
  lemma FailingRoundNeverRaisesExactly(t: Tables, pre: Tables, a: Attempt, s: Service, c: Config)
    requires Linked(pre) && FreshAttempt(pre, a) && Closed(t, pre, a) && !AnyPass(a.checks, s.id)
    requires NonNegative(s, c)
    ensures NeverRaises(t, pre, s, c) <==> BestAdjusted(t, s, c) <= WorstAdjusted(pre, s, c)
    ensures BestAdjusted(t, s, c) == AdjustedScore(ServiceBase(pre, s, c),
              TrailingFailures(pre.checks, s.id) + Failures(a.checks, s.id), c)
  {
    FailingRoundKeepsBase(t, pre, a, s, c);
    FailingRoundCounts(t, pre, a, s.id);
    NeverRaisesExactly(t, pre, s, c);
  }

  lemma NeverRaisesExactly(t: Tables, pre: Tables, s: Service, c: Config)
    requires NonNegative(s, c)
    ensures NeverRaises(t, pre, s, c) <==> BestAdjusted(t, s, c) <= WorstAdjusted(pre, s, c)
  {
    if BestAdjusted(t, s, c) <= WorstAdjusted(pre, s, c) {
      forall before, after | QueryResult(before, pre.checks, s.id) && QueryResult(after, t.checks, s.id)
        ensures AdjustedFrom(t, s, c, after) <= AdjustedFrom(pre, s, c, before)
      {
        AdjustedWithin(pre, s, c, before);
        AdjustedWithin(t, s, c, after);
      }
    } else {
      var best, _ := AdjustedExtremes(t, s, c);
      var _, worst := AdjustedExtremes(pre, s, c);
    }
  }

  lemma UnmixedPass(t: Tables, pre: Tables, a: Attempt, s: Service, c: Config, after: seq<Check>)
    requires Linked(pre) && FreshAttempt(pre, a) && Closed(t, pre, a) && AnyPass(a.checks, s.id)
    requires NonNegative(s, c) && c.threshold >= 1
    requires QueryResult(after, t.checks, s.id) && !MixedLastPass(t.checks, s.id)
    ensures AdjustedFrom(t, s, c, after) == ServiceBase(t, s, c)
  {
    PassingRoundCounts(t, pre, a, s.id);
    UnmixedScan(after, t.checks, s.id);
    BaseNonNegative(t, s, c);
    AdjustedIsBase(ServiceBase(t, s, c), 0, c);
  }

  lemma UnmixedFailure(t: Tables, pre: Tables, a: Attempt, s: Service, c: Config, before: seq<Check>, after: seq<Check>)
    requires Linked(pre) && FreshAttempt(pre, a) && Closed(t, pre, a) && !AnyPass(a.checks, s.id)
    requires NonNegative(s, c) && !MixedLastPass(pre.checks, s.id)
    requires QueryResult(before, pre.checks, s.id) && QueryResult(after, t.checks, s.id)
    ensures AdjustedFrom(t, s, c, after) <= AdjustedFrom(pre, s, c, before)
  {
    FailingRoundCounts(t, pre, a, s.id);
    FailingRoundKeepsBase(t, pre, a, s, c);
    TrailingFailuresNonNegative(a.checks, s.id);
    LongerStreakNeverRaises(t, pre, s, c, before, after);
  }

  /**
   Where the last passing rounds are unmixed, as the engine leaves them: a round without a
   pass never raises the adjusted score, and a round with one brings it back to the base.
   */
  lemma AdjustedAlongAStreak(t: Tables, pre: Tables, a: Attempt, s: Service, c: Config,
                             before: seq<Check>, after: seq<Check>)
    requires Linked(pre) && FreshAttempt(pre, a) && Closed(t, pre, a)
    requires NonNegative(s, c) && c.threshold >= 1
    requires QueryResult(before, pre.checks, s.id) && QueryResult(after, t.checks, s.id)
    requires !MixedLastPass(pre.checks, s.id) && !MixedLastPass(t.checks, s.id)
    ensures !AnyPass(a.checks, s.id) ==> AdjustedFrom(t, s, c, after) <= AdjustedFrom(pre, s, c, before)
    ensures AnyPass(a.checks, s.id) ==> AdjustedFrom(t, s, c, after) == ServiceBase(t, s, c)
  {
    if AnyPass(a.checks, s.id) {
      UnmixedPass(t, pre, a, s, c, after);
    } else {
      UnmixedFailure(t, pre, a, s, c, before, after);
    }
  }

  lemma {:induction false} UnmixedScan(rows: seq<Check>, checks: seq<Check>, service: int)
    requires QueryResult(rows, checks, service) && !MixedLastPass(checks, service)
    ensures LeadingFailures(rows) == TrailingFailures(checks, service)
  {
    ScanWithin(rows, checks, service);
    LastPassFailuresPositive(checks, service);
  }

  /** One round with a pass and a failure of one service. */
  function MixedRound(): Attempt {
    Attempt([Service(1, 1, 100)], 1, 1, 0, 0, [Check(1, 1, true, true), Check(1, 1, false, true)])
  }

  function BeforeMixedRound(): Tables { Tables([], [], [], map[1 := 0], []) }

  function AfterMixedRound(): Tables {
    Tables([Round(1, 1, 0, Some(0))], MixedRound().checks, [RoundScore(1, 1, 1, 100)], map[1 := 0], [Kb(TASK_IDS, 1)])
  }

  lemma MixedRoundRows()
    ensures RowsMatch([RoundScore(1, 1, 1, 100)], MixedRound())
  {
    var a, row := MixedRound(), RoundScore(1, 1, 1, 100);
    var pass, fail := a.checks[0], a.checks[1];
    forall team ensures Sum([row], RowPoints(1, team)) == Sum(a.checks, CheckPoints(a.services, 1, team)) {
      SumSnoc([], row, RowPoints(1, team));
      SumSnoc([], pass, CheckPoints(a.services, 1, team));
      SumSnoc([pass], fail, CheckPoints(a.services, 1, team));
      assert [] + [row] == [row] && [] + [pass] == [pass] && [pass] + [fail] == a.checks;
    }
  }

  lemma MixedRoundCloses()
    ensures FreshAttempt(BeforeMixedRound(), MixedRound()) && AnyPass(MixedRound().checks, 1)
    ensures Consistent(BeforeMixedRound(), MixedRound().services)
    ensures Closed(AfterMixedRound(), BeforeMixedRound(), MixedRound())
  {
    MixedRoundRows();
    assert MixedRound().checks[0] in MixedRound().checks;
    assert AfterMixedRound().scores[0..] == [RoundScore(1, 1, 1, 100)];
  }

  lemma MixedRoundBase(c: Config)
    requires !c.dynamicEnabled
    ensures ServiceBase(AfterMixedRound(), Service(1, 1, 100), c) == 100
  {
    var t := AfterMixedRound();
    var fail := t.checks[1];
    assert t.checks[1..] == [fail] && [fail][1..] == [];
    assert PassingRounds(t.rounds, [fail], 1) == [];
    assert PassingRounds(t.rounds, t.checks, 1) == [1];
    PlainBase([1], 100, c);
  }

  /** After such a round the scan may still charge ten percent. */
  lemma MixedPassIsStillCharged()
    ensures var rows := [Check(1, 1, false, true), Check(1, 1, true, true)];
            var c := Config(true, 1, 10, 100, Additive, false, false, 0, 1.0, 0, 1.0);
            && Closed(AfterMixedRound(), BeforeMixedRound(), MixedRound())
            && QueryResult(rows, AfterMixedRound().checks, 1)
            && ServiceBase(AfterMixedRound(), Service(1, 1, 100), c) == 100
            && AdjustedFrom(AfterMixedRound(), Service(1, 1, 100), c, rows) == 90
  {
    var c := Config(true, 1, 10, 100, Additive, false, false, 0, 1.0, 0, 1.0);
    MixedRoundCloses();
    MixedRoundConfusesScan();
    MixedRoundBase(c);
    OneFailureCosts(c);
    assert LeadingFailures([Check(1, 1, false, true), Check(1, 1, true, true)]) == 1;
  }

  lemma OneFailureCosts(c: Config)
    requires c == Config(true, 1, 10, 100, Additive, false, false, 0, 1.0, 0, 1.0)
    ensures AdjustedScore(100, 1, c) == 90
  {
    assert PenaltyPercent(1, c) == 10;
    assert 100 as real * (10 as real / 100.0) == 10.0;
  }

  lemma UnclosedRoundKeepsBase(t: Tables, pre: Tables, a: Attempt, s: Service, c: Config)
    requires Linked(pre) && (SameData(t, pre, a.number) || Opened(t, pre, a))
    ensures t.checks == pre.checks && ServiceBase(t, s, c) == ServiceBase(pre, s, c)
  {
    if Opened(t, pre, a) {
      PassingRoundsKept(pre.rounds, Round(a.id, a.number, a.start, None), pre.checks, [], s.id);
      assert pre.checks + [] == pre.checks;
    }
  }

  /** One attempt without a pass, whatever became of it, keeps the base and lengthens the streak at most. */
  lemma FailingStepCounts(t: Tables, pre: Tables, a: Attempt, s: Service, c: Config)
    requires Linked(pre) && Numbered(pre.rounds)
    requires FreshAttempt(pre, a) && Stage(t, pre, a) && !AnyPass(a.checks, s.id)
    ensures Linked(t) && Numbered(t.rounds)
    ensures ServiceBase(t, s, c) == ServiceBase(pre, s, c)
    ensures TrailingFailures(pre.checks, s.id) <= TrailingFailures(t.checks, s.id)
    ensures LastPassFailures(t.checks, s.id) == LastPassFailures(pre.checks, s.id)
  {
    StagesAreLinked(t, pre, a);
    if Closed(t, pre, a) {
      FailingRoundKeepsBase(t, pre, a, s, c);
      FailingRoundCounts(t, pre, a, s.id);
      TrailingFailuresNonNegative(a.checks, s.id);
    } else {
      UnclosedRoundKeepsBase(t, pre, a, s, c);
    }
  }

  /** Step `i` of a run: one round attempt, without a pass of `service`, leads to the next state. */
  ghost predicate FailingStep(states: seq<Tables>, attempts: seq<Attempt>, i: nat, service: int)
    requires i < |attempts| && |states| == |attempts| + 1
  {
    && FreshAttempt(states[i], attempts[i]) && Stage(states[i + 1], states[i], attempts[i])
    && !AnyPass(attempts[i].checks, service)
  }

  ghost predicate FailingStretch(states: seq<Tables>, attempts: seq<Attempt>, service: int) {
    && |states| == |attempts| + 1 && Linked(states[0]) && Numbered(states[0].rounds)
    && forall i | 0 <= i < |attempts| :: FailingStep(states, attempts, i, service)
  }

  lemma {:induction false} FailingStretchCounts(states: seq<Tables>, attempts: seq<Attempt>, k: nat, s: Service,
                                                c: Config)
    requires FailingStretch(states, attempts, s.id) && k <= |attempts|
    ensures Linked(states[k]) && Numbered(states[k].rounds)
    ensures ServiceBase(states[k], s, c) == ServiceBase(states[0], s, c)
    ensures TrailingFailures(states[0].checks, s.id) <= TrailingFailures(states[k].checks, s.id)
    ensures LastPassFailures(states[k].checks, s.id) == LastPassFailures(states[0].checks, s.id)
  {
    if k > 0 {
      FailingStretchCounts(states, attempts, k - 1, s, c);
      assert FailingStep(states, attempts, k - 1, s.id);
      FailingStepCounts(states[k], states[k - 1], attempts[k - 1], s, c);
    }
  }

  /** Over any stretch without a pass, failed rounds included, the adjusted score is never above its start. */
  lemma AdjustedFallsAlongAStretch(states: seq<Tables>, attempts: seq<Attempt>, k: nat, s: Service, c: Config,
                                   before: seq<Check>, after: seq<Check>)
    requires FailingStretch(states, attempts, s.id) && k <= |attempts|
    requires NonNegative(s, c) && !MixedLastPass(states[0].checks, s.id)
    requires QueryResult(before, states[0].checks, s.id) && QueryResult(after, states[k].checks, s.id)
    ensures AdjustedFrom(states[k], s, c, after) <= AdjustedFrom(states[0], s, c, before)
  {
    FailingStretchCounts(states, attempts, k, s, c);
    LongerStreakNeverRaises(states[k], states[0], s, c, before, after);
  }

  lemma LongerStreakNeverRaises(t: Tables, pre: Tables, s: Service, c: Config, before: seq<Check>, after: seq<Check>)
    requires NonNegative(s, c) && !MixedLastPass(pre.checks, s.id)
    requires QueryResult(before, pre.checks, s.id) && QueryResult(after, t.checks, s.id)
    requires ServiceBase(t, s, c) == ServiceBase(pre, s, c)
    requires TrailingFailures(pre.checks, s.id) <= TrailingFailures(t.checks, s.id)
    ensures AdjustedFrom(t, s, c, after) <= AdjustedFrom(pre, s, c, before)
  {
    UnmixedScan(before, pre.checks, s.id);
    ScanWithin(after, t.checks, s.id);
    BaseNonNegative(pre, s, c);
    var base, streak := ServiceBase(pre, s, c), LeadingFailures(before);
    AdjustedNeverRises(base, streak, LeadingFailures(after) - streak, c);
  }
}
