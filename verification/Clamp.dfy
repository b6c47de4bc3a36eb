/** The zero floor under a team's adjusted score. */
module Clamp {
  import opened Sums
  import opened Store
  import opened Streaks
  import opened Scores
  import opened Lifecycle
  import opened Sla
  import opened Totals

  /** `failures` is the failure count of each service, however it was read. */
  function TeamPenalty(t: Tables, team: int, c: Config, failures: int -> nat): Service -> int {
    (s: Service) => if s.team == team then ServicePenalty(ServiceBase(t, s, c), failures(s.id), c) else 0
  }

  /** `calculate_team_adjusted_score` */
  function TeamAdjusted(t: Tables, services: seq<Service>, team: int, c: Config, failures: int -> nat): int {
    var adjusted := TeamBase(t, team, c) - Sum(services, TeamPenalty(t, team, c, failures));
    if c.allowNegative then adjusted else Max(0, adjusted)
  }

  /** Penalties within the base: the floor would change nothing. */
  ghost predicate WithinBase(t: Tables, services: seq<Service>, team: int, c: Config, failures: int -> nat) {
    Sum(services, TeamPenalty(t, team, c, failures)) <= TeamBase(t, team, c)
  }

  /** The failure counts the history calls for. */
  function HistoryCount(t: Tables): int -> nat { (service: int) => TrailingCount(t.checks, service) }

  function TrailingCount(checks: seq<Check>, service: int): nat {
    TrailingFailuresNonNegative(checks, service);
    TrailingFailures(checks, service)
  }

  // ---- Which settings cap the penalty ----

  ghost predicate AtMostHundred(c: Config) { forall failures: nat :: PenaltyPercent(failures, c) <= 100 }

  /** What an administrator can read off the settings page. */
  predicate CapHolds(c: Config) {
    || !c.enabled
    || c.percent <= 0
    || (c.maxPercent <= 100 && (!c.allowNegative || c.mode == NextCheckReduction))
  }

  /** No streak, however long, costs more than 100 percent exactly under these settings; the threshold plays no part. */
  lemma CappedExactly(c: Config)
    ensures AtMostHundred(c) <==> CapHolds(c)
  {
    if CapHolds(c) {
      forall failures: nat ensures PenaltyPercent(failures, c) <= 100 {
        if failures >= c.threshold && c.percent <= 0 {
          NothingToCharge(failures - c.threshold, c);
        }
      }
    } else {
      var over := if c.threshold >= 0 then 101 else 101 - c.threshold;
      var failures: nat := c.threshold + over;
      Pow2Grows(over);
      Times(1, c.percent, over);
      Times(1, c.percent, Pow2(over));
      Times(1, c.percent, over + 1);
      assert PenaltyPercent(failures, c) > 100;
    }
  }

  lemma NothingToCharge(over: nat, c: Config)
    requires c.percent <= 0
    ensures UncappedPenalty(over, c) <= 0
  {
    Pow2Grows(over);
    Times(c.percent, 0, over);
    Times(c.percent, 0, over + 1);
    Times(c.percent, 0, Pow2(over));
  }

  lemma ServiceWithinBase(t: Tables, s: Service, c: Config, failures: nat)
    requires CapHolds(c) && s.points >= 0 && ValidMultipliers(c)
    ensures ServicePenalty(ServiceBase(t, s, c), failures, c) <= ServiceBase(t, s, c)
  {
    var passing := PassingRounds(t.rounds, t.checks, s.id);
    forall n | n in passing ensures PointsAt(s.points, c)(n) >= 0 {
      RealProduct(s.points as real, Multiplier(n, c));
    }
    SumNonNegative(passing, PointsAt(s.points, c));
    CappedExactly(c);
    assert PenaltyPercent(failures, c) <= 100;
    PenaltyBounded(ServiceBase(t, s, c), PenaltyPercent(failures, c));
  }

  /** Dynamic or not, whatever the failure counts, penalties never exceed the base when the cap holds. */
  lemma {:induction false} PenaltiesStayWithinBase(t: Tables, services: seq<Service>, team: int, c: Config,
                                                   failures: int -> nat)
    requires Sound(t, services) && ValidServices(services) && ValidMultipliers(c) && CapHolds(c)
    ensures WithinBase(t, services, team, c, failures)
    ensures TeamAdjusted(t, services, team, c, failures) ==
            TeamBase(t, team, c) - Sum(services, TeamPenalty(t, team, c, failures))
  {
    forall s | s in services ensures TeamPenalty(t, team, c, failures)(s) <= TeamServiceBase(t, team, c)(s) {
      ServiceWithinBase(t, s, c, failures(s.id));
    }
    SumLe(services, TeamPenalty(t, team, c, failures), TeamServiceBase(t, team, c));
    RoundingBound(t, services, team, c);
  }

  // ---- Settings under which nobody earns anything ----

  predicate NoRoundPays(c: Config) {
    && c.dynamicEnabled
    && c.lateMultiplier == 0.0
    && (c.earlyRounds >= 1 ==> c.earlyMultiplier == 0.0)
    && c.lateStart <= Max(c.earlyRounds, 0) + 1
  }

  lemma NoRoundPaysExactly(c: Config)
    ensures NoRoundPays(c) <==> forall n | n >= 1 :: Multiplier(n, c) == 0.0
  {
    if !NoRoundPays(c) {
      var middle, late := Max(c.earlyRounds, 0) + 1, Max(Max(c.earlyRounds, c.lateStart), 0) + 1;
      assert Multiplier(1, c) != 0.0 || Multiplier(middle, c) != 0.0 || Multiplier(late, c) != 0.0;
    }
  }

  lemma NoPayNoBase(t: Tables, s: Service, c: Config)
    requires Numbered(t.rounds) && NoRoundPays(c)
    ensures ServiceBase(t, s, c) == 0
  {
    var passing := PassingRounds(t.rounds, t.checks, s.id);
    NoRoundPaysExactly(c);
    PassingRoundsExist(t.rounds, t.checks, s.id);
    forall n | n in passing ensures PointsAt(s.points, c)(n) == 0 {
      assert s.points as real * 0.0 == 0.0;
    }
    SumZero(passing, PointsAt(s.points, c));
  }

  lemma {:induction false} PassingRoundsExist(rounds: seq<Round>, checks: seq<Check>, service: int)
    requires Numbered(rounds)
    ensures forall n | n in PassingRounds(rounds, checks, service) :: n >= 1
  {
    if checks != [] {
      PassingRoundsExist(rounds, checks[1..], service);
    }
  }

  lemma UnpaidStaysWithinBase(t: Tables, services: seq<Service>, team: int, c: Config, failures: int -> nat)
    requires Sound(t, services) && ValidServices(services) && ValidMultipliers(c) && NoRoundPays(c)
    ensures WithinBase(t, services, team, c, failures)
  {
    forall s | s in services
      ensures TeamPenalty(t, team, c, failures)(s) == 0 && TeamServiceBase(t, team, c)(s) == 0
    {
      NoPayNoBase(t, s, c);
      assert 0 as real * (PenaltyPercent(failures(s.id), c) as real / 100.0) == 0.0;
    }
    SumZero(services, TeamPenalty(t, team, c, failures));
    SumZero(services, TeamServiceBase(t, team, c));
    RoundingBound(t, services, team, c);
  }

  // ---- A table on which the floor is needed ----

  function Probed(points: int): Service { Service(1, 1, points) }

  /** One pass in round n, then a round with `failures` failing checks. */
  function FailingTable(n: nat, points: int, failures: nat): Tables {
    Tables(seq(n + 1, i => Round(i + 1, i + 1, 0, Some(0))),
           [Check(n, 1, true, true)] + Fails(n + 1, failures),
           [RoundScore(n, n, 1, points)], map[], [])
  }

  function Fails(round: int, n: nat): (r: seq<Check>)
    ensures |r| == n && forall i | 0 <= i < n :: r[i] == Check(round, 1, false, true)
  {
    seq(n, i => Check(round, 1, false, true))
  }

  lemma FailingTableScores(n: nat, points: int, failures: nat)
    requires points != 0
    ensures ScoresMatch(FailingTable(n, points, failures), [Probed(points)])
  {
    var t, fails := FailingTable(n, points, failures), Fails(n + 1, failures);
    var pass, row := Check(n, 1, true, true), RoundScore(n, n, 1, points);
    forall id, team
      ensures Sum(t.scores, RowPoints(id, team)) == Sum(t.checks, CheckPoints([Probed(points)], id, team))
    {
      SumAppend([pass], fails, CheckPoints([Probed(points)], id, team));
      SumZero(fails, CheckPoints([Probed(points)], id, team));
      SumSnoc([], row, RowPoints(id, team));
      SumSnoc([], pass, CheckPoints([Probed(points)], id, team));
      assert [] + [row] == t.scores && [] + [pass] == [pass];
    }
  }

  lemma FailingTableIsSound(n: nat, points: int, failures: nat)
    requires n >= 1 && points != 0
    ensures Sound(FailingTable(n, points, failures), [Probed(points)])
    ensures TrailingFailures(FailingTable(n, points, failures).checks, 1) == failures
  {
    var t := FailingTable(n, points, failures);
    FailingTableScores(n, points, failures);
    assert t.rounds[n - 1] in t.rounds && t.rounds[n] in t.rounds;
    assert HasRound(t.rounds, n, n) && HasId(t.rounds, n) && HasId(t.rounds, n + 1);
    CloseStreak([Check(n, 1, true, true)], Fails(n + 1, failures), 1, n + 1);
    PassIsCounted([Check(n, 1, true, true)], 1);
    AllFail(Fails(n + 1, failures), n + 1);
  }

  lemma {:induction false} AllFail(checks: seq<Check>, round: int)
    requires forall i | 0 <= i < |checks| :: checks[i] == Check(round, 1, false, true)
    ensures Failures(checks, 1) == |checks|
  {
    if checks != [] {
      AllFail(checks[1..], round);
    }
  }

  lemma FailingTableBase(n: nat, points: int, failures: nat, c: Config)
    requires n >= 1 && points != 0
    ensures ServiceBase(FailingTable(n, points, failures), Probed(points), c) == Scale(points, Multiplier(n, c))
  {
    var t := FailingTable(n, points, failures);
    FailingTableIsSound(n, points, failures);
    assert t.rounds[n - 1] in t.rounds;
    NumberOfRound(t, n, t.rounds[n - 1]);
    assert t.checks[1..] == Fails(n + 1, failures);
    NoPasses(t.rounds, t.checks[1..]);
    var number: int := n;
    assert PassingRounds(t.rounds, t.checks, 1) == [number];
    SumSnoc([], number, PointsAt(points, c));
    assert [] + [number] == [number] && PointsAt(points, c)(number) == ApplyDynamic(n, points, c);
  }

  lemma FailingTableTeamBase(n: nat, points: int, failures: nat, c: Config)
    ensures TeamBase(FailingTable(n, points, failures), 1, c) == Scale(points, Multiplier(n, c))
  {
    var row := RoundScore(n, n, 1, points);
    SumSnoc([], row, TeamRow(1, c));
    assert [] + [row] == FailingTable(n, points, failures).scores;
    assert TeamRow(1, c)(row) == ApplyDynamic(n, points, c);
  }

  lemma {:induction false} NoPasses(rounds: seq<Round>, checks: seq<Check>)
    requires forall k | k in checks :: !k.result
    ensures PassingRounds(rounds, checks, 1) == []
  {
    if checks != [] {
      NoPasses(rounds, checks[1..]);
    }
  }

  /** Enough points to earn at least 100 under a positive multiplier. */
  lemma EnoughPoints(m: real) returns (points: int)
    requires m > 0.0
    ensures points >= 1 && Scale(points, m) >= 100
  {
    points := (100.0 / m).Floor + 1;
    RealMonotone(100.0 / m, points as real, m);
    assert (100.0 / m) * m == 100.0;
    TruncMonotone(100.0, points as real * m);
  }

  lemma MoreThanAll(base: int, percent: int)
    requires base >= 100 && percent > 100
    ensures PenaltyPoints(base, percent) > base
  {
    var b := base as real;
    RealMonotone(1.01, percent as real / 100.0, b);
    assert b * 1.01 >= b + 1.0;
    TruncMonotone((base + 1) as real, b * (percent as real / 100.0));
    TruncInt(base + 1);
  }

  lemma FailingTableExceedsBase(n: nat, points: int, failures: nat, c: Config)
    requires n >= 1 && points != 0 && Scale(points, Multiplier(n, c)) >= 100
    requires PenaltyPercent(failures, c) > 100
    ensures var t := FailingTable(n, points, failures); !WithinBase(t, [Probed(points)], 1, c, HistoryCount(t))
  {
    var t := FailingTable(n, points, failures);
    FailingTableIsSound(n, points, failures);
    FailingTableBase(n, points, failures, c);
    FailingTableTeamBase(n, points, failures, c);
    MoreThanAll(TeamBase(t, 1, c), PenaltyPercent(failures, c));
    var penalty := TeamPenalty(t, 1, c, HistoryCount(t));
    SumSnoc([], Probed(points), penalty);
    assert [] + [Probed(points)] == [Probed(points)];
  }

  /** Without dynamic scoring the multipliers do not matter. */
  lemma IgnoredMultipliers(t: Tables, services: seq<Service>, team: int, c: Config, failures: int -> nat)
    requires !c.dynamicEnabled
    ensures var plain := c.(earlyMultiplier := 1.0, lateMultiplier := 1.0);
            WithinBase(t, services, team, c, failures) <==> WithinBase(t, services, team, plain, failures)
  {
    var plain := c.(earlyMultiplier := 1.0, lateMultiplier := 1.0);
    PlainTeamBase(t, team, c);
    PlainTeamBase(t, team, plain);
    forall s | s in services ensures TeamPenalty(t, team, c, failures)(s) == TeamPenalty(t, team, plain, failures)(s) {
      PlainBase(PassingRounds(t.rounds, t.checks, s.id), s.points, c);
      PlainBase(PassingRounds(t.rounds, t.checks, s.id), s.points, plain);
      assert PenaltyPercent(failures(s.id), plain) == PenaltyPercent(failures(s.id), c);
    }
    SumEq(services, TeamPenalty(t, team, c, failures), TeamPenalty(t, team, plain, failures));
  }

  lemma AlwaysWithinBase(t: Tables, services: seq<Service>, team: int, c: Config)
    requires c.dynamicEnabled ==> ValidMultipliers(c)
    requires CapHolds(c) || NoRoundPays(c)
    requires Sound(t, services) && ValidServices(services)
    ensures WithinBase(t, services, team, c, HistoryCount(t))
  {
    if !c.dynamicEnabled {
      IgnoredMultipliers(t, services, team, c, HistoryCount(t));
      PenaltiesStayWithinBase(t, services, team, c.(earlyMultiplier := 1.0, lateMultiplier := 1.0), HistoryCount(t));
    } else if CapHolds(c) {
      PenaltiesStayWithinBase(t, services, team, c, HistoryCount(t));
    } else {
      UnpaidStaysWithinBase(t, services, team, c, HistoryCount(t));
    }
  }

  lemma SometimesExceedsBase(c: Config) returns (t: Tables, services: seq<Service>)
    requires c.dynamicEnabled ==> ValidMultipliers(c)
    requires !CapHolds(c) && !NoRoundPays(c)
    ensures Sound(t, services) && ValidServices(services) && !WithinBase(t, services, 1, c, HistoryCount(t))
  {
    CappedExactly(c);
    NoRoundPaysExactly(c);
    var failures: nat :| PenaltyPercent(failures, c) > 100;
    var n :| n >= 1 && Multiplier(n, c) != 0.0;
    var points := EnoughPoints(Multiplier(n, c));
    FailingTableIsSound(n, points, failures);
    FailingTableExceedsBase(n, points, failures, c);
    t, services := FailingTable(n, points, failures), [Probed(points)];
  }

  /**
   The floor is never needed, whatever the tables hold, exactly when the settings cap the
   penalty at 100 percent, or when their multipliers pay nothing in any round.
   */
  lemma FloorNeverFiresExactly(c: Config)
    requires c.dynamicEnabled ==> ValidMultipliers(c)
    ensures CapHolds(c) || NoRoundPays(c) <==>
            forall t, services, team | Sound(t, services) && ValidServices(services) ::
              WithinBase(t, services, team, c, HistoryCount(t))
  {
    if CapHolds(c) || NoRoundPays(c) {
      forall t, services, team | Sound(t, services) && ValidServices(services)
        ensures WithinBase(t, services, team, c, HistoryCount(t))
      {
        AlwaysWithinBase(t, services, team, c);
      }
    } else {
      var t, services := SometimesExceedsBase(c);
    }
  }
}
