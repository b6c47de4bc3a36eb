/** SLA penalties and dynamic scoring: the arithmetic, over exact reals. */
module Sla {
  import opened Sums
  import opened Store
  import opened Streaks

  /** `OtherMode` is any unrecognised mode string. */
  datatype Mode = Additive | Flat | Exponential | NextCheckReduction | OtherMode

  datatype Config = Config(enabled: bool, threshold: int, percent: int, maxPercent: int, mode: Mode,
                           allowNegative: bool, dynamicEnabled: bool, earlyRounds: int,
                           earlyMultiplier: real, lateStart: int, lateMultiplier: real)

  function Pow2(n: nat): nat { if n == 0 then 1 else 2 * Pow2(n - 1) }

  function Min(a: int, b: int): int { if a <= b then a else b }

  function Max(a: int, b: int): int { if a >= b then a else b }

  /** Before the cap; `over` is the number of failures beyond the threshold. */
  function UncappedPenalty(over: nat, c: Config): int {
    match c.mode
    case Flat => over * c.percent
    case Exponential => c.percent * Pow2(over)
    case NextCheckReduction => Min((over + 1) * c.percent, c.maxPercent)
    case _ => (over + 1) * c.percent
  }

  /** `calculate_sla_penalty_percent` */
  function PenaltyPercent(failures: int, c: Config): int {
    if !c.enabled || failures < c.threshold then 0
    else
      var penalty := UncappedPenalty(failures - c.threshold, c);
      if c.allowNegative then penalty else Min(penalty, c.maxPercent)
  }

  /** Python's `int(...)`: towards zero. */
  function Trunc(x: real): int { if x >= 0.0 then x.Floor else -((-x).Floor) }

  /** `int(base * (percent / 100))` */
  function PenaltyPoints(base: int, percent: int): int { Trunc(base as real * (percent as real / 100.0)) }

  function Scale(points: int, multiplier: real): int { Trunc(points as real * multiplier) }

  function Multiplier(round: int, c: Config): real {
    if !c.dynamicEnabled then 1.0
    else if round <= c.earlyRounds then c.earlyMultiplier
    else if round >= c.lateStart then c.lateMultiplier
    else 1.0
  }

  /** `apply_dynamic_scoring_to_round` */
  function ApplyDynamic(round: int, points: int, c: Config): int { Scale(points, Multiplier(round, c)) }

  function PointsAt(points: int, c: Config): int -> int { (round: int) => ApplyDynamic(round, points, c) }

  // ---- Arithmetic ----

  lemma TruncInt(n: int)
    ensures Trunc(n as real) == n
  {
  }

  lemma TruncMonotone(x: real, y: real)
    requires x <= y
    ensures Trunc(x) <= Trunc(y)
  {
  }

  /** Truncating two parts separately loses less than two points against truncating the sum. */
  lemma TruncSum(x: real, y: real)
    requires x >= 0.0 && y >= 0.0
    ensures 0 <= Trunc(x) + Trunc(y) <= Trunc(x + y) <= Trunc(x) + Trunc(y) + 1
  {
  }

  lemma ApplyPlain(round: int, points: int, c: Config)
    requires !c.dynamicEnabled
    ensures ApplyDynamic(round, points, c) == points
  {
    assert points as real * 1.0 == points as real;
  }

  lemma ApplyZero(round: int, c: Config)
    ensures ApplyDynamic(round, 0, c) == 0
  {
    assert 0 as real * Multiplier(round, c) == 0.0;
  }

  lemma RealProduct(x: real, y: real)
    requires x >= 0.0 && y >= 0.0
    ensures x * y >= 0.0
  {
  }

  lemma RealMonotone(x: real, y: real, k: real)
    requires x <= y && k >= 0.0
    ensures x * k <= y * k && k * x <= k * y
  {
    RealProduct(y - x, k);
    assert (y - x) * k == y * k - x * k;
  }

  /** A penalty of at most 100 percent never exceeds the base, and grows with the percentage. */
  lemma PenaltyBounded(base: int, percent: int)
    requires base >= 0 && percent <= 100
    ensures PenaltyPoints(base, percent) <= base
    ensures percent >= 0 ==> PenaltyPoints(base, percent) >= 0
  {
    var b, p := base as real, percent as real / 100.0;
    RealMonotone(p, 1.0, b);
    TruncMonotone(b * p, b);
    TruncInt(base);
    if percent >= 0 {
      RealProduct(b, p);
    }
  }

  /** In whole numbers: hundredths of `base * percent`, cut off towards zero. */
  lemma PenaltyTruncates(base: int, percent: int)
    ensures base * percent >= 0 ==>
              100 * PenaltyPoints(base, percent) <= base * percent < 100 * PenaltyPoints(base, percent) + 100
    ensures base * percent <= 0 ==>
              100 * PenaltyPoints(base, percent) - 100 < base * percent <= 100 * PenaltyPoints(base, percent)
  {
    var x := base as real * (percent as real / 100.0);
    assert x == (base * percent) as real / 100.0 by {
      assert base as real * percent as real == (base * percent) as real;
    }
    TruncTowardsZero(x);
  }

  /** `int(x)` drops the fraction. */
  lemma TruncTowardsZero(x: real)
    ensures x >= 0.0 ==> Trunc(x) as real <= x < Trunc(x) as real + 1.0
    ensures x <= 0.0 ==> Trunc(x) as real - 1.0 < x <= Trunc(x) as real
  {
  }

  /** Points under a multiplier are cut off towards zero. */
  lemma ScaleTruncates(points: int, multiplier: real)
    ensures points as real * multiplier >= 0.0 ==>
              Scale(points, multiplier) as real <= points as real * multiplier < Scale(points, multiplier) as real + 1.0
    ensures points as real * multiplier <= 0.0 ==>
              Scale(points, multiplier) as real - 1.0 < points as real * multiplier <= Scale(points, multiplier) as real
  {
    TruncTowardsZero(points as real * multiplier);
  }

  lemma PenaltyMonotone(base: int, p: int, q: int)
    requires base >= 0 && p <= q
    ensures PenaltyPoints(base, p) <= PenaltyPoints(base, q)
  {
    RealMonotone(p as real / 100.0, q as real / 100.0, base as real);
    TruncMonotone(base as real * (p as real / 100.0), base as real * (q as real / 100.0));
  }

  lemma {:induction false} Pow2Grows(n: nat)
    ensures n + 1 <= Pow2(n) && Pow2(n) < Pow2(n + 1)
  {
    if n > 0 {
      Pow2Grows(n - 1);
    }
  }

  lemma Times(a: int, b: int, k: int)
    requires a <= b && k >= 0
    ensures a * k <= b * k && k * a <= k * b
  {
  }

  /** For every failure count flat <= additive <= exponential, capped or not. */
  lemma ModesAreOrdered(failures: int, c: Config)
    requires c.percent >= 0
    ensures PenaltyPercent(failures, c.(mode := Flat)) <= PenaltyPercent(failures, c.(mode := Additive))
    ensures PenaltyPercent(failures, c.(mode := Additive)) <= PenaltyPercent(failures, c.(mode := Exponential))
  {
    if failures >= c.threshold {
      var over := failures - c.threshold;
      Pow2Grows(over);
      Times(over, over + 1, c.percent);
      Times(over + 1, Pow2(over), c.percent);
    }
  }

  /** The schedule a mode advertises: `doc[k]` is the percentage k failures beyond the threshold, before any cap. */
  ghost predicate Advertised(doc: seq<int>, c: Config) {
    && (doc != [] ==> doc[0] == if c.mode == Flat then 0 else c.percent)
    && (forall k | 0 <= k < |doc| - 1 :: AdvertisedStep(doc, k, c))
  }

  /** "Doubles each failure", or one more percentage per failure. */
  ghost predicate AdvertisedStep(doc: seq<int>, k: nat, c: Config)
    requires k + 1 < |doc|
  {
    doc[k + 1] == if c.mode == Exponential then 2 * doc[k] else doc[k] + c.percent
  }

  lemma Doubling(a: int, b: int)
    ensures a * (2 * b) == 2 * (a * b)
  {
  }

  lemma {:induction false} UncappedIsAdvertised(doc: seq<int>, k: nat, c: Config)
    requires Advertised(doc, c) && k < |doc| && c.mode != NextCheckReduction
    ensures UncappedPenalty(k, c) == doc[k]
  {
    if k > 0 {
      UncappedIsAdvertised(doc, k - 1, c);
      assert AdvertisedStep(doc, k - 1, c);
      assert (k + 1) * c.percent == k * c.percent + c.percent == (k - 1) * c.percent + 2 * c.percent;
      Doubling(c.percent, Pow2(k - 1));
    }
  }

  /** Every mode charges what it advertises, cut at the maximum unless negative scores are allowed, or always. */
  lemma PenaltyFollowsSchedule(doc: seq<int>, k: nat, c: Config)
    requires c.enabled && Advertised(doc, c) && k < |doc|
    ensures PenaltyPercent(c.threshold + k, c) ==
            if c.allowNegative && c.mode != NextCheckReduction then doc[k] else Min(doc[k], c.maxPercent)
  {
    var base := c.(mode := if c.mode == NextCheckReduction then Additive else c.mode);
    forall i | 0 <= i < |doc| - 1 ensures AdvertisedStep(doc, i, base) {
      assert AdvertisedStep(doc, i, c);
    }
    UncappedIsAdvertised(doc, k, base);
    assert c.mode == NextCheckReduction ==> UncappedPenalty(k, c) == Min((k + 1) * c.percent, c.maxPercent);
  }

  lemma PenaltyGrowsByOne(failures: int, c: Config)
    requires c.percent >= 0 && c.maxPercent >= 0
    ensures 0 <= PenaltyPercent(failures, c) <= PenaltyPercent(failures + 1, c)
  {
    if failures + 1 >= c.threshold {
      var over := failures + 1 - c.threshold;
      Pow2Grows(over);
      Times(0, over + 1, c.percent);
      Times(0, over, c.percent);
      Times(0, Pow2(over), c.percent);
      if over > 0 {
        Pow2Grows(over - 1);
        Times(over, over + 1, c.percent);
        Times(over - 1, over, c.percent);
        Times(0, over - 1, c.percent);
        Times(0, Pow2(over - 1), c.percent);
        Times(Pow2(over - 1), Pow2(over), c.percent);
      }
    }
  }

  /** In every mode the percentage never falls while a streak grows. */
  lemma {:induction false} PenaltyGrows(failures: int, more: nat, c: Config)
    requires c.percent >= 0 && c.maxPercent >= 0
    ensures 0 <= PenaltyPercent(failures, c) <= PenaltyPercent(failures + more, c)
    decreases more
  {
    if more == 0 {
      PenaltyGrowsByOne(failures, c);
    } else {
      PenaltyGrows(failures, more - 1, c);
      PenaltyGrowsByOne(failures + more - 1, c);
    }
  }

  // ---- A service's scores ----

  function NumberOf(rounds: seq<Round>, id: int): (r: Option<int>)
    ensures r.Some? ==> HasRound(rounds, id, r.value)
    ensures r.None? ==> !HasId(rounds, id)
  {
    if rounds == [] then None
    else if rounds[0].id == id then Some(rounds[0].number)
    else
      var rest := NumberOf(rounds[1..], id);
      rest
  }

  /** The join of the service's passing checks with their rounds' numbers. */
  function PassingRounds(rounds: seq<Round>, checks: seq<Check>, service: int): seq<int> {
    if checks == [] then []
    else
      var rest := PassingRounds(rounds, checks[1..], service);
      var c := checks[0];
      if c.service == service && c.result && NumberOf(rounds, c.round).Some?
      then [NumberOf(rounds, c.round).value] + rest
      else rest
  }

  /** The loop's own elif chain. */
  function InlineMultiplier(round: int, c: Config): (m: real)
    ensures c.dynamicEnabled ==> m == Multiplier(round, c)
  {
    if round <= c.earlyRounds then c.earlyMultiplier
    else if round >= c.lateStart then c.lateMultiplier
    else 1.0
  }

  /** The per-check loop of `calculate_service_base_score_with_dynamic`. */
  method ServiceBaseLoop(passing: seq<int>, points: int, c: Config) returns (total: int)
    requires c.dynamicEnabled
    ensures total == Sum(passing, PointsAt(points, c))
  {
    total := 0;
    var i := 0;
    while i < |passing|
      invariant 0 <= i <= |passing|
      invariant total == Sum(passing[..i], PointsAt(points, c))
    {
      var multiplier := InlineMultiplier(passing[i], c);
      var earned := Scale(points, multiplier);
      assert earned == PointsAt(points, c)(passing[i]);
      assert passing[..i + 1] == passing[..i] + [passing[i]];
      SumSnoc(passing[..i], passing[i], PointsAt(points, c));
      total := total + earned;
      i := i + 1;
    }
    assert passing[..i] == passing;
  }

  /** Earned before penalties: passes times points, or the truncated sum per passing check. */
  function ServiceBase(t: Tables, s: Service, c: Config): int {
    Sum(PassingRounds(t.rounds, t.checks, s.id), PointsAt(s.points, c))
  }

  lemma {:induction false} PlainBase(passing: seq<int>, points: int, c: Config)
    requires !c.dynamicEnabled
    ensures Sum(passing, PointsAt(points, c)) == |passing| * points
  {
    if passing != [] {
      ApplyPlain(passing[0], points, c);
      PlainBase(passing[1..], points, c);
    }
  }

  /** `calculate_service_penalty_points`, given the failure count of the scan. */
  function ServicePenalty(base: int, failures: int, c: Config): int {
    if !c.enabled then 0
    else
      var percent := PenaltyPercent(failures, c);
      if percent == 0 then 0 else PenaltyPoints(base, percent)
  }

  /** `calculate_service_adjusted_score` */
  function AdjustedScore(base: int, failures: int, c: Config): int {
    var adjusted := base - ServicePenalty(base, failures, c);
    if c.allowNegative then adjusted else Max(0, adjusted)
  }

  /** Switched off, or while the failures are within the tolerated number, nothing is charged. */
  lemma ToleratedFailuresAreFree(base: int, failures: int, c: Config)
    requires !c.enabled || failures < c.threshold
    ensures ServicePenalty(base, failures, c) == 0
    ensures base >= 0 ==> AdjustedScore(base, failures, c) == base
  {
  }

  /**
   The adjusted score in whole numbers: the percentage that is left of the base, rounded up;
   0 where more than all of it would be lost and scores may not be negative.
   */
  lemma AdjustedRoundsUp(base: int, failures: int, c: Config)
    requires base >= 0 && PenaltyPercent(failures, c) >= 0
    ensures var left, score := base * (100 - PenaltyPercent(failures, c)), AdjustedScore(base, failures, c);
            if c.allowNegative || PenaltyPercent(failures, c) <= 100 then 100 * score - 100 < left <= 100 * score
            else score == 0
  {
    var percent := PenaltyPercent(failures, c);
    PenaltyTruncates(base, percent);
    assert base * (100 - percent) == 100 * base - base * percent;
    if percent <= 100 {
      PenaltyBounded(base, percent);
    } else {
      PenaltyMonotone(base, 100, percent);
      PenaltyTruncates(base, 100);
    }
  }
}
