/** Team totals read from `round_score` against service totals read from the checks. */
module Totals {
  import opened Sums
  import opened Store
  import opened Streaks
  import opened Scores
  import opened Sla
  import opened Lifecycle

  ghost predicate ValidServices(services: seq<Service>) {
    && (forall i, j | 0 <= i < j < |services| :: services[i].id != services[j].id)
    && (forall s | s in services :: s.points >= 0)
  }

  ghost predicate ValidMultipliers(c: Config) { c.earlyMultiplier >= 0.0 && c.lateMultiplier >= 0.0 }

  /** The multiplier applied to one row's total. */
  function TeamRow(team: int, c: Config): RoundScore -> int {
    (row: RoundScore) => if row.team == team then ApplyDynamic(row.number, row.points, c) else 0
  }

  /** The loop of `team_dynamic_service_score`. */
  method TeamDynamicServiceScore(t: Tables, team: int, c: Config) returns (total: int)
    ensures total == TeamBase(t, team, c)
  {
    total := 0;
    var i := 0;
    while i < |t.scores|
      invariant 0 <= i <= |t.scores|
      invariant total == Sum(t.scores[..i], TeamRow(team, c))
    {
      var row := t.scores[i];
      assert t.scores[..i + 1] == t.scores[..i] + [row];
      SumSnoc(t.scores[..i], row, TeamRow(team, c));
      if row.team == team {
        total := total + ApplyDynamic(row.number, row.points, c);
      }
      i := i + 1;
    }
    assert t.scores[..i] == t.scores;
  }

  function TeamBase(t: Tables, team: int, c: Config): int { Sum(t.scores, TeamRow(team, c)) }

  function RawRow(team: int): RoundScore -> int {
    (row: RoundScore) => if row.team == team then row.points else 0
  }

  /** Without dynamic scoring the team base is the raw total behind `Team.current_score`. */
  lemma PlainTeamBase(t: Tables, team: int, c: Config)
    requires !c.dynamicEnabled
    ensures TeamBase(t, team, c) == Sum(t.scores, RawRow(team))
  {
    forall row | row in t.scores ensures TeamRow(team, c)(row) == RawRow(team)(row) {
      ApplyPlain(row.number, row.points, c);
    }
    SumEq(t.scores, TeamRow(team, c), RawRow(team));
  }

  // ---- Services to checks ----

  /** A passing check of the service, truncated on its own. */
  function PassPoints(rounds: seq<Round>, s: Service, c: Config, k: Check): int {
    if k.service == s.id && k.result && NumberOf(rounds, k.round).Some?
    then ApplyDynamic(NumberOf(rounds, k.round).value, s.points, c) else 0
  }

  function PassValue(rounds: seq<Round>, s: Service, c: Config): Check -> int {
    (k: Check) => PassPoints(rounds, s, c, k)
  }

  lemma {:induction false} BaseOverChecks(rounds: seq<Round>, checks: seq<Check>, s: Service, c: Config)
    ensures Sum(PassingRounds(rounds, checks, s.id), PointsAt(s.points, c)) == Sum(checks, PassValue(rounds, s, c))
  {
    if checks != [] {
      BaseOverChecks(rounds, checks[1..], s, c);
      var k := checks[0];
      if k.service == s.id && k.result && NumberOf(rounds, k.round).Some? {
        var n := NumberOf(rounds, k.round).value;
        assert ([n] + PassingRounds(rounds, checks[1..], s.id))[1..] == PassingRounds(rounds, checks[1..], s.id);
      }
    }
  }

  function TeamServiceBase(t: Tables, team: int, c: Config): Service -> int {
    (s: Service) => if s.team == team then ServiceBase(t, s, c) else 0
  }

  /** A passing check's truncated points, for the team that owns its service. */
  function CheckValue(rounds: seq<Round>, services: seq<Service>, team: int, c: Config): Check -> int {
    (k: Check) => if Earns(services, k, team) && NumberOf(rounds, k.round).Some?
      then ApplyDynamic(NumberOf(rounds, k.round).value, Find(services, k.service).value.points, c) else 0
  }

  function ServiceCheck(rounds: seq<Round>, team: int, c: Config): (Service, Check) -> int {
    (s: Service, k: Check) => if s.team == team then PassPoints(rounds, s, c, k) else 0
  }

  /** Only one service owns a check. */
  lemma {:induction false} OwnerOnly(rounds: seq<Round>, services: seq<Service>, team: int, c: Config, k: Check)
    requires forall i, j | 0 <= i < j < |services| :: services[i].id != services[j].id
    ensures Sum(services, Column(ServiceCheck(rounds, team, c), k)) == CheckValue(rounds, services, team, c)(k)
  {
    if services != [] {
      var rest := services[1..];
      assert forall i | 0 <= i < |rest| :: rest[i] == services[i + 1];
      if services[0].id == k.service {
        forall s | s in rest ensures Column(ServiceCheck(rounds, team, c), k)(s) == 0 {
          var i :| 0 <= i < |rest| && rest[i] == s;
          assert services[i + 1].id != services[0].id;
        }
        SumZero(rest, Column(ServiceCheck(rounds, team, c), k));
      } else {
        OwnerOnly(rounds, rest, team, c, k);
        assert Column(ServiceCheck(rounds, team, c), k)(services[0]) == 0;
      }
    }
  }

  lemma {:induction false} ServicesToChecks(t: Tables, services: seq<Service>, team: int, c: Config)
    requires ValidServices(services)
    ensures Sum(services, TeamServiceBase(t, team, c)) == Sum(t.checks, CheckValue(t.rounds, services, team, c))
  {
    var w := ServiceCheck(t.rounds, team, c);
    SumSwap(services, t.checks, w);
    forall s | s in services ensures TeamServiceBase(t, team, c)(s) == RowSums(t.checks, w)(s) {
      BaseOverChecks(t.rounds, t.checks, s, c);
      if s.team == team {
        SumEq(t.checks, Row(w, s), PassValue(t.rounds, s, c));
      } else {
        SumZero(t.checks, Row(w, s));
      }
    }
    SumEq(services, TeamServiceBase(t, team, c), RowSums(t.checks, w));
    forall k | k in t.checks ensures ColumnSums(services, w)(k) == CheckValue(t.rounds, services, team, c)(k) {
      OwnerOnly(t.rounds, services, team, c, k);
    }
    SumEq(t.checks, ColumnSums(services, w), CheckValue(t.rounds, services, team, c));
  }

  // ---- Checks and rows to rounds ----

  function InRoundWeight<T>(roundOf: T -> int, f: T -> int): (Round, T) -> int {
    (r: Round, x: T) => if roundOf(x) == r.id then f(x) else 0
  }

  /** Rows that all belong to some round can be summed round by round. */
  lemma {:induction false} ByRound<T>(rounds: seq<Round>, xs: seq<T>, roundOf: T -> int, f: T -> int)
    requires Pairwise(rounds, IdsIncrease)
    requires forall x | x in xs :: HasId(rounds, roundOf(x))
    ensures Sum(xs, f) == Sum(rounds, RowSums(xs, InRoundWeight(roundOf, f)))
  {
    var w := InRoundWeight(roundOf, f);
    SumSwap(rounds, xs, w);
    forall x | x in xs ensures ColumnSums(rounds, w)(x) == f(x) {
      var r :| r in rounds && r.id == roundOf(x);
      var i :| 0 <= i < |rounds| && rounds[i] == r;
      forall j | 0 <= j < |rounds| && j != i ensures Column(w, x)(rounds[j]) == 0 {
        assert IdsIncrease(rounds[i], rounds[j]) || IdsIncrease(rounds[j], rounds[i]);
      }
      SumSingle(rounds, i, Column(w, x));
    }
    SumEq(xs, ColumnSums(rounds, w), f);
  }

  function RoundOfCheck(): Check -> int { (k: Check) => k.round }

  function RoundOfRow(): RoundScore -> int { (row: RoundScore) => row.round }

  /** The team's truncated service points of one round. */
  function RoundValue(t: Tables, services: seq<Service>, team: int, c: Config): Round -> int {
    RowSums(t.checks, InRoundWeight(RoundOfCheck(), CheckValue(t.rounds, services, team, c)))
  }

  function RoundPoints(t: Tables, services: seq<Service>, r: Round, team: int): int {
    Sum(t.checks, CheckPoints(services, r.id, team))
  }

  /** The round's total, truncated once. */
  function RoundTotal(t: Tables, services: seq<Service>, team: int, c: Config): Round -> int {
    (r: Round) => ApplyDynamic(r.number, RoundPoints(t, services, r, team), c)
  }

  /** Sums over a team's score rows are sums over the rounds in which it scored. */
  lemma RowsByRound(t: Tables, services: seq<Service>, team: int, f: RoundScore -> int, g: Round -> int)
    requires Sound(t, services)
    requires forall row | row in t.scores && row.team != team :: f(row) == 0
    requires forall r, row | r in t.rounds && row in t.scores && row.round == r.id && row.team == team :: f(row) == g(r)
    requires forall r | r in t.rounds && RoundPoints(t, services, r, team) == 0 :: g(r) == 0
    ensures Sum(t.scores, f) == Sum(t.rounds, g)
  {
    forall row | row in t.scores ensures HasId(t.rounds, RoundOfRow()(row)) {
      var r :| r in t.rounds && r.id == row.round && r.number == row.number;
    }
    ByRound(t.rounds, t.scores, RoundOfRow(), f);
    var w := InRoundWeight(RoundOfRow(), f);
    forall r | r in t.rounds ensures RowSums(t.scores, w)(r) == g(r) {
      OneRowPerRound(t, services, team, f, g, r);
    }
    SumEq(t.rounds, RowSums(t.scores, w), g);
  }

  lemma OneRowPerRound(t: Tables, services: seq<Service>, team: int, f: RoundScore -> int, g: Round -> int, r: Round)
    requires ScoresMatch(t, services) && r in t.rounds
    requires forall row | row in t.scores && row.team != team :: f(row) == 0
    requires forall row | row in t.scores && row.round == r.id && row.team == team :: f(row) == g(r)
    requires RoundPoints(t, services, r, team) == 0 ==> g(r) == 0
    ensures RowSums(t.scores, InRoundWeight(RoundOfRow(), f))(r) == g(r)
  {
    var w := Row(InRoundWeight(RoundOfRow(), f), r);
    if i :| 0 <= i < |t.scores| && t.scores[i].round == r.id && t.scores[i].team == team {
      forall j | 0 <= j < |t.scores| && j != i ensures w(t.scores[j]) == 0 {
        assert if i < j then DifferentKey(t.scores[i], t.scores[j]) else DifferentKey(t.scores[j], t.scores[i]);
      }
      SumSingle(t.scores, i, w);
    } else {
      forall row | row in t.scores ensures w(row) == 0 && RowPoints(r.id, team)(row) == 0 {
        var i :| 0 <= i < |t.scores| && t.scores[i] == row;
      }
      SumZero(t.scores, w);
      SumZero(t.scores, RowPoints(r.id, team));
      assert Sum(t.scores, RowPoints(r.id, team)) == RoundPoints(t, services, r, team);
    }
  }

  lemma RowHoldsRoundPoints(t: Tables, services: seq<Service>, row: RoundScore)
    requires ScoresMatch(t, services) && row in t.scores
    ensures Sum(t.checks, CheckPoints(services, row.round, row.team)) == row.points
  {
    var i :| 0 <= i < |t.scores| && t.scores[i] == row;
    forall j | 0 <= j < |t.scores| && j != i ensures RowPoints(row.round, row.team)(t.scores[j]) == 0 {
      assert if i < j then DifferentKey(t.scores[i], t.scores[j]) else DifferentKey(t.scores[j], t.scores[i]);
    }
    SumSingle(t.scores, i, RowPoints(row.round, row.team));
    assert Sum(t.scores, RowPoints(row.round, row.team)) == Sum(t.checks, CheckPoints(services, row.round, row.team));
  }

  lemma {:induction false} NumberOfRound(t: Tables, id: int, r: Round)
    requires Linked(t) && r in t.rounds && r.id == id
    ensures NumberOf(t.rounds, id) == Some(r.number)
    ensures forall number | HasRound(t.rounds, id, number) :: number == r.number
  {
    forall x | x in t.rounds && x.id == id ensures x == r {
      SameIdSameRound(t.rounds, r, x);
    }
  }

  // ---- Truncating per check against truncating per round ----

  function Passes(services: seq<Service>, id: int, team: int): Check -> int {
    (k: Check) => if k.round == id && Earns(services, k, team) then 1 else 0
  }

  function Scaled(services: seq<Service>, id: int, team: int, m: real): Check -> int {
    (k: Check) =>
      if k.round == id && Earns(services, k, team) then Scale(Find(services, k.service).value.points, m) else 0
  }

  lemma ScaleSum(a: int, b: int, m: real)
    requires a >= 0 && b >= 0 && m >= 0.0
    ensures 0 <= Scale(a, m)
    ensures Scale(a, m) + Scale(b, m) <= Scale(a + b, m) <= Scale(a, m) + Scale(b, m) + 1
  {
    var x, y := a as real * m, b as real * m;
    RealProduct(a as real, m);
    RealProduct(b as real, m);
    RealDistributes(a as real, b as real, m);
    assert Scale(a + b, m) == Trunc(x + y) && Scale(a, m) == Trunc(x) && Scale(b, m) == Trunc(y);
    TruncSum(x, y);
  }

  lemma RealDistributes(a: real, b: real, m: real)
    ensures (a + b) * m == a * m + b * m
  {
  }

  lemma ScaleZero(m: real)
    ensures Scale(0, m) == 0
  {
    assert 0 as real * m == 0.0;
  }

  /** Over the passing checks of one round, truncating each loses at most one point per check but the first. */
  lemma {:induction false} TruncationLoss(checks: seq<Check>, services: seq<Service>, id: int, team: int, m: real)
    requires m >= 0.0 && forall s | s in services :: s.points >= 0
    ensures var n, p, v := Sum(checks, Passes(services, id, team)), Sum(checks, CheckPoints(services, id, team)),
                           Sum(checks, Scaled(services, id, team, m));
            && n >= 0 && p >= 0 && (n == 0 ==> p == 0)
            && v <= Scale(p, m) <= v + (if n == 0 then 0 else n - 1)
            && (p == 0 ==> v == 0)
  {
    ScaleZero(m);
    if checks != [] {
      var rest, k := checks[1..], checks[0];
      TruncationLoss(rest, services, id, team, m);
      if k.round == id && Earns(services, k, team) {
        ScaleSum(Find(services, k.service).value.points, Sum(rest, CheckPoints(services, id, team)), m);
      }
    }
  }

  lemma RoundLoss(t: Tables, services: seq<Service>, team: int, c: Config, r: Round)
    requires Linked(t) && ValidServices(services) && ValidMultipliers(c) && r in t.rounds
    ensures var n := Sum(t.checks, Passes(services, r.id, team));
            && RoundValue(t, services, team, c)(r) <= RoundTotal(t, services, team, c)(r)
            && RoundTotal(t, services, team, c)(r) <=
                 RoundValue(t, services, team, c)(r) + (if RoundPoints(t, services, r, team) == 0 then 0 else n - 1)
  {
    var m := Multiplier(r.number, c);
    NumberOfRound(t, r.id, r);
    var w := Row(InRoundWeight(RoundOfCheck(), CheckValue(t.rounds, services, team, c)), r);
    SumEq(t.checks, w, Scaled(services, r.id, team, m));
    TruncationLoss(t.checks, services, r.id, team, m);
    ScaleZero(m);
  }

  function RoundSlack(t: Tables, services: seq<Service>, team: int): Round -> int {
    (r: Round) => if RoundPoints(t, services, r, team) == 0 then 0 else Sum(t.checks, Passes(services, r.id, team)) - 1
  }

  /** Passing checks beyond the first, for each round the team scored in. */
  function RowSlack(t: Tables, services: seq<Service>, team: int): RoundScore -> int {
    (row: RoundScore) => if row.team == team then Sum(t.checks, Passes(services, row.round, team)) - 1 else 0
  }

  /**
   The rounding bound between the two grains: a team's base is at least the sum of its
   services' bases, and exceeds it by at most one point per passing check beyond the
   first of each scoring round.
   */
  lemma {:induction false} RoundingBound(t: Tables, services: seq<Service>, team: int, c: Config)
    requires Sound(t, services) && ValidServices(services) && ValidMultipliers(c)
    ensures 0 <= TeamBase(t, team, c) - Sum(services, TeamServiceBase(t, team, c))
              <= Sum(t.scores, RowSlack(t, services, team))
  {
    ServicesToChecks(t, services, team, c);
    ByRound(t.rounds, t.checks, RoundOfCheck(), CheckValue(t.rounds, services, team, c));
    TeamBaseByRound(t, services, team, c);
    SlackByRound(t, services, team);
    var value, total := RoundValue(t, services, team, c), RoundTotal(t, services, team, c);
    var slack := RoundSlack(t, services, team);
    forall r | r in t.rounds ensures value(r) <= total(r) <= value(r) + slack(r) {
      RoundLoss(t, services, team, c, r);
    }
    var bound := (r: Round) => value(r) + slack(r);
    SumLe(t.rounds, value, total);
    SumLe(t.rounds, total, bound);
    SumPlus(t.rounds, value, slack, bound);
  }

  lemma TeamBaseByRound(t: Tables, services: seq<Service>, team: int, c: Config)
    requires Sound(t, services)
    ensures TeamBase(t, team, c) == Sum(t.rounds, RoundTotal(t, services, team, c))
  {
    forall r, row | r in t.rounds && row in t.scores && row.round == r.id && row.team == team
      ensures TeamRow(team, c)(row) == RoundTotal(t, services, team, c)(r)
    {
      RowHoldsRoundPoints(t, services, row);
      NumberOfRound(t, r.id, r);
    }
    forall r | r in t.rounds && RoundPoints(t, services, r, team) == 0
      ensures RoundTotal(t, services, team, c)(r) == 0
    {
      ApplyZero(r.number, c);
    }
    RowsByRound(t, services, team, TeamRow(team, c), RoundTotal(t, services, team, c));
  }

  lemma SlackByRound(t: Tables, services: seq<Service>, team: int)
    requires Sound(t, services)
    ensures Sum(t.scores, RowSlack(t, services, team)) == Sum(t.rounds, RoundSlack(t, services, team))
  {
    forall r, row | r in t.rounds && row in t.scores && row.round == r.id && row.team == team
      ensures RowSlack(t, services, team)(row) == RoundSlack(t, services, team)(r)
    {
      RowHoldsRoundPoints(t, services, row);
    }
    RowsByRound(t, services, team, RowSlack(t, services, team), RoundSlack(t, services, team));
  }
}
