/** The line chart: downsampled rounds, and cumulative scores that must agree with the bar chart. */
module Charts {
  import opened Sums
  import opened Store
  import opened Scores
  import opened Lifecycle
  import opened Rollback
  import opened Sla
  import opened Totals
  import opened Reads

  // ---- Downsampling ----

  /** Python's `round`: to the nearest integer, ties to the even one. */
  function RoundHalfEven(num: int, den: int): int
    requires den > 0
  {
    var q, r := num / den, num % den;
    if 2 * r < den then q
    else if 2 * r > den then q + 1
    else if q % 2 == 0 then q
    else q + 1
  }

  lemma RoundsToNearest(num: int, den: int)
    requires den > 0
    ensures 2 * num - den <= 2 * den * RoundHalfEven(num, den) <= 2 * num + den
  {
    var q, r := num / den, num % den;
    assert num == q * den + r;
    assert 2 * den * (q + 1) == 2 * den * q + 2 * den;
  }

  /** Of two equally near integers it is the even one, so nothing but this number fits both statements. */
  lemma TiesGoToEven(num: int, den: int)
    requires den > 0
    ensures var a := RoundHalfEven(num, den); 2 * den * a in {2 * num - den, 2 * num + den} ==> a % 2 == 0
  {
    var q, r, a := num / den, num % den, RoundHalfEven(num, den);
    assert num == q * den + r;
    assert 2 * den * (q + 1) == 2 * den * q + 2 * den;
  }

  /** The i-th sampling position, `round(i * step)` with `step = (n - 1) / (maxPoints - 1)`. */
  function Position(i: int, n: int, maxPoints: int): int
    requires maxPoints >= 2
  {
    RoundHalfEven(i * (n - 1), maxPoints - 1)
  }

  ghost predicate Increasing(s: seq<int>) {
    forall i, j | 0 <= i < j < |s| :: s[i] < s[j]
  }

  /** Neighbouring positions differ by at least 1 and at most floor(step) + 1. */
  lemma PositionGap(i: int, n: int, maxPoints: int)
    requires 2 <= maxPoints < n
    ensures 1 <= Position(i + 1, n, maxPoints) - Position(i, n, maxPoints) <= (n - 1) / (maxPoints - 1) + 1
  {
    var d, m := maxPoints - 1, n - 1;
    var a, b := Position(i, n, maxPoints), Position(i + 1, n, maxPoints);
    RoundsToNearest(i * m, d);
    RoundsToNearest((i + 1) * m, d);
    assert (i + 1) * m == i * m + m;
    GapFromBounds(a, b, d, m, i * m);
  }

  lemma GapFromBounds(a: int, b: int, d: int, m: int, x: int)
    requires 0 < d < m
    requires 2 * x - d <= 2 * d * a <= 2 * x + d
    requires 2 * (x + m) - d <= 2 * d * b <= 2 * (x + m) + d
    ensures 1 <= b - a <= m / d + 1
  {
    var g := b - a;
    assert 2 * d * b - 2 * d * a == 2 * d * g;
    assert 2 * (m - d) <= 2 * d * g <= 2 * (m + d);
    assert g <= 0 ==> d * g <= 0;
    var q, r := m / d, m % d;
    assert m == q * d + r && r < d;
    assert d * (q + 2) == q * d + 2 * d;
    assert g >= q + 2 ==> d * g >= d * (q + 2);
  }

  lemma PositionEnds(n: int, maxPoints: int)
    requires maxPoints >= 2 && n >= 1
    ensures Position(0, n, maxPoints) == 0
    ensures Position(maxPoints - 1, n, maxPoints) == n - 1
  {
    ExactQuotient(maxPoints - 1, 0);
    ExactQuotient(maxPoints - 1, n - 1);
    assert 0 * (n - 1) == (maxPoints - 1) * 0;
  }

  lemma ExactQuotient(d: int, k: int)
    requires d > 0 && k >= 0
    ensures (d * k) / d == k && (d * k) % d == 0
  {
    var q, r := (d * k) / d, (d * k) % d;
    assert d * k == q * d + r;
    assert d * (k - q) == r;
    assert k - q >= 1 ==> d * (k - q) >= d;
    assert k - q <= -1 ==> d * (k - q) <= -d;
  }

  lemma {:induction false} PositionsIncrease(i: int, j: int, n: int, maxPoints: int)
    requires 2 <= maxPoints < n && i < j
    ensures Position(i, n, maxPoints) < Position(j, n, maxPoints)
    decreases j - i
  {
    PositionGap(j - 1, n, maxPoints);
    if i < j - 1 {
      PositionsIncrease(i, j - 1, n, maxPoints);
    }
  }

  method Sorted(s: set<int>) returns (r: seq<int>)
    ensures Increasing(r)
    ensures forall x :: x in r <==> x in s
  {
    r := [];
    var todo := s;
    while todo != {}
      invariant todo <= s
      invariant Increasing(r)
      invariant forall x :: x in r <==> x in s && x !in todo
      invariant forall x, y | x in r && y in todo :: x < y
    {
      var least := Pick(todo);
      var rest := todo - {least};
      while rest != {}
        invariant rest <= todo && least in todo && least !in rest
        invariant forall y | y in todo && y !in rest :: least <= y
      {
        var x := Pick(rest);
        rest := rest - {x};
        if x < least {
          least := x;
        }
      }
      forall i | 0 <= i < |r| ensures r[i] < least {
        assert r[i] in r && least in todo;
      }
      r := r + [least];
      todo := todo - {least};
    }
  }

  lemma HeadIsLeast(s: seq<int>)
    requires s != [] && Increasing(s)
    ensures Increasing(s[1..]) && forall x | x in s[1..] :: s[0] < x
  {
    forall x | x in s[1..] ensures s[0] < x {
      var i :| 0 <= i < |s[1..]| && s[1..][i] == x;
      assert s[i + 1] == x;
    }
  }

  /** A strictly increasing sequence is determined by its elements. */
  lemma {:induction false} SameElements(a: seq<int>, b: seq<int>)
    requires Increasing(a) && Increasing(b)
    requires forall x :: x in a <==> x in b
    ensures a == b
    decreases |a|
  {
    assert a != [] ==> a[0] in a && a[0] in b;
    assert b != [] ==> b[0] in b && b[0] in a;
    if a != [] && b != [] {
      assert a[0] == b[0];
      HeadIsLeast(a);
      HeadIsLeast(b);
      forall x ensures x in a[1..] <==> x in b[1..] {
        assert x in a <==> x == a[0] || x in a[1..];
        assert x in b <==> x == b[0] || x in b[1..];
      }
      SameElements(a[1..], b[1..]);
      assert a == [a[0]] + a[1..] && b == [b[0]] + b[1..];
    }
  }

  /** All sampling positions. */
  function Positions(n: int, maxPoints: int): seq<int>
    requires maxPoints >= 2
  {
    seq(maxPoints, i => Position(i, n, maxPoints))
  }

  lemma PositionsSpread(n: int, maxPoints: int)
    requires 2 <= maxPoints < n
    ensures var all := Positions(n, maxPoints);
            && Increasing(all) && all[0] == 0 && all[maxPoints - 1] == n - 1
            && forall i | 0 <= i < maxPoints - 1 :: all[i + 1] - all[i] <= (n - 1) / (maxPoints - 1) + 1
  {
    var all := Positions(n, maxPoints);
    forall i, j | 0 <= i < j < |all| ensures all[i] < all[j] {
      PositionsIncrease(i, j, n, maxPoints);
    }
    PositionEnds(n, maxPoints);
    forall i | 0 <= i < maxPoints - 1 ensures all[i + 1] - all[i] <= (n - 1) / (maxPoints - 1) + 1 {
      PositionGap(i, n, maxPoints);
    }
  }

  /** The set of the sampled case, sorted: no two positions coincide. */
  method PickPositions(n: int, maxPoints: int) returns (indices: seq<int>)
    requires 2 <= maxPoints < n
    ensures indices == Positions(n, maxPoints)
  {
    var picked: set<int> := {};
    ghost var all := Positions(n, maxPoints);
    var i := 0;
    while i < maxPoints
      invariant 0 <= i <= maxPoints
      invariant forall x :: x in picked <==> x in all[..i]
    {
      assert all[..i + 1] == all[..i] + [Position(i, n, maxPoints)];
      picked := picked + {Position(i, n, maxPoints)};
      i := i + 1;
    }
    assert all[..i] == all;
    PositionsSpread(n, maxPoints);
    indices := Sorted(picked);
    SameElements(indices, all);
  }

  /** `n` indices are all kept, or exactly `maxPoints` of them, evenly spread from 0 to n - 1. */
  method DownsampleIndices(n: int, maxPoints: int) returns (indices: seq<int>)
    requires n >= 1 && maxPoints >= 2
    ensures Increasing(indices)
    ensures |indices| == if n <= maxPoints then n else maxPoints
    ensures indices[0] == 0 && indices[|indices| - 1] == n - 1
    ensures forall i | 0 <= i < |indices| - 1 :: indices[i + 1] - indices[i] <= (n - 1) / (maxPoints - 1) + 1
    ensures forall i | 0 <= i < |indices| :: indices[i] == if n <= maxPoints then i else Position(i, n, maxPoints)
  {
    if n <= maxPoints {
      indices := seq(n, i => i);
      SmallStep(n, maxPoints);
      return;
    }
    indices := PickPositions(n, maxPoints);
    PositionsSpread(n, maxPoints);
    if indices[|indices| - 1] != n - 1 {
      indices := indices + [n - 1];
    }
  }

  lemma SmallStep(n: int, maxPoints: int)
    requires 1 <= n <= maxPoints && maxPoints >= 2
    ensures (n - 1) / (maxPoints - 1) >= 0
  {
  }

  // ---- The line chart ----

  /** A team's points of one round number. */
  function AtNumber(team: int, number: int, c: Config): RoundScore -> int {
    (row: RoundScore) => if row.team == team && row.number == number then ApplyDynamic(row.number, row.points, c) else 0
  }

  /** A team's points of the rounds up to `number`: one point of the line chart. */
  function UpTo(team: int, number: int, c: Config): RoundScore -> int {
    (row: RoundScore) => if row.team == team && row.number <= number then ApplyDynamic(row.number, row.points, c) else 0
  }

  predicate DifferentNumber(a: RoundScore, b: RoundScore) { a.number != b.number || a.team != b.team }

  function Lookup(scores: map<int, map<int, int>>, team: int, number: int): int {
    Get(Get(scores, team, map[]), number, 0)
  }

  lemma NumbersOnAxis(t: Tables, freeze: Option<int>)
    requires Linked(t) && Numbered(t.rounds)
    ensures forall row | row in RowsAt(t, freeze) :: 1 <= row.number <= |t.rounds|
  {
    forall row | row in RowsAt(t, freeze) ensures 1 <= row.number <= |t.rounds| {
      var r :| r in t.rounds && r.id == row.round && r.number == row.number;
      NumberIsIndex(t.rounds, r);
    }
  }

  /** As the schema lets no team have two rows for one round, no two visible ones share a round number. */
  lemma RowsOnAxis(t: Tables, freeze: Option<int>)
    requires Linked(t) && Numbered(t.rounds) && Pairwise(t.scores, DifferentKey)
    ensures Pairwise(RowsAt(t, freeze), DifferentNumber)
    ensures forall row | row in RowsAt(t, freeze) :: 1 <= row.number <= |t.rounds|
  {
    forall i, j | 0 <= i < j < |t.scores| ensures DifferentNumber(t.scores[i], t.scores[j]) {
      var a, b := t.scores[i], t.scores[j];
      assert DifferentKey(a, b);
      if a.number == b.number {
        var r :| r in t.rounds && r.id == a.round && r.number == a.number;
        var x :| x in t.rounds && x.id == b.round && x.number == b.number;
        NumberIsIndex(t.rounds, r);
        NumberIsIndex(t.rounds, x);
      }
    }
    FilterPairwise(t.scores, InFreeze(t.rounds, freeze), DifferentNumber);
    NumbersOnAxis(t, freeze);
  }

  lemma NumberIsIndex(rounds: seq<Round>, r: Round)
    requires Numbered(rounds) && r in rounds
    ensures 1 <= r.number <= |rounds| && rounds[r.number - 1] == r
  {
    var i :| 0 <= i < |rounds| && rounds[i] == r;
  }

  lemma {:induction false} AtNumberSnoc(rows: seq<RoundScore>, row: RoundScore, c: Config)
    requires forall x | x in rows :: DifferentNumber(x, row)
    ensures forall team, number :: Sum(rows + [row], AtNumber(team, number, c)) ==
              if team == row.team && number == row.number then ApplyDynamic(row.number, row.points, c)
              else Sum(rows, AtNumber(team, number, c))
  {
    forall team, number
      ensures Sum(rows + [row], AtNumber(team, number, c)) ==
              Sum(rows, AtNumber(team, number, c)) + AtNumber(team, number, c)(row)
    {
      SumSnoc(rows, row, AtNumber(team, number, c));
    }
    SumZero(rows, AtNumber(row.team, row.number, c));
  }

  /** The nested dictionary; its plain assignment loses nothing because keys never repeat. */
  method CollectRows(rows: seq<RoundScore>, c: Config) returns (scores: map<int, map<int, int>>)
    requires Pairwise(rows, DifferentNumber)
    ensures forall team, number :: Lookup(scores, team, number) == Sum(rows, AtNumber(team, number, c))
  {
    scores := map[];
    var i := 0;
    while i < |rows|
      invariant 0 <= i <= |rows|
      invariant forall team, number :: Lookup(scores, team, number) == Sum(rows[..i], AtNumber(team, number, c))
    {
      var row := rows[i];
      assert rows[..i + 1] == rows[..i] + [row];
      forall x | x in rows[..i] ensures DifferentNumber(x, row) {
        var k :| 0 <= k < i && rows[k] == x;
      }
      AtNumberSnoc(rows[..i], row, c);
      var points := ApplyDynamic(row.number, row.points, c);
      scores := scores[row.team := Get(scores, row.team, map[])[row.number := points]];
      i := i + 1;
    }
    assert rows[..i] == rows;
  }

  lemma {:induction false} UpToNext(rows: seq<RoundScore>, team: int, r: int, c: Config)
    ensures Sum(rows, UpTo(team, r, c)) == Sum(rows, UpTo(team, r - 1, c)) + Sum(rows, AtNumber(team, r, c))
  {
    SumPlus(rows, UpTo(team, r - 1, c), AtNumber(team, r, c), UpTo(team, r, c));
  }

  /** Running totals of one team over rounds 0 .. n - 1. */
  method Cumulative(rows: seq<RoundScore>, scores: map<int, map<int, int>>, team: int, n: int, c: Config)
    returns (cumulative: seq<int>)
    requires n >= 0 && forall row | row in rows :: row.number >= 1
    requires forall number :: Lookup(scores, team, number) == Sum(rows, AtNumber(team, number, c))
    ensures |cumulative| == n
    ensures forall r | 0 <= r < n :: cumulative[r] == Sum(rows, UpTo(team, r, c))
  {
    cumulative := [];
    var running, r := 0, 0;
    SumZero(rows, UpTo(team, -1, c));
    while r < n
      invariant 0 <= r <= n && |cumulative| == r
      invariant running == Sum(rows, UpTo(team, r - 1, c))
      invariant forall k | 0 <= k < r :: cumulative[k] == Sum(rows, UpTo(team, k, c))
    {
      UpToNext(rows, team, r, c);
      running := running + Lookup(scores, team, r);
      cumulative := cumulative + [running];
      r := r + 1;
    }
  }

  const LINE_CHART_MAX_POINTS := 400

  /** The line of a team: at every sampled round, its points of the rounds up to it. */
  ghost predicate IsLine(line: seq<int>, sampled: seq<int>, rows: seq<RoundScore>, team: int, c: Config) {
    |line| == |sampled| && forall j | 0 <= j < |line| :: line[j] == Sum(rows, UpTo(team, sampled[j], c))
  }

  /** The loop over the teams. */
  method Lines(rows: seq<RoundScore>, scores: map<int, map<int, int>>, teams: seq<int>, sampled: seq<int>, n: int,
               c: Config)
    returns (series: seq<seq<int>>)
    requires n >= 0 && forall row | row in rows :: row.number >= 1
    requires forall team, number :: Lookup(scores, team, number) == Sum(rows, AtNumber(team, number, c))
    requires forall j | 0 <= j < |sampled| :: 0 <= sampled[j] < n
    ensures |series| == |teams|
    ensures forall k | 0 <= k < |teams| :: IsLine(series[k], sampled, rows, teams[k], c)
  {
    series := [];
    while |series| < |teams|
      invariant |series| <= |teams|
      invariant forall k | 0 <= k < |series| :: IsLine(series[k], sampled, rows, teams[k], c)
    {
      var cumulative := Cumulative(rows, scores, teams[|series|], n, c);
      series := series + [seq(|sampled|, j requires 0 <= j < |sampled| => cumulative[sampled[j]])];
    }
  }

  /** The sampled rounds, and for each team its line over them. */
  method LineData(t: Tables, teams: seq<int>, freeze: Option<int>, c: Config)
    returns (sampled: seq<int>, series: seq<seq<int>>)
    requires Linked(t) && Numbered(t.rounds) && Pairwise(t.scores, DifferentKey)
    ensures |sampled| == if |t.rounds| < 400 then |t.rounds| + 1 else 400
    ensures sampled[|sampled| - 1] == |t.rounds|
    ensures |series| == |teams|
    ensures forall k | 0 <= k < |teams| :: IsLine(series[k], sampled, RowsAt(t, freeze), teams[k], c)
  {
    LastNumberCounts(t.rounds);
    RowsOnAxis(t, freeze);
    var rows := RowsAt(t, freeze);
    var scores := CollectRows(rows, c);
    var n := LastNumber(t.rounds) + 1;
    sampled := DownsampleIndices(n, LINE_CHART_MAX_POINTS);
    IndicesInRange(sampled, n);
    series := Lines(rows, scores, teams, sampled, n, c);
  }

  lemma IndicesInRange(s: seq<int>, n: int)
    requires s != [] && Increasing(s) && s[0] == 0 && s[|s| - 1] == n - 1
    ensures forall j | 0 <= j < |s| :: 0 <= s[j] < n
  {
  }

  /** The last point of every line is the score the bar chart shows, live or frozen, dynamic or not. */
  lemma LineEndsAtBar(t: Tables, team: int, freeze: Option<int>, c: Config)
    requires Linked(t) && Numbered(t.rounds)
    ensures Sum(RowsAt(t, freeze), UpTo(team, |t.rounds|, c)) == ServiceScore(t, freeze, team, c)
  {
    NumbersOnAxis(t, freeze);
    SumEq(RowsAt(t, freeze), UpTo(team, |t.rounds|, c), TeamRow(team, c));
  }

  // ---- Team.get_array_of_scores ----

  function RawAt(team: int, number: int): RoundScore -> int {
    (row: RoundScore) => if row.team == team && row.number == number then row.points else 0
  }

  function RawUpTo(team: int, number: int): RoundScore -> int {
    (row: RoundScore) => if row.team == team && row.number <= number then row.points else 0
  }

  lemma {:induction false} RawAtSnoc(rows: seq<RoundScore>, row: RoundScore, team: int)
    ensures forall number :: Sum(rows + [row], RawAt(team, number)) ==
              Sum(rows, RawAt(team, number)) + if row.team == team && row.number == number then row.points else 0
  {
    forall number ensures
        Sum(rows + [row], RawAt(team, number)) == Sum(rows, RawAt(team, number)) + RawAt(team, number)(row)
    {
      SumSnoc(rows, row, RawAt(team, number));
    }
  }

  /** The team's points by round number, up to the last round. */
  method PointsByRound(t: Tables, team: int, maxRound: nat) returns (byRound: map<int, int>)
    ensures forall number | number <= maxRound :: Get(byRound, number, 0) == Sum(t.scores, RawAt(team, number))
  {
    byRound := map[];
    var i := 0;
    while i < |t.scores|
      invariant 0 <= i <= |t.scores|
      invariant forall number | number <= maxRound :: Get(byRound, number, 0) == Sum(t.scores[..i], RawAt(team, number))
    {
      var row := t.scores[i];
      assert t.scores[..i + 1] == t.scores[..i] + [row];
      RawAtSnoc(t.scores[..i], row, team);
      if row.team == team && row.number <= maxRound {
        byRound := byRound[row.number := Get(byRound, row.number, 0) + row.points];
      }
      i := i + 1;
    }
    assert t.scores[..i] == t.scores;
  }

  lemma {:induction false} RawUpToNext(rows: seq<RoundScore>, team: int, r: int)
    ensures Sum(rows, RawUpTo(team, r)) == Sum(rows, RawUpTo(team, r - 1)) + Sum(rows, RawAt(team, r))
  {
    SumPlus(rows, RawUpTo(team, r - 1), RawAt(team, r), RawUpTo(team, r));
  }

  /** Cumulative raw points of a team at rounds 0 .. maxRound. */
  method GetArrayOfScores(t: Tables, team: int, maxRound: nat) returns (totals: seq<int>)
    requires forall row | row in t.scores :: row.number >= 1
    ensures |totals| == maxRound + 1
    ensures forall r | 0 <= r <= maxRound :: totals[r] == Sum(t.scores, RawUpTo(team, r))
  {
    var byRound := PointsByRound(t, team, maxRound);
    totals := [];
    var running, r := 0, 0;
    SumZero(t.scores, RawUpTo(team, -1));
    while r <= maxRound
      invariant 0 <= r <= maxRound + 1 && |totals| == r
      invariant running == Sum(t.scores, RawUpTo(team, r - 1))
      invariant forall k | 0 <= k < r :: totals[k] == Sum(t.scores, RawUpTo(team, k))
    {
      RawUpToNext(t.scores, team, r);
      running := running + Get(byRound, r, 0);
      totals := totals + [running];
      r := r + 1;
    }
  }

  /** Without dynamic scoring the team page and the line chart plot the same totals. */
  lemma ArrayMatchesLine(t: Tables, team: int, r: int, c: Config)
    requires !c.dynamicEnabled
    ensures Sum(t.scores, RawUpTo(team, r)) == Sum(RowsAt(t, None), UpTo(team, r, c))
  {
    FilterAll(t.scores, InFreeze(t.rounds, None));
    forall row | row in t.scores ensures RawUpTo(team, r)(row) == UpTo(team, r, c)(row) {
      ApplyPlain(row.number, row.points, c);
    }
    SumEq(t.scores, RawUpTo(team, r), UpTo(team, r, c));
  }
}
