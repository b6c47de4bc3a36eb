/** Reads under a freeze: a snapshot of the live values at the freeze instant. */
module Freeze {
  import opened Sums
  import opened Store
  import opened Scores
  import opened Lifecycle
  import opened Sla
  import opened Totals
  import opened Reads

  datatype Adjustment = Adjustment(team: int, points: int, at: int)

  /** A reported flag capture. */
  datatype Solve = Solve(team: int, root: bool, dummy: bool, at: int)

  datatype Board = Board(tables: Tables, adjustments: seq<Adjustment>, solves: seq<Solve>)

  // ---- The frozen reads ----

  function InTime(freeze: Option<int>): Adjustment -> bool { (a: Adjustment) => freeze.None? || a.at <= freeze.value }

  function AdjustmentOf(team: int): Adjustment -> int { (a: Adjustment) => if a.team == team then a.points else 0 }

  function AdjustmentTotal(b: Board, freeze: Option<int>, team: int): int {
    Sum(Filter(b.adjustments, InTime(freeze)), AdjustmentOf(team))
  }

  function Counted(freeze: Option<int>): Solve -> bool {
    (s: Solve) => !s.dummy && (freeze.None? || s.at <= freeze.value)
  }

  function FlagPointsOf(team: int, userPoints: int, rootPoints: int): Solve -> int {
    (s: Solve) => if s.team != team then 0 else if s.root then rootPoints else userPoints
  }

  function FlagPoints(b: Board, freeze: Option<int>, team: int, userPoints: int, rootPoints: int): int {
    Sum(Filter(b.solves, Counted(freeze)), FlagPointsOf(team, userPoints, rootPoints))
  }

  /** One row of the grouped query: a team's captures of one kind. */
  function IsCapture(team: int, root: bool): Solve -> int {
    (s: Solve) => if s.team == team && s.root == root then 1 else 0
  }

  function Groups(solves: seq<Solve>): set<(int, bool)> {
    set s | s in solves :: (s.team, s.root)
  }

  /** What the groups already read are worth to `team`. */
  function Worth(solves: seq<Solve>, groups: set<(int, bool)>, team: int, userPoints: int, rootPoints: int): int {
    (if (team, true) in groups then Times(rootPoints, Sum(solves, IsCapture(team, true))) else 0)
    + (if (team, false) in groups then Times(userPoints, Sum(solves, IsCapture(team, false))) else 0)
  }

  function Times(points: int, count: int): int { points * count }

  lemma {:induction false} SolvesByKind(solves: seq<Solve>, team: int, userPoints: int, rootPoints: int)
    ensures Sum(solves, FlagPointsOf(team, userPoints, rootPoints)) ==
            Times(rootPoints, Sum(solves, IsCapture(team, true)))
            + Times(userPoints, Sum(solves, IsCapture(team, false)))
  {
    if solves != [] {
      SolvesByKind(solves[1..], team, userPoints, rootPoints);
      OneMoreTime(rootPoints, Sum(solves[1..], IsCapture(team, true)));
      OneMoreTime(userPoints, Sum(solves[1..], IsCapture(team, false)));
    }
  }

  lemma OneMoreTime(points: int, count: int)
    ensures Times(points, count + 1) == Times(points, count) + points
  {
  }

  lemma {:induction false} AllGroupsRead(solves: seq<Solve>, team: int, userPoints: int, rootPoints: int)
    ensures Worth(solves, Groups(solves), team, userPoints, rootPoints) ==
            Sum(solves, FlagPointsOf(team, userPoints, rootPoints))
  {
    SolvesByKind(solves, team, userPoints, rootPoints);
    if (team, true) !in Groups(solves) {
      forall s | s in solves ensures IsCapture(team, true)(s) == 0 {
        assert (s.team, s.root) in Groups(solves);
      }
      SumZero(solves, IsCapture(team, true));
    }
    if (team, false) !in Groups(solves) {
      forall s | s in solves ensures IsCapture(team, false)(s) == 0 {
        assert (s.team, s.root) in Groups(solves);
      }
      SumZero(solves, IsCapture(team, false));
    }
  }

  lemma {:induction false} OneMoreGroup(solves: seq<Solve>, read: set<(int, bool)>, owner: int, root: bool, team: int,
                                        userPoints: int, rootPoints: int)
    requires (owner, root) !in read
    ensures Worth(solves, read + {(owner, root)}, team, userPoints, rootPoints) ==
            Worth(solves, read, team, userPoints, rootPoints)
            + if team == owner then Times(if root then rootPoints else userPoints, Sum(solves, IsCapture(owner, root)))
              else 0
  {
    var more := read + {(owner, root)};
    assert forall kind :: (team, kind) in more <==> (team, kind) in read || (team == owner && kind == root);
  }

  /** `flag_points_by_team`: the loop over the grouped query. */
  method FlagPointsByTeam(b: Board, freeze: Option<int>, userPoints: int, rootPoints: int)
    returns (result: map<int, int>)
    ensures forall team :: Get(result, team, 0) == FlagPoints(b, freeze, team, userPoints, rootPoints)
  {
    var solves := Filter(b.solves, Counted(freeze));
    result := map[];
    var todo := Groups(solves);
    while todo != {}
      invariant todo <= Groups(solves)
      invariant forall team ::
          Get(result, team, 0) == Worth(solves, Groups(solves) - todo, team, userPoints, rootPoints)
    {
      var group := Pick(todo);
      var owner, root := group.0, group.1;
      ghost var read := Groups(solves) - todo;
      forall team {
        OneMoreGroup(solves, read, owner, root, team, userPoints, rootPoints);
      }
      todo := todo - {group};
      assert Groups(solves) - todo == read + {(owner, root)};
      var points := if root then rootPoints else userPoints;
      result := result[owner := Get(result, owner, 0) + Times(points, Sum(solves, IsCapture(owner, root)))];
    }
    forall team ensures Get(result, team, 0) == FlagPoints(b, freeze, team, userPoints, rootPoints) {
      assert Groups(solves) - todo == Groups(solves);
      AllGroupsRead(solves, team, userPoints, rootPoints);
    }
  }

  // ---- What a step of the competition does to the board ----

  /** One more committed state of a round attempt on top of `pre`, or something an admin or an agent recorded. */
  datatype Step =
    | Attempted(pre: Tables, a: Attempt)
    | Adjusted(adjustment: Adjustment)
    | Captured(solve: Solve)
    | Unchanged

  /** From one stage of an attempt to another: opening, landing, being discarded, or nothing at all. */
  ghost predicate RoundStep(t: Tables, u: Tables, pre: Tables, a: Attempt) {
    Linked(pre) && FreshAttempt(pre, a) && Stage(t, pre, a) && Stage(u, pre, a)
  }

  ghost predicate StepHolds(b: Board, b': Board, e: Step) {
    match e
    case Attempted(pre, a) => RoundStep(b.tables, b'.tables, pre, a) && b' == b.(tables := b'.tables)
    case Adjusted(x) => b' == b.(adjustments := b.adjustments + [x])
    case Captured(x) => b' == b.(solves := b.solves + [x])
    case Unchanged => b' == b
  }

  ghost predicate History(boards: seq<Board>, steps: seq<Step>) {
    |boards| == |steps| + 1 && forall i | 0 <= i < |steps| :: StepHolds(boards[i], boards[i + 1], steps[i])
  }

  /** Points the attempt's checks earn a team. */
  function Earned(a: Attempt, team: int): int { Sum(a.checks, CheckPoints(a.services, a.id, team)) }

  ghost predicate EarnsNothing(a: Attempt) { forall team :: Earned(a, team) == 0 }

  /** What the step adds or takes away bears a time after the freeze, or is worth nothing. */
  ghost predicate Punctual(b: Board, b': Board, e: Step, freeze: int) {
    match e
    case Attempted(pre, a) =>
      (Closed(b.tables, pre, a) <==> Closed(b'.tables, pre, a)) || a.end > freeze || EarnsNothing(a)
    case Adjusted(x) => x.at > freeze || x.points == 0
    case Captured(x) => x.at > freeze || x.dummy
    case Unchanged => true
  }

  /** Whatever the step left on the board bears a time up to the freeze. */
  ghost predicate InTimeStep(b': Board, e: Step, freeze: int) {
    match e
    case Attempted(pre, a) => Closed(b'.tables, pre, a) ==> a.end <= freeze
    case Adjusted(x) => x.at <= freeze
    case Captured(x) => x.at <= freeze
    case Unchanged => true
  }

  /** Every read gives the same on both boards. */
  ghost predicate SameReads(b: Board, f: Option<int>, b': Board, f': Option<int>) {
    && (forall team, c :: ServiceScore(b.tables, f, team, c) == ServiceScore(b'.tables, f', team, c))
    && (forall team :: AdjustmentTotal(b, f, team) == AdjustmentTotal(b', f', team))
    && (forall team, user, root :: FlagPoints(b, f, team, user, root) == FlagPoints(b', f', team, user, root))
  }

  // ---- Reads of a stage ----

  lemma {:induction false} EndOfKept(rounds: seq<Round>, r: Round, id: int)
    requires r.id != id
    ensures EndOf(rounds + [r], id) == EndOf(rounds, id)
  {
    if rounds != [] {
      assert (rounds + [r])[1..] == rounds[1..] + [r] && (rounds + [r])[0] == rounds[0];
      EndOfKept(rounds[1..], r, id);
    }
  }

  lemma {:induction false} EndOfNew(rounds: seq<Round>, r: Round)
    requires forall x | x in rounds :: x.id != r.id
    ensures EndOf(rounds + [r], r.id) == r.end
  {
    if rounds != [] {
      assert (rounds + [r])[1..] == rounds[1..] + [r] && (rounds + [r])[0] == rounds[0];
      assert rounds[0] in rounds;
      EndOfNew(rounds[1..], r);
    }
  }

  lemma {:induction false} StageKeepsEnds(t: Tables, pre: Tables, a: Attempt, id: int)
    requires FreshAttempt(pre, a) && Stage(t, pre, a)
    ensures id != a.id ==> EndOf(t.rounds, id) == EndOf(pre.rounds, id)
    ensures Closed(t, pre, a) ==> EndOf(t.rounds, a.id) == Some(a.end)
  {
    if t.rounds != pre.rounds {
      var r := t.rounds[|pre.rounds|];
      assert t.rounds == pre.rounds + [r];
      if id != a.id {
        EndOfKept(pre.rounds, r, id);
      }
      EndOfNew(pre.rounds, r);
    }
  }

  predicate Shown(a: Attempt, freeze: Option<int>) { freeze.None? || a.end <= freeze.value }

  /** The rows a reader may see are the old ones and, once the round has landed in time, its own. */
  lemma StageRows(t: Tables, pre: Tables, a: Attempt, freeze: Option<int>)
    requires Linked(pre) && FreshAttempt(pre, a) && Stage(t, pre, a)
    ensures RowsAt(t, freeze) ==
            RowsAt(pre, freeze) + if Closed(t, pre, a) && Shown(a, freeze) then t.scores[|pre.scores|..] else []
  {
    OlderRounds(pre, a.id);
    forall row | row in pre.scores
      ensures InFreeze(t.rounds, freeze)(row) <==> InFreeze(pre.rounds, freeze)(row)
    {
      StageKeepsEnds(t, pre, a, row.round);
    }
    FilterSame(pre.scores, InFreeze(pre.rounds, freeze), InFreeze(t.rounds, freeze));
    if Closed(t, pre, a) {
      var rows := t.scores[|pre.scores|..];
      assert t.scores == pre.scores + rows;
      FilterAppend(pre.scores, rows, InFreeze(t.rounds, freeze));
      StageKeepsEnds(t, pre, a, a.id);
      if Shown(a, freeze) {
        FilterAll(rows, InFreeze(t.rounds, freeze));
      } else {
        FilterNone(rows, InFreeze(t.rounds, freeze));
      }
    }
  }

  /** A round's rows are worth what its checks earned, truncated once. */
  lemma {:induction false} RowsValue(rows: seq<RoundScore>, a: Attempt, team: int, c: Config)
    requires RowsMatch(rows, a)
    ensures Sum(rows, TeamRow(team, c)) == ApplyDynamic(a.number, Earned(a, team), c)
  {
    assert Sum(rows, RowPoints(a.id, team)) == Earned(a, team);
    if i :| 0 <= i < |rows| && rows[i].team == team {
      forall j | 0 <= j < |rows| && j != i ensures rows[j].team != team {
        assert if i < j then DifferentKey(rows[i], rows[j]) else DifferentKey(rows[j], rows[i]);
        assert rows[i] in rows && rows[j] in rows;
      }
      assert rows[i] in rows;
      SumSingle(rows, i, TeamRow(team, c));
      SumSingle(rows, i, RowPoints(a.id, team));
    } else {
      forall row | row in rows ensures row.team != team {
        var i :| 0 <= i < |rows| && rows[i] == row;
      }
      SumZero(rows, TeamRow(team, c));
      SumZero(rows, RowPoints(a.id, team));
      ApplyZero(a.number, c);
    }
  }

  /** What an attempt adds to a team's total under a freeze. */
  ghost function Gain(t: Tables, pre: Tables, a: Attempt, freeze: Option<int>, team: int, c: Config): int {
    if Closed(t, pre, a) && Shown(a, freeze) then ApplyDynamic(a.number, Earned(a, team), c) else 0
  }

  lemma StageScore(t: Tables, pre: Tables, a: Attempt, freeze: Option<int>, team: int, c: Config)
    requires Linked(pre) && FreshAttempt(pre, a) && Stage(t, pre, a)
    ensures ServiceScore(t, freeze, team, c) == ServiceScore(pre, freeze, team, c) + Gain(t, pre, a, freeze, team, c)
  {
    StageRows(t, pre, a, freeze);
    var rows := if Closed(t, pre, a) && Shown(a, freeze) then t.scores[|pre.scores|..] else [];
    SumAppend(RowsAt(pre, freeze), rows, TeamRow(team, c));
    if rows != [] || (Closed(t, pre, a) && Shown(a, freeze)) {
      RowsValue(rows, a, team, c);
    }
  }

  // ---- One step under a freeze ----

  const PLAIN := Config(false, 0, 0, 0, Additive, false, false, 0, 1.0, 0, 1.0)

  lemma RoundStepExactly(t: Tables, u: Tables, pre: Tables, a: Attempt, freeze: int)
    requires RoundStep(t, u, pre, a)
    ensures (Closed(t, pre, a) <==> Closed(u, pre, a)) || a.end > freeze || EarnsNothing(a) <==>
            forall team, c :: ServiceScore(t, Some(freeze), team, c) == ServiceScore(u, Some(freeze), team, c)
  {
    forall team, c
      ensures ServiceScore(u, Some(freeze), team, c) - ServiceScore(t, Some(freeze), team, c) ==
              Gain(u, pre, a, Some(freeze), team, c) - Gain(t, pre, a, Some(freeze), team, c)
    {
      StageScore(t, pre, a, Some(freeze), team, c);
      StageScore(u, pre, a, Some(freeze), team, c);
    }
    if EarnsNothing(a) {
      forall team, c ensures ApplyDynamic(a.number, Earned(a, team), c) == 0 {
        ApplyZero(a.number, c);
      }
    } else {
      var team :| Earned(a, team) != 0;
      ApplyPlain(a.number, Earned(a, team), PLAIN);
      assert ServiceScore(u, Some(freeze), team, PLAIN) - ServiceScore(t, Some(freeze), team, PLAIN) ==
             Gain(u, pre, a, Some(freeze), team, PLAIN) - Gain(t, pre, a, Some(freeze), team, PLAIN);
    }
  }

  lemma AdjustedExactly(b: Board, b': Board, x: Adjustment, freeze: int)
    requires b' == b.(adjustments := b.adjustments + [x])
    ensures x.at > freeze || x.points == 0 <==>
            forall team :: AdjustmentTotal(b, Some(freeze), team) == AdjustmentTotal(b', Some(freeze), team)
  {
    FilterAppend(b.adjustments, [x], InTime(Some(freeze)));
    var kept := Filter(b.adjustments, InTime(Some(freeze)));
    assert [x][1..] == [];
    assert Filter([x], InTime(Some(freeze))) == if x.at <= freeze then [x] else [];
    forall team
      ensures AdjustmentTotal(b', Some(freeze), team) ==
              AdjustmentTotal(b, Some(freeze), team) + if x.at <= freeze then AdjustmentOf(team)(x) else 0
    {
      SumSnoc(kept, x, AdjustmentOf(team));
      assert kept + [] == kept;
    }
    assert AdjustmentTotal(b', Some(freeze), x.team) ==
           AdjustmentTotal(b, Some(freeze), x.team) + if x.at <= freeze then x.points else 0;
  }

  lemma CapturedExactly(b: Board, b': Board, x: Solve, freeze: int)
    requires b' == b.(solves := b.solves + [x])
    ensures x.at > freeze || x.dummy <==>
            forall team, user, root :: FlagPoints(b, Some(freeze), team, user, root) ==
                                       FlagPoints(b', Some(freeze), team, user, root)
  {
    FilterAppend(b.solves, [x], Counted(Some(freeze)));
    var kept := Filter(b.solves, Counted(Some(freeze)));
    assert [x][1..] == [];
    assert Filter([x], Counted(Some(freeze))) == if Counted(Some(freeze))(x) then [x] else [];
    forall team, user, root
      ensures FlagPoints(b', Some(freeze), team, user, root) ==
              FlagPoints(b, Some(freeze), team, user, root)
              + if Counted(Some(freeze))(x) then FlagPointsOf(team, user, root)(x) else 0
    {
      SumSnoc(kept, x, FlagPointsOf(team, user, root));
      assert kept + [] == kept;
    }
    assert FlagPoints(b', Some(freeze), x.team, 1, 1) ==
           FlagPoints(b, Some(freeze), x.team, 1, 1) + if Counted(Some(freeze))(x) then 1 else 0;
  }

  /** A step leaves every frozen read alone exactly when it is punctual. */
  lemma PunctualExactly(b: Board, b': Board, e: Step, freeze: int)
    requires StepHolds(b, b', e)
    ensures Punctual(b, b', e, freeze) <==> SameReads(b, Some(freeze), b', Some(freeze))
  {
    match e
    case Attempted(pre, a) => RoundStepExactly(b.tables, b'.tables, pre, a, freeze);
    case Adjusted(x) => AdjustedExactly(b, b', x, freeze);
    case Captured(x) => CapturedExactly(b, b', x, freeze);
    case Unchanged =>
  }

  // ---- The snapshot ----

  /** The score row `row` belongs to a round that ended by `clock`. */
  predicate RowRecorded(t: Tables, row: RoundScore, clock: int) {
    EndOf(t.rounds, row.round).Some? && EndOf(t.rounds, row.round).value <= clock
  }

  /** Everything already on the board happened by `clock`, and its rows belong to closed rounds. */
  ghost predicate Recorded(b: Board, clock: int) {
    && (forall row | row in b.tables.scores :: RowRecorded(b.tables, row, clock))
    && (forall a | a in b.adjustments :: a.at <= clock)
    && (forall s | s in b.solves :: s.at <= clock)
  }

  /** Nothing on the board is later than the freeze: the frozen reads are the live ones. */
  lemma FrozenIsLive(b: Board, freeze: int)
    requires Recorded(b, freeze)
    ensures SameReads(b, Some(freeze), b, None)
  {
    FilterSame(b.tables.scores, InFreeze(b.tables.rounds, Some(freeze)), InFreeze(b.tables.rounds, None));
    FilterSame(b.adjustments, InTime(Some(freeze)), InTime(None));
    FilterSame(b.solves, Counted(Some(freeze)), Counted(None));
  }

  lemma RowStaysRecorded(t: Tables, u: Tables, pre: Tables, a: Attempt, row: RoundScore, clock: int)
    requires RoundStep(t, u, pre, a) && row.round != a.id && RowRecorded(t, row, clock)
    ensures RowRecorded(u, row, clock)
  {
    StageKeepsEnds(u, pre, a, row.round);
    StageKeepsEnds(t, pre, a, row.round);
  }

  lemma NewRowRecorded(u: Tables, pre: Tables, a: Attempt, row: RoundScore, clock: int)
    requires FreshAttempt(pre, a) && Stage(u, pre, a) && row in u.scores && row !in pre.scores
    requires Closed(u, pre, a) ==> a.end <= clock
    ensures RowRecorded(u, row, clock)
  {
    StageKeepsEnds(u, pre, a, row.round);
    assert u.scores == pre.scores + u.scores[|pre.scores|..];
  }

  lemma RecordedAfter(b: Board, b': Board, e: Step, clock: int)
    requires Recorded(b, clock) && StepHolds(b, b', e) && InTimeStep(b', e, clock)
    ensures Recorded(b', clock)
  {
    if e.Attempted? {
      var t, u, pre, a := b.tables, b'.tables, e.pre, e.a;
      OlderRounds(pre, a.id);
      forall row | row in u.scores ensures RowRecorded(u, row, clock) {
        if row in pre.scores {
          RowStaysRecorded(t, u, pre, a, row, clock);
        } else {
          NewRowRecorded(u, pre, a, row, clock);
        }
      }
    }
  }

  lemma {:induction false} RecordedInTime(boards: seq<Board>, steps: seq<Step>, k: nat, clock: int)
    requires History(boards, steps) && k <= |steps| && Recorded(boards[0], clock)
    requires forall i | 0 <= i < k :: InTimeStep(boards[i + 1], steps[i], clock)
    ensures Recorded(boards[k], clock)
  {
    if k > 0 {
      RecordedInTime(boards, steps, k - 1, clock);
      assert StepHolds(boards[k - 1], boards[k - 1 + 1], steps[k - 1]);
      assert InTimeStep(boards[k - 1 + 1], steps[k - 1], clock);
      RecordedAfter(boards[k - 1], boards[k], steps[k - 1], clock);
    }
  }

  /** Step `i` is punctual. */
  ghost predicate PunctualAt(boards: seq<Board>, steps: seq<Step>, i: nat, freeze: int)
    requires |boards| == |steps| + 1 && i < |steps|
  {
    Punctual(boards[i], boards[i + 1], steps[i], freeze)
  }

  lemma SameReadsChain(b: Board, f: Option<int>, b': Board, f': Option<int>, b'': Board, f'': Option<int>)
    requires SameReads(b, f, b', f') && SameReads(b', f', b'', f'')
    ensures SameReads(b, f, b'', f'') && SameReads(b', f', b, f)
  {
  }

  /** Step `i` changes no frozen read. */
  ghost predicate KeptAt(boards: seq<Board>, i: nat, freeze: int)
    requires i + 1 < |boards|
  {
    SameReads(boards[i], Some(freeze), boards[i + 1], Some(freeze))
  }

  lemma {:induction false} KeptThroughout(boards: seq<Board>, k: nat, j: nat, freeze: int)
    requires k <= j < |boards| && forall i | k <= i < j :: KeptAt(boards, i, freeze)
    ensures SameReads(boards[k], Some(freeze), boards[j], Some(freeze))
    decreases j
  {
    if j > k {
      KeptThroughout(boards, k, j - 1, freeze);
      assert KeptAt(boards, j - 1, freeze);
      SameReadsChain(boards[k], Some(freeze), boards[j - 1], Some(freeze), boards[j], Some(freeze));
    }
  }

  lemma PunctualIsKept(boards: seq<Board>, steps: seq<Step>, i: nat, freeze: int)
    requires History(boards, steps) && i < |steps| && PunctualAt(boards, steps, i, freeze)
    ensures KeptAt(boards, i, freeze)
  {
    assert StepHolds(boards[i], boards[i + 1], steps[i]);
    PunctualExactly(boards[i], boards[i + 1], steps[i], freeze);
  }

  lemma PunctualStepsKeepReads(boards: seq<Board>, steps: seq<Step>, k: nat, j: nat, freeze: int)
    requires History(boards, steps) && k <= j <= |steps|
    requires forall i | k <= i < |steps| :: PunctualAt(boards, steps, i, freeze)
    ensures SameReads(boards[k], Some(freeze), boards[j], Some(freeze))
  {
    forall i | k <= i < j ensures KeptAt(boards, i, freeze) {
      PunctualIsKept(boards, steps, i, freeze);
    }
    KeptThroughout(boards, k, j, freeze);
  }

  /**
   The frozen view is a snapshot. The states up to `boards[k]` are those of the freeze
   instant and before. In every later state each frozen read gives the live value of
   `boards[k]`, if and only if from then on nothing of worth that bears a time up to the
   freeze lands, is discarded, or is recorded.
   */
  lemma FrozenViewIsSnapshot(boards: seq<Board>, steps: seq<Step>, k: nat, freeze: int)
    requires History(boards, steps) && k <= |steps| && Recorded(boards[0], freeze)
    requires forall i | 0 <= i < k :: InTimeStep(boards[i + 1], steps[i], freeze)
    ensures (forall j | k <= j <= |steps| :: SameReads(boards[j], Some(freeze), boards[k], None)) <==>
            (forall i | k <= i < |steps| :: PunctualAt(boards, steps, i, freeze))
  {
    RecordedInTime(boards, steps, k, freeze);
    FrozenIsLive(boards[k], freeze);
    if forall i | k <= i < |steps| :: PunctualAt(boards, steps, i, freeze) {
      forall j | k <= j <= |steps| ensures SameReads(boards[j], Some(freeze), boards[k], None) {
        PunctualStepsKeepReads(boards, steps, k, j, freeze);
        assert SameReads(boards[j], Some(freeze), boards[k], Some(freeze));
        SameReadsChain(boards[j], Some(freeze), boards[k], Some(freeze), boards[k], None);
      }
    }
    if forall j | k <= j <= |steps| :: SameReads(boards[j], Some(freeze), boards[k], None) {
      forall i | k <= i < |steps| ensures PunctualAt(boards, steps, i, freeze) {
        assert SameReads(boards[i], Some(freeze), boards[k], None);
        assert SameReads(boards[i + 1], Some(freeze), boards[k], None);
        assert StepHolds(boards[i], boards[i + 1], steps[i]);
        PunctualExactly(boards[i], boards[i + 1], steps[i], freeze);
      }
    }
  }

  /**
   A round ends at the freeze instant and lands, the commit raises, and cleaning up deletes
   it: the live board of that instant had shown 100 points which the frozen one never shows.
   */
  lemma DiscardAfterFreezeShows()
    ensures var services := [Service(1, 1, 100)];
            var a := Attempt(services, 1, 1, 0, 5, [Check(1, 1, true, true)]);
            var pre := Tables([], [], [], map[], []);
            var t := Tables([Round(1, 1, 0, Some(5))], a.checks, [RoundScore(1, 1, 1, 100)], map[], [Kb(TASK_IDS, 1)]);
            && Consistent(pre, services) && Consistent(t, services)
            && RoundStep(pre, t, pre, a) && RoundStep(t, CleanedUp(t, 1), pre, a)
            && ServiceScore(t, None, 1, PLAIN) == 100
            && ServiceScore(CleanedUp(t, 1), Some(5), 1, PLAIN) == 0
            && ServiceScore(pre, None, 1, PLAIN) == 0
            && ServiceScore(t, Some(5), 1, PLAIN) == 100
  {
    var services := [Service(1, 1, 100)];
    var a := Attempt(services, 1, 1, 0, 5, [Check(1, 1, true, true)]);
    var pre := Tables([], [], [], map[], []);
    var t := Tables([Round(1, 1, 0, Some(5))], a.checks, [RoundScore(1, 1, 1, 100)], map[], [Kb(TASK_IDS, 1)]);
    OneRound(t, pre, a);
    StagesAreConsistent(t, pre, a);
    CleanupRestores(t, pre, a);
    StageScore(t, pre, a, None, 1, PLAIN);
    StageScore(t, pre, a, Some(5), 1, PLAIN);
    StageScore(CleanedUp(t, 1), pre, a, Some(5), 1, PLAIN);
    ApplyPlain(1, 100, PLAIN);
  }

  lemma OneRound(t: Tables, pre: Tables, a: Attempt)
    requires a == Attempt([Service(1, 1, 100)], 1, 1, 0, 5, [Check(1, 1, true, true)])
    requires pre == Tables([], [], [], map[], [])
    requires t == Tables([Round(1, 1, 0, Some(5))], a.checks, [RoundScore(1, 1, 1, 100)], map[], [Kb(TASK_IDS, 1)])
    ensures Consistent(pre, a.services) && FreshAttempt(pre, a) && Closed(t, pre, a)
    ensures Earned(a, 1) == 100
  {
    OneRow(a);
    assert t.scores[|pre.scores|..] == [RoundScore(1, 1, 1, 100)];
    assert Sum([RoundScore(1, 1, 1, 100)], RowPoints(1, 1))
        == 100 + Sum([RoundScore(1, 1, 1, 100)][1..], RowPoints(1, 1));
  }

  lemma OneRow(a: Attempt)
    requires a == Attempt([Service(1, 1, 100)], 1, 1, 0, 5, [Check(1, 1, true, true)])
    ensures RowsMatch([RoundScore(1, 1, 1, 100)], a)
  {
    var row, check := RoundScore(1, 1, 1, 100), Check(1, 1, true, true);
    forall team ensures Sum([row], RowPoints(1, team)) == Sum([check], CheckPoints(a.services, 1, team)) {
      SumSnoc([], row, RowPoints(1, team));
      SumSnoc([], check, CheckPoints(a.services, 1, team));
      assert [] + [row] == [row] && [] + [check] == [check];
    }
  }
}
