/**
 Consecutive failures of a service: the batched definition over the checks table,
 the backward scan over its rows, and how both react to new and deleted checks.
 */
module Streaks {
  import opened Sums
  import opened Store

  predicate Passed(c: Check, service: int) {
    c.service == service && c.completed && c.result
  }

  predicate Failed(c: Check, service: int) {
    c.service == service && c.completed && !c.result
  }

  ghost predicate AnyPass(checks: seq<Check>, service: int) {
    exists c :: c in checks && Passed(c, service)
  }

  /** Greatest round id in which the service passed: the `last_pass` subquery. */
  function LastPass(checks: seq<Check>, service: int): Option<int> {
    if checks == [] then None
    else
      var rest := LastPass(checks[1..], service);
      if Passed(checks[0], service) && (rest.None? || checks[0].round >= rest.value)
      then Some(checks[0].round)
      else rest
  }

  ghost predicate IsLastPass(checks: seq<Check>, service: int, r: Option<int>) {
    && (r.None? ==> !AnyPass(checks, service))
    && (r.Some? ==> forall c | c in checks && Passed(c, service) :: c.round <= r.value)
    && (r.Some? ==> exists c :: c in checks && Passed(c, service) && c.round == r.value)
  }

  lemma {:induction false} LastPassIs(checks: seq<Check>, service: int)
    ensures IsLastPass(checks, service, LastPass(checks, service))
  {
    if checks != [] {
      LastPassIs(checks[1..], service);
      assert checks == [checks[0]] + checks[1..];
      var rest := LastPass(checks[1..], service);
      if Passed(checks[0], service) && (rest.None? || checks[0].round >= rest.value) {
        assert checks[0] in checks;
      } else if rest.Some? {
        var c :| c in checks[1..] && Passed(c, service) && c.round == rest.value;
        assert c in checks;
      }
    }
  }

  lemma {:induction false} LastPassUnique(checks: seq<Check>, service: int, r: Option<int>)
    requires IsLastPass(checks, service, r)
    ensures LastPass(checks, service) == r
  {
    LastPassIs(checks, service);
  }

  function CountedFailure(service: int, lastPass: Option<int>): Check -> int {
    (c: Check) => if Failed(c, service) && (lastPass.None? || c.round > lastPass.value) then 1 else 0
  }

  function AnyFailure(service: int): Check -> int {
    (c: Check) => if Failed(c, service) then 1 else 0
  }

  /** Completed failures in the rounds after the last passing round. */
  function TrailingFailures(checks: seq<Check>, service: int): int {
    Sum(checks, CountedFailure(service, LastPass(checks, service)))
  }

  function Failures(checks: seq<Check>, service: int): int {
    Sum(checks, AnyFailure(service))
  }

  lemma TrailingFailuresNonNegative(checks: seq<Check>, service: int)
    ensures 0 <= TrailingFailures(checks, service) <= Failures(checks, service)
  {
    SumNonNegative(checks, CountedFailure(service, LastPass(checks, service)));
    SumLe(checks, CountedFailure(service, LastPass(checks, service)), AnyFailure(service));
  }

  /** Splitting the history at a point in time: only the later part matters once it holds a pass. */
  lemma SplitHistory(before: seq<Check>, after: seq<Check>, service: int)
    requires forall a, b | a in before && b in after :: a.round < b.round
    ensures TrailingFailures(before + after, service) ==
            if AnyPass(after, service) then TrailingFailures(after, service)
            else TrailingFailures(before, service) + Failures(after, service)
  {
    LastPassSplit(before, after, service);
    var last := LastPass(before + after, service);
    SumAppend(before, after, CountedFailure(service, last));
    LastPassIs(after, service);
    LastPassIs(before, service);
    if AnyPass(after, service) {
      SumZero(before, CountedFailure(service, last));
    } else {
      forall c | c in after ensures CountedFailure(service, last)(c) == AnyFailure(service)(c) {
      }
      SumEq(after, CountedFailure(service, last), AnyFailure(service));
    }
  }

  lemma {:induction false} LastPassSplit(before: seq<Check>, after: seq<Check>, service: int)
    requires forall a, b | a in before && b in after :: a.round < b.round
    ensures LastPass(before + after, service) ==
            if AnyPass(after, service) then LastPass(after, service) else LastPass(before, service)
  {
    var part := if AnyPass(after, service) then after else before;
    LastPassIs(part, service);
    var last := LastPass(part, service);
    if last.Some? {
      var c :| c in part && Passed(c, service) && c.round == last.value;
      assert c in before + after;
    }
    LastPassUnique(before + after, service, last);
  }

  /** A round closes: a pass resets the streak, otherwise every failing check extends it. */
  lemma CloseStreak(before: seq<Check>, added: seq<Check>, service: int, round: int)
    requires forall c | c in before :: c.round < round
    requires forall c | c in added :: c.round == round
    ensures TrailingFailures(before + added, service) ==
            if AnyPass(added, service) then 0
            else TrailingFailures(before, service) + Failures(added, service)
  {
    SplitHistory(before, added, service);
    LastPassIs(added, service);
    if AnyPass(added, service) {
      SumZero(added, CountedFailure(service, LastPass(added, service)));
    }
  }

  /** Deleting other services' checks leaves a streak alone. */
  lemma {:induction false} DeleteUntouched(checks: seq<Check>, keep: Check -> bool, service: int)
    requires forall c | c in checks && c.service == service :: keep(c)
    ensures TrailingFailures(Filter(checks, keep), service) == TrailingFailures(checks, service)
  {
    var kept := Filter(checks, keep);
    var last := LastPass(checks, service);
    LastPassPermutation(kept, checks, service);
    SumFilter(checks, keep, CountedFailure(service, last));
    SumEq(checks, Masked(keep, CountedFailure(service, last)), CountedFailure(service, last));
  }

  // ---- The backward scan ----

  predicate NewestFirst(a: Check, b: Check) { a.round >= b.round }

  function OfService(service: int): Check -> bool {
    (c: Check) => c.service == service && c.completed
  }

  /** A result of the scan's query: the completed checks of the service, newest round first. */
  ghost predicate QueryResult(rows: seq<Check>, checks: seq<Check>, service: int) {
    && multiset(rows) == multiset(Filter(checks, OfService(service)))
    && Pairwise(rows, NewestFirst)
  }

  function LeadingFailures(rows: seq<Check>): nat {
    if rows == [] || rows[0].result then 0 else 1 + LeadingFailures(rows[1..])
  }

  /** The loop of `get_consecutive_failures` over the rows of its query. */
  method GetConsecutiveFailures(rows: seq<Check>) returns (consecutive: nat)
    ensures consecutive == LeadingFailures(rows)
  {
    consecutive := 0;
    var i := 0;
    while i < |rows|
      invariant 0 <= i <= |rows|
      invariant consecutive + LeadingFailures(rows[i..]) == LeadingFailures(rows)
    {
      assert rows[i..][0] == rows[i] && rows[i..][1..] == rows[i + 1..];
      if rows[i].result {
        break;
      }
      consecutive := consecutive + 1;
      i := i + 1;
    }
  }

  /** The last passing round of the service also holds a failing check of it. */
  ghost predicate MixedLastPass(checks: seq<Check>, service: int) {
    var last := LastPass(checks, service);
    last.Some? && exists c :: c in checks && Failed(c, service) && c.round == last.value
  }

  lemma {:induction false} LastPassPermutation(a: seq<Check>, b: seq<Check>, service: int)
    requires forall c | Passed(c, service) :: c in a <==> c in b
    ensures LastPass(a, service) == LastPass(b, service)
  {
    LastPassIs(a, service);
    LastPassUnique(b, service, LastPass(a, service));
  }

  /** The rows of the query determine the batched count as well as the table does. */
  lemma {:induction false} QueryKeepsCount(rows: seq<Check>, checks: seq<Check>, service: int)
    requires multiset(rows) == multiset(Filter(checks, OfService(service)))
    ensures TrailingFailures(rows, service) == TrailingFailures(checks, service)
    ensures LastPass(rows, service) == LastPass(checks, service)
    ensures forall c :: c in rows <==> c in checks && c.service == service && c.completed
  {
    var kept := Filter(checks, OfService(service));
    assert forall c :: c in rows <==> c in multiset(rows);
    assert forall c :: c in kept <==> c in multiset(kept);
    LastPassPermutation(rows, checks, service);
    LastPassPermutation(rows, kept, service);
    var counted := CountedFailure(service, LastPass(checks, service));
    SumPermutation(rows, kept, counted);
    SumFilter(checks, OfService(service), counted);
    SumEq(checks, Masked(OfService(service), counted), counted);
  }

  lemma HeadIsNewest(rows: seq<Check>)
    requires rows != [] && Pairwise(rows, NewestFirst)
    ensures Pairwise(rows[1..], NewestFirst)
    ensures forall c | c in rows :: c.round <= rows[0].round
  {
    forall c | c in rows ensures c.round <= rows[0].round {
      var i :| 0 <= i < |rows| && rows[i] == c;
      assert i == 0 || NewestFirst(rows[0], rows[i]);
    }
  }

  function FailureIn(service: int, round: int): Check -> int {
    (c: Check) => if Failed(c, service) && c.round == round then 1 else 0
  }

  /** Failures the last passing round holds beside its pass. */
  function LastPassFailures(checks: seq<Check>, service: int): int {
    var last := LastPass(checks, service);
    if last.None? then 0 else Sum(checks, FailureIn(service, last.value))
  }

  lemma LastPassFailuresPositive(checks: seq<Check>, service: int)
    ensures LastPassFailures(checks, service) >= 0
    ensures MixedLastPass(checks, service) <==> LastPassFailures(checks, service) > 0
  {
    var last := LastPass(checks, service);
    if last.Some? {
      SumNonNegative(checks, FailureIn(service, last.value));
      if MixedLastPass(checks, service) {
        var c :| c in checks && Failed(c, service) && c.round == last.value;
        assert FailureIn(service, last.value)(c) == 1;
      } else {
        SumZero(checks, FailureIn(service, last.value));
      }
    }
  }

  /** A failure in front counts once: among the trailing ones, or among those of the last passing round. */
  lemma {:induction false} PeelFailure(rows: seq<Check>, service: int)
    requires rows != [] && Failed(rows[0], service) && Pairwise(rows, NewestFirst)
    ensures var rest, last := rows[1..], LastPass(rows, service);
            && LastPass(rest, service) == last
            && (last.Some? ==> rows[0].round >= last.value)
            && (var trails := if last.None? || rows[0].round > last.value then 1 else 0;
                && TrailingFailures(rows, service) == trails + TrailingFailures(rest, service)
                && LastPassFailures(rows, service) == (1 - trails) + LastPassFailures(rest, service))
  {
    HeadIsNewest(rows);
    LastPassIs(rows, service);
  }

  /** A pass in front ends the scan, and nothing trails it. */
  lemma {:induction false} PassLeads(rows: seq<Check>, service: int)
    requires rows != [] && Passed(rows[0], service) && Pairwise(rows, NewestFirst)
    ensures LastPass(rows, service) == Some(rows[0].round)
    ensures TrailingFailures(rows, service) == 0
  {
    HeadIsNewest(rows);
    LastPassIs(rows, service);
    SumZero(rows, CountedFailure(service, LastPass(rows, service)));
  }

  /** Newest first, the scan sees all the trailing failures, and possibly some of the last passing round. */
  lemma {:induction false} ScanBounds(rows: seq<Check>, service: int)
    requires forall c | c in rows :: c.service == service && c.completed
    requires Pairwise(rows, NewestFirst)
    ensures TrailingFailures(rows, service) <= LeadingFailures(rows)
    ensures LeadingFailures(rows) <= TrailingFailures(rows, service) + LastPassFailures(rows, service)
  {
    if rows != [] {
      if rows[0].result {
        PassLeads(rows, service);
        LastPassFailuresPositive(rows, service);
      } else {
        PeelFailure(rows, service);
        HeadIsNewest(rows);
        ScanBounds(rows[1..], service);
      }
    }
  }

  /** Two orders the query may return: newest round first, and inside a round the failures first, or the passes. */
  predicate FailuresLead(a: Check, b: Check) { a.round > b.round || (a.round == b.round && (a.result ==> b.result)) }

  predicate PassesLead(a: Check, b: Check) { a.round > b.round || (a.round == b.round && (b.result ==> a.result)) }

  lemma BothArePreorders()
    ensures TotalPreorder(FailuresLead) && TotalPreorder(PassesLead)
  {
  }

  /** With failures first, the scan counts every failure of the last passing round as well. */
  lemma {:induction false} FailuresFirstScan(rows: seq<Check>, service: int)
    requires forall c | c in rows :: c.service == service && c.completed
    requires Pairwise(rows, FailuresLead)
    ensures LeadingFailures(rows) == TrailingFailures(rows, service) + LastPassFailures(rows, service)
  {
    if rows != [] {
      assert forall i, j | 0 <= i < j < |rows| :: FailuresLead(rows[i], rows[j]);
      assert Pairwise(rows, NewestFirst);
      if rows[0].result {
        PassLeads(rows, service);
        PairwiseTail(rows, FailuresLead);
        forall c | c in rows ensures FailureIn(service, rows[0].round)(c) == 0 {
          assert c == rows[0] || c in rows[1..];
        }
        SumZero(rows, FailureIn(service, rows[0].round));
      } else {
        PeelFailure(rows, service);
        PairwiseTail(rows, FailuresLead);
        FailuresFirstScan(rows[1..], service);
      }
    }
  }

  /** With passes first, it counts none of them. */
  lemma {:induction false} PassesFirstScan(rows: seq<Check>, service: int)
    requires forall c | c in rows :: c.service == service && c.completed
    requires Pairwise(rows, PassesLead)
    ensures LeadingFailures(rows) == TrailingFailures(rows, service)
  {
    if rows != [] {
      assert forall i, j | 0 <= i < j < |rows| :: PassesLead(rows[i], rows[j]);
      assert Pairwise(rows, NewestFirst);
      PairwiseTail(rows, PassesLead);
      if rows[0].result {
        PassLeads(rows, service);
      } else {
        PeelFailure(rows, service);
        LastPassIs(rows, service);
        PassesFirstScan(rows[1..], service);
      }
    }
  }

  lemma {:induction false} SortedIsResult(checks: seq<Check>, service: int, lead: (Check, Check) -> bool)
    requires TotalPreorder(lead) && forall a, b | lead(a, b) :: a.round >= b.round
    ensures var rows := SortBy(Filter(checks, OfService(service)), lead);
            Pairwise(rows, lead) && QueryResult(rows, checks, service)
  {
    var kept := Filter(checks, OfService(service));
    SortBySorts(kept, lead);
    var rows := SortBy(kept, lead);
    forall i, j | 0 <= i < j < |rows| ensures NewestFirst(rows[i], rows[j]) {
      assert lead(rows[i], rows[j]);
    }
  }

  lemma {:induction false} QueryKeepsLastPassFailures(rows: seq<Check>, checks: seq<Check>, service: int)
    requires multiset(rows) == multiset(Filter(checks, OfService(service)))
    ensures LastPassFailures(rows, service) == LastPassFailures(checks, service)
  {
    QueryKeepsCount(rows, checks, service);
    var last := LastPass(checks, service);
    if last.Some? {
      var weight := FailureIn(service, last.value);
      SumPermutation(rows, Filter(checks, OfService(service)), weight);
      SumFilter(checks, OfService(service), weight);
      SumEq(checks, Masked(OfService(service), weight), weight);
    }
  }

  lemma {:induction false} ScanWithin(rows: seq<Check>, checks: seq<Check>, service: int)
    requires QueryResult(rows, checks, service)
    ensures TrailingFailures(checks, service) <= LeadingFailures(rows)
    ensures LeadingFailures(rows) <= TrailingFailures(checks, service) + LastPassFailures(checks, service)
  {
    QueryKeepsCount(rows, checks, service);
    QueryKeepsLastPassFailures(rows, checks, service);
    ScanBounds(rows, service);
  }

  lemma ExtremeScans(checks: seq<Check>, service: int) returns (passes: seq<Check>, failures: seq<Check>)
    ensures QueryResult(passes, checks, service) && QueryResult(failures, checks, service)
    ensures LeadingFailures(passes) == TrailingFailures(checks, service)
    ensures LeadingFailures(failures) == TrailingFailures(checks, service) + LastPassFailures(checks, service)
  {
    BothArePreorders();
    failures := SortBy(Filter(checks, OfService(service)), FailuresLead);
    SortedIsResult(checks, service, FailuresLead);
    QueryKeepsCount(failures, checks, service);
    QueryKeepsLastPassFailures(failures, checks, service);
    FailuresFirstScan(failures, service);
    passes := SortBy(Filter(checks, OfService(service)), PassesLead);
    SortedIsResult(checks, service, PassesLead);
    QueryKeepsCount(passes, checks, service);
    PassesFirstScan(passes, service);
  }

  /**
   The scan has no tie-break inside a round. Over the orders its query may return, it
   ranges from the batched count up to that count plus the failures of the last passing
   round, and reaches both ends.
   */
  lemma ScanRange(checks: seq<Check>, service: int)
    ensures var least := TrailingFailures(checks, service);
            var most := least + LastPassFailures(checks, service);
            && (forall rows | QueryResult(rows, checks, service) :: least <= LeadingFailures(rows) <= most)
            && (exists rows :: QueryResult(rows, checks, service) && LeadingFailures(rows) == least)
            && (exists rows :: QueryResult(rows, checks, service) && LeadingFailures(rows) == most)
  {
    forall rows | QueryResult(rows, checks, service)
      ensures TrailingFailures(checks, service) <= LeadingFailures(rows)
      ensures LeadingFailures(rows) <= TrailingFailures(checks, service) + LastPassFailures(checks, service)
    {
      ScanWithin(rows, checks, service);
    }
    var passes, failures := ExtremeScans(checks, service);
  }

  /** Every order gives the batched count if and only if the last passing round holds no failure. */
  lemma ScanAgreesExactlyWhenUnmixed(checks: seq<Check>, service: int)
    ensures !MixedLastPass(checks, service) <==>
            forall rows | QueryResult(rows, checks, service) ::
              LeadingFailures(rows) == TrailingFailures(checks, service)
  {
    ScanRange(checks, service);
    LastPassFailuresPositive(checks, service);
  }

  /** One round with a pass and a failure of the same service: the batched count is 0, the scan may say 1. */
  lemma MixedRoundConfusesScan()
    ensures var pass, fail := Check(1, 1, true, true), Check(1, 1, false, true);
            && QueryResult([fail, pass], [pass, fail], 1)
            && TrailingFailures([pass, fail], 1) == 0
            && LeadingFailures([fail, pass]) == 1
  {
    var pass, fail := Check(1, 1, true, true), Check(1, 1, false, true);
    FilterAll([pass, fail], OfService(1));
    PassIsCounted([pass, fail], 1);
    assert LeadingFailures([pass]) == 0;
    assert [fail, pass][1..] == [pass];
  }

  /** A history of one round with a pass has no trailing failure. */
  lemma PassIsCounted(checks: seq<Check>, service: int)
    requires checks != [] && Passed(checks[0], service) && forall c | c in checks :: c.round == checks[0].round
    ensures TrailingFailures(checks, service) == 0
  {
    CloseStreak([], checks, service, checks[0].round);
    assert [] + checks == checks;
  }

  // ---- The longest streak ----

  predicate FailingSlice(rows: seq<Check>, i: int, j: int) {
    0 <= i <= j <= |rows| && forall k | i <= k < j :: !rows[k].result
  }

  /** The loop of `get_max_consecutive_failures` over the rows oldest first: the length of the longest failing slice. */
  method GetMaxConsecutiveFailures(rows: seq<Check>) returns (longest: int)
    ensures exists i, j :: FailingSlice(rows, i, j) && j - i == longest
    ensures forall i, j | FailingSlice(rows, i, j) :: j - i <= longest
  {
    longest := 0;
    var current, n := 0, 0;
    assert FailingSlice(rows, 0, 0);
    while n < |rows|
      invariant 0 <= current <= n <= |rows| && FailingSlice(rows, n - current, n)
      invariant current < n ==> rows[n - current - 1].result
      invariant exists i, j :: FailingSlice(rows, i, j) && j - i == longest
      invariant forall i, j | FailingSlice(rows, i, j) && j <= n :: j - i <= longest
    {
      if !rows[n].result {
        current := current + 1;
        assert FailingSlice(rows, n + 1 - current, n + 1);
        if current > longest {
          longest := current;
        }
      } else {
        current := 0;
      }
      n := n + 1;
    }
  }
}
