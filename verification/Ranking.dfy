/** Competition ranks: equal scores share a rank, and the next rank skips the tied places. */
module Ranking {
  import opened Sums
  import opened Store
  import opened Scores
  import opened Lifecycle
  import opened Sla
  import opened Totals
  import opened Reads

  datatype Item = Item(id: int, score: int)

  predicate Descending(a: Item, b: Item) { a.score >= b.score }

  predicate DifferentId(a: Item, b: Item) { a.id != b.id }

  function Higher(score: int): Item -> int { (x: Item) => if x.score > score then 1 else 0 }

  /** One more than the number of strictly better items. */
  function CompetitionRank(items: seq<Item>, score: int): int { 1 + Sum(items, Higher(score)) }

  lemma DescendingIsPreorder()
    ensures TotalPreorder(Descending)
  {
  }

  /** On a descending list, the items strictly above index `i` are those before the first of its score. */
  lemma HigherUpTo(items: seq<Item>, first: nat, i: nat)
    requires Pairwise(items, Descending) && first <= i < |items|
    requires forall k | first <= k <= i :: items[k].score == items[i].score
    requires first > 0 ==> items[first - 1].score > items[i].score
    ensures CompetitionRank(items, items[i].score) == first + 1
  {
    var score := items[i].score;
    assert items == items[..first] + items[first..];
    SumAppend(items[..first], items[first..], Higher(score));
    forall x | x in items[..first] ensures x.score > score {
      var k :| 0 <= k < first && items[k] == x;
      assert k == first - 1 || Descending(items[k], items[first - 1]);
    }
    AllHigher(items[..first], score);
    forall x | x in items[first..] ensures Higher(score)(x) == 0 {
      var k :| first <= k < |items| && items[k] == x;
      assert k <= i || Descending(items[i], items[k]);
    }
    SumZero(items[first..], Higher(score));
  }

  lemma {:induction false} AllHigher(items: seq<Item>, score: int)
    requires forall x | x in items :: x.score > score
    ensures Sum(items, Higher(score)) == |items|
  {
    if items != [] {
      AllHigher(items[1..], score);
    }
  }

  /** The loop state of both rank loops before index `i`: `rank` is where the current score group starts. */
  ghost predicate Leads(sorted: seq<Item>, rank: int, i: nat)
    requires i <= |sorted|
  {
    if i == 0 then rank == 1
    else
      && 1 <= rank <= i
      && (forall k | rank - 1 <= k < i :: sorted[k].score == sorted[i - 1].score)
      && (rank > 1 ==> sorted[rank - 2].score > sorted[i - 1].score)
  }

  function NextRank(sorted: seq<Item>, rank: int, i: nat): int
    requires i < |sorted|
  {
    if i > 0 && sorted[i].score < sorted[i - 1].score then i + 1 else rank
  }

  lemma RankStep(sorted: seq<Item>, rank: int, i: nat)
    requires i < |sorted| && Pairwise(sorted, Descending) && Leads(sorted, rank, i)
    ensures Leads(sorted, NextRank(sorted, rank, i), i + 1)
    ensures NextRank(sorted, rank, i) == CompetitionRank(sorted, sorted[i].score)
  {
    assert i > 0 ==> Descending(sorted[i - 1], sorted[i]);
    HigherUpTo(sorted, NextRank(sorted, rank, i) - 1, i);
  }

  /** Ranks do not depend on how ties were ordered. */
  lemma RankOfPermutation(a: seq<Item>, b: seq<Item>, score: int)
    requires multiset(a) == multiset(b)
    ensures CompetitionRank(a, score) == CompetitionRank(b, score)
  {
    SumPermutation(a, b, Higher(score));
  }

  ghost predicate HasItem(items: seq<Item>, id: int) { exists x :: x in items && x.id == id }

  ghost predicate RankedUpTo(ranks: map<int, int>, sorted: seq<Item>, i: nat)
    requires i <= |sorted|
  {
    && (forall id | id in ranks :: HasItem(sorted, id))
    && (forall k | 0 <= k < i :: RankedAt(ranks, sorted, k))
  }

  ghost predicate RankedAt(ranks: map<int, int>, sorted: seq<Item>, k: nat)
    requires k < |sorted|
  {
    sorted[k].id in ranks && ranks[sorted[k].id] == CompetitionRank(sorted, sorted[k].score)
  }

  lemma RankOneMore(ranks: map<int, int>, sorted: seq<Item>, i: nat, rank: int)
    requires i < |sorted| && Pairwise(sorted, DifferentId) && RankedUpTo(ranks, sorted, i)
    requires rank == CompetitionRank(sorted, sorted[i].score)
    ensures RankedUpTo(ranks[sorted[i].id := rank], sorted, i + 1)
  {
    var ranks' := ranks[sorted[i].id := rank];
    assert sorted[i] in sorted;
    forall k | 0 <= k < i + 1 ensures RankedAt(ranks', sorted, k) {
      if k < i {
        assert RankedAt(ranks, sorted, k) && DifferentId(sorted[k], sorted[i]);
      }
    }
  }

  method RankSorted(sorted: seq<Item>) returns (ranks: map<int, int>)
    requires Pairwise(sorted, Descending) && Pairwise(sorted, DifferentId)
    ensures RankedUpTo(ranks, sorted, |sorted|)
  {
    ranks := map[];
    var currentRank, i := 1, 0;
    while i < |sorted|
      invariant 0 <= i <= |sorted| && Leads(sorted, currentRank, i)
      invariant RankedUpTo(ranks, sorted, i)
    {
      RankStep(sorted, currentRank, i);
      currentRank := NextRank(sorted, currentRank, i);
      RankOneMore(ranks, sorted, i, currentRank);
      ranks := ranks[sorted[i].id := currentRank];
      i := i + 1;
    }
  }

  /** `calculate_ranks`: `items` are the entries of the score dictionary in any order. */
  method CalculateRanks(items: seq<Item>) returns (ranks: map<int, int>)
    requires Pairwise(items, DifferentId)
    ensures forall id | id in ranks :: HasItem(items, id)
    ensures forall x | x in items :: x.id in ranks && ranks[x.id] == CompetitionRank(items, x.score)
  {
    if items == [] { return map[]; }
    var sorted := SortBy(items, Descending);
    DescendingIsPreorder();
    SortBySorts(items, Descending);
    SameItems(sorted, items);
    ranks := RankSorted(sorted);
    forall x | x in items ensures x.id in ranks && ranks[x.id] == CompetitionRank(items, x.score) {
      var k :| 0 <= k < |sorted| && sorted[k] == x;
      assert RankedAt(ranks, sorted, k);
      RankOfPermutation(sorted, items, x.score);
    }
  }

  lemma SameItems(sorted: seq<Item>, items: seq<Item>)
    requires multiset(sorted) == multiset(items) && Pairwise(items, DifferentId)
    ensures forall x :: x in sorted <==> x in items
    ensures Pairwise(sorted, DifferentId)
  {
    assert forall x :: x in sorted <==> x in multiset(sorted);
    assert forall x :: x in items <==> x in multiset(items);
    forall i, j | 0 <= i < j < |sorted| ensures DifferentId(sorted[i], sorted[j]) {
      DistinctAfterSort(sorted, items, i, j);
    }
  }

  lemma DistinctAfterSort(sorted: seq<Item>, items: seq<Item>, i: nat, j: nat)
    requires multiset(sorted) == multiset(items) && Pairwise(items, DifferentId)
    requires i < j < |sorted|
    ensures sorted[i].id != sorted[j].id
  {
    var a, b := sorted[i], sorted[j];
    assert a in multiset(sorted) && b in multiset(sorted);
    var k :| 0 <= k < |items| && items[k] == a;
    var l :| 0 <= l < |items| && items[l] == b;
    if a == b {
      TwiceIn(sorted, i, j);
      OnceIn(items, k);
    } else {
      assert if k < l then DifferentId(items[k], items[l]) else DifferentId(items[l], items[k]);
    }
  }

  lemma TwiceIn(s: seq<Item>, i: nat, j: nat)
    requires i < j < |s| && s[i] == s[j]
    ensures multiset(s)[s[i]] >= 2
  {
    assert s == s[..i] + [s[i]] + s[i + 1..j] + [s[j]] + s[j + 1..];
  }

  lemma OnceIn(s: seq<Item>, k: nat)
    requires k < |s| && Pairwise(s, DifferentId)
    ensures multiset(s)[s[k]] == 1
  {
    assert s == s[..k] + [s[k]] + s[k + 1..];
    assert forall i | 0 <= i < k :: DifferentId(s[i], s[k]);
    assert forall i | k < i < |s| :: DifferentId(s[k], s[i]);
    assert s[k] !in s[..k] && s[k] !in s[k + 1..];
  }

  /** `_get_rank_from_scores` on a descending list; None is the source's default for a missing id. */
  method GetRankFromScores(sorted: seq<Item>, target: int) returns (rank: Option<int>, ghost at: int)
    requires Pairwise(sorted, Descending)
    ensures rank.None? ==> forall k | 0 <= k < |sorted| :: sorted[k].id != target
    ensures rank.Some? ==>
              0 <= at < |sorted| && sorted[at].id == target && rank.value == CompetitionRank(sorted, sorted[at].score)
  {
    var currentRank, i := 1, 0;
    while i < |sorted|
      invariant 0 <= i <= |sorted| && Leads(sorted, currentRank, i)
      invariant forall k | 0 <= k < i :: sorted[k].id != target
    {
      RankStep(sorted, currentRank, i);
      currentRank := NextRank(sorted, currentRank, i);
      if sorted[i].id == target { return Some(currentRank), i; }
      i := i + 1;
    }
    return None, 0;
  }

  // ---- Team.place ----

  /** Entries of the score dictionary for the listed teams; teams without an entry are skipped. */
  function ItemsFor(teams: seq<int>, scores: map<int, int>): seq<Item> {
    if teams == [] then []
    else (if teams[0] in scores then [Item(teams[0], scores[teams[0]])] else []) + ItemsFor(teams[1..], scores)
  }

  lemma SameIdSameItem(items: seq<Item>, i: int, j: int)
    requires Pairwise(items, DifferentId) && 0 <= i < |items|
    ensures 0 <= j < |items| && items[j].id == items[i].id ==> i == j
  {
  }

  /** `items` are the dictionary's entries in any order. A team without an entry is placed first. */
  method Place(items: seq<Item>, team: int) returns (place: int)
    requires Pairwise(items, DifferentId)
    ensures forall x | x in items && x.id == team :: place == CompetitionRank(items, x.score)
    ensures !HasItem(items, team) ==> place == 1
  {
    var sorted := SortBy(items, Descending);
    DescendingIsPreorder();
    SortBySorts(items, Descending);
    SameItems(sorted, items);
    var rank; ghost var at;
    rank, at := GetRankFromScores(sorted, team);
    forall x | x in items && x.id == team ensures rank == Some(CompetitionRank(items, x.score)) {
      var k :| 0 <= k < |sorted| && sorted[k] == x;
      SameIdSameItem(sorted, k, at);
      RankOfPermutation(sorted, items, x.score);
    }
    assert rank.Some? ==> sorted[at] in items;
    place := if rank.Some? then rank.value else 1;
  }

  function HigherTeam(scores: map<int, int>, score: int): int -> int {
    (team: int) => if Get(scores, team, 0) > score then 1 else 0
  }

  /** The team's rank among all teams, a missing entry counting as zero points. */
  function RankAmong(teams: seq<int>, scores: map<int, int>, team: int): int {
    1 + Sum(teams, HigherTeam(scores, Get(scores, team, 0)))
  }

  lemma {:induction false} HigherItemsAreHigherTeams(teams: seq<int>, scores: map<int, int>, score: int)
    requires score >= 0
    ensures Sum(ItemsFor(teams, scores), Higher(score)) == Sum(teams, HigherTeam(scores, score))
  {
    if teams != [] {
      HigherItemsAreHigherTeams(teams[1..], scores, score);
      var rest := ItemsFor(teams[1..], scores);
      if teams[0] in scores {
        SumAppend([Item(teams[0], scores[teams[0]])], rest, Higher(score));
        SumSnoc([], Item(teams[0], scores[teams[0]]), Higher(score));
      } else {
        assert ItemsFor(teams, scores) == rest;
        var team: int := teams[0];
        assert Get(scores, team, 0) == 0 && HigherTeam(scores, score)(team) == 0;
      }
    }
  }

  lemma {:induction false} ItemsForMembers(teams: seq<int>, scores: map<int, int>, x: Item)
    ensures x in ItemsFor(teams, scores) <==> x.id in teams && x.id in scores && x.score == scores[x.id]
  {
    if teams != [] {
      ItemsForMembers(teams[1..], scores, x);
      assert teams == [teams[0]] + teams[1..];
    }
  }

  lemma RowsArePositive(t: Tables, services: seq<Service>, row: RoundScore)
    requires ScoresMatch(t, services) && ValidServices(services) && row in t.scores
    ensures row.points > 0
  {
    RowHoldsRoundPoints(t, services, row);
    forall k | k in t.checks ensures CheckPoints(services, row.round, row.team)(k) >= 0 {
      assert Find(services, k.service).Some? ==> Find(services, k.service).value in services;
    }
    SumNonNegative(t.checks, CheckPoints(services, row.round, row.team));
  }

  /** A team with a row has an entry, and it is positive ... */
  lemma ScoredEntry(t: Tables, services: seq<Service>, row: RoundScore)
    requires ScoresMatch(t, services) && ValidServices(services) && row in t.scores
    ensures row.team in AllTeamServiceScores(t, None) && AllTeamServiceScores(t, None)[row.team] > 0
  {
    var team := row.team;
    FilterAll(t.scores, InFreeze(t.rounds, None));
    forall x | x in t.scores ensures RawRow(team)(x) >= 0 {
      RowsArePositive(t, services, x);
    }
    RowsArePositive(t, services, row);
    SumNonNegative(t.scores, RawRow(team));
    assert Sum(t.scores, RawRow(team)) >= RawRow(team)(row) == row.points;
    AllTeamServiceScoresTotal(t, None, team);
    assert row in RowsAt(t, None);
  }

  /** ... and only such a team has one. */
  lemma EntryHasRow(t: Tables, team: int)
    requires team in AllTeamServiceScores(t, None)
    ensures exists row :: row in t.scores && row.team == team
  {
    FilterAll(t.scores, InFreeze(t.rounds, None));
    assert team in TeamsOf(RowsAt(t, None));
  }

  lemma EntriesArePositive(t: Tables, services: seq<Service>, team: int)
    requires ScoresMatch(t, services) && ValidServices(services)
    ensures team in AllTeamServiceScores(t, None) ==> AllTeamServiceScores(t, None)[team] > 0
    ensures team in AllTeamServiceScores(t, None) <==> exists row :: row in t.scores && row.team == team
  {
    if team in AllTeamServiceScores(t, None) {
      EntryHasRow(t, team);
    }
    if row :| row in t.scores && row.team == team {
      ScoredEntry(t, services, row);
    }
  }

  /** The entry of a scoring team, in any order of the dictionary. */
  lemma {:induction false} ScoredRank(teams: seq<int>, scores: map<int, int>, team: int, items: seq<Item>)
    requires team in teams && multiset(items) == multiset(ItemsFor(teams, scores))
    ensures team in scores ==>
              && Item(team, scores[team]) in items
              && (scores[team] >= 0 ==> CompetitionRank(items, scores[team]) == RankAmong(teams, scores, team))
    ensures team !in scores ==> !HasItem(items, team)
  {
    var canonical := ItemsFor(teams, scores);
    forall x ensures x in items <==> x.id in teams && x.id in scores && x.score == scores[x.id] {
      ItemsForMembers(teams, scores, x);
      assert x in items <==> x in multiset(items);
      assert x in canonical <==> x in multiset(canonical);
    }
    if team in scores && scores[team] >= 0 {
      RankOfPermutation(items, canonical, scores[team]);
      HigherItemsAreHigherTeams(teams, scores, scores[team]);
    }
  }

  /**
   `Team.place` is the team's rank among all teams exactly when the team has scored or
   nobody has: a team without a score row is reported first.
   */
  lemma {:induction false} PlaceIsRankExactlyWhenScored(t: Tables, services: seq<Service>, teams: seq<int>, team: int,
                                                        items: seq<Item>, place: int)
    requires Sound(t, services) && ValidServices(services)
    requires team in teams && forall row | row in t.scores :: row.team in teams
    requires multiset(items) == multiset(ItemsFor(teams, AllTeamServiceScores(t, None)))
    requires forall x | x in items && x.id == team :: place == CompetitionRank(items, x.score)
    requires !HasItem(items, team) ==> place == 1
    ensures place == RankAmong(teams, AllTeamServiceScores(t, None), team) <==>
            (exists row :: row in t.scores && row.team == team) || t.scores == []
  {
    EntriesArePositive(t, services, team);
    ScoredRank(teams, AllTeamServiceScores(t, None), team, items);
    if team !in AllTeamServiceScores(t, None) {
      UnscoredRank(t, services, teams, team);
    }
  }

  lemma UnscoredRank(t: Tables, services: seq<Service>, teams: seq<int>, team: int)
    requires ScoresMatch(t, services) && ValidServices(services)
    requires forall row | row in t.scores :: row.team in teams
    requires team !in AllTeamServiceScores(t, None)
    ensures RankAmong(teams, AllTeamServiceScores(t, None), team) == 1 <==> t.scores == []
  {
    var scores := AllTeamServiceScores(t, None);
    SumNonNegative(teams, HigherTeam(scores, 0));
    if t.scores == [] {
      forall other | other in teams ensures HigherTeam(scores, 0)(other) == 0 {
        EntriesArePositive(t, services, other);
      }
      SumZero(teams, HigherTeam(scores, 0));
    } else {
      var row := t.scores[0];
      EntriesArePositive(t, services, row.team);
      assert HigherTeam(scores, 0)(row.team) == 1;
    }
  }

  /** One team has scored and the other has not. */
  function OneScored(): Tables {
    Tables([Round(1, 1, 0, Some(0))], [Check(1, 1, true, true)], [RoundScore(1, 1, 1, 100)], map[], [])
  }

  lemma OneScoredIsConsistent()
    ensures Consistent(OneScored(), [Service(1, 1, 100)])
  {
    assert OneScored().rounds[0] in OneScored().rounds;
    OneScoredMatches();
  }

  lemma OneScoredMatches()
    ensures ScoresMatch(OneScored(), [Service(1, 1, 100)])
  {
    var t, services := OneScored(), [Service(1, 1, 100)];
    forall id, team ensures Sum(t.scores, RowPoints(id, team)) == Sum(t.checks, CheckPoints(services, id, team)) {
      SumSnoc([], t.scores[0], RowPoints(id, team));
      SumSnoc([], t.checks[0], CheckPoints(services, id, team));
      assert [] + [t.scores[0]] == t.scores && [] + [t.checks[0]] == t.checks;
    }
  }

  lemma OneScoredEntries()
    ensures 1 in AllTeamServiceScores(OneScored(), None) && AllTeamServiceScores(OneScored(), None)[1] > 0
    ensures 2 !in AllTeamServiceScores(OneScored(), None)
  {
    OneScoredIsConsistent();
    assert OneScored().scores[0] in OneScored().scores;
    EntriesArePositive(OneScored(), [Service(1, 1, 100)], 1);
    EntriesArePositive(OneScored(), [Service(1, 1, 100)], 2);
  }

  /** Both teams are then reported first, although the second is really second. */
  lemma UnscoredTeamIsPlacedFirst()
    ensures Consistent(OneScored(), [Service(1, 1, 100)])
    ensures !HasItem(ItemsFor([1, 2], AllTeamServiceScores(OneScored(), None)), 2)
    ensures RankAmong([1, 2], AllTeamServiceScores(OneScored(), None), 2) == 2
  {
    OneScoredIsConsistent();
    OneScoredEntries();
    var scores := AllTeamServiceScores(OneScored(), None);
    ScoredRank([1, 2], scores, 2, ItemsFor([1, 2], scores));
    RankOfSecond(scores);
  }

  lemma RankOfSecond(scores: map<int, int>)
    requires 1 in scores && scores[1] > 0 && 2 !in scores
    ensures RankAmong([1, 2], scores, 2) == 2
  {
    SumSnoc([1], 2, HigherTeam(scores, 0));
    SumSnoc([], 1, HigherTeam(scores, 0));
    assert [] + [1] == [1] && [1] + [2] == [1, 2];
  }
}
