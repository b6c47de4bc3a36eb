/**
 The scoring tables, and a database session over them whose statements can fail.
 A table is the sequence of its rows in insertion order.
 */
module Store {
  import opened Sums

  datatype Service = Service(id: int, team: int, points: int)

  /** `end` is NULL until the round closes. */
  datatype Round = Round(id: int, number: int, start: int, end: Option<int>)

  datatype Check = Check(round: int, service: int, result: bool, completed: bool)

  datatype RoundScore = RoundScore(round: int, number: int, team: int, points: int)

  datatype Kb = Kb(name: string, round: int)

  const TASK_IDS := "task_ids"

  /** `streaks` is the column `consecutive_failures_cache`, by service id. */
  datatype Tables = Tables(rounds: seq<Round>, checks: seq<Check>, scores: seq<RoundScore>,
                           streaks: map<int, int>, kb: seq<Kb>)

  predicate IdsIncrease(a: Round, b: Round) { a.id < b.id }

  ghost predicate HasId(rounds: seq<Round>, id: int) {
    exists r :: r in rounds && r.id == id
  }

  ghost predicate HasRound(rounds: seq<Round>, id: int, number: int) {
    exists r :: r in rounds && r.id == id && r.number == number
  }

  /** Foreign keys hold, and round ids grow in insertion order. */
  ghost predicate Linked(t: Tables) {
    && Pairwise(t.rounds, IdsIncrease)
    && (forall c | c in t.checks :: HasId(t.rounds, c.round))
    && (forall row | row in t.scores :: HasRound(t.rounds, row.round, row.number))
  }

  /** A round's key determines the round. */
  lemma SameIdSameRound(rounds: seq<Round>, r: Round, x: Round)
    requires Pairwise(rounds, IdsIncrease) && r in rounds && x in rounds && r.id == x.id
    ensures r == x
  {
    var i :| 0 <= i < |rounds| && rounds[i] == r;
    var j :| 0 <= j < |rounds| && rounds[j] == x;
    SameIdSameIndex(rounds, i, j);
  }

  lemma SameIdSameIndex(rounds: seq<Round>, i: nat, j: nat)
    requires Pairwise(rounds, IdsIncrease) && i < |rounds| && j < |rounds|
    requires !IdsIncrease(rounds[i], rounds[j]) && !IdsIncrease(rounds[j], rounds[i])
    ensures i == j
  {
  }

  /** Round numbers are 1, 2, 3, ... without a gap or a repetition. */
  ghost predicate Numbered(rounds: seq<Round>) {
    forall i | 0 <= i < |rounds| :: rounds[i].number == i + 1
  }

  ghost predicate IdsBelow(rounds: seq<Round>, bound: int) {
    forall r | r in rounds :: r.id < bound
  }

  /** What becomes of one statement. A commit can raise although it took effect. */
  datatype Fate = Works | FailsBefore | FailsAfter

  datatype Outcome = Done | Raised

  /** The statements from `from` to `to` were sent, and `Raised` says that the last of them, and it alone, failed. */
  ghost predicate Ran(o: Outcome, script: nat -> Fate, from: nat, to: nat) {
    && from <= to && (o.Raised? ==> from < to && script(to - 1) != Works)
    && forall i | from <= i < (if o.Done? then to else to - 1) :: script(i) == Works
  }

  /** How many of them failed. */
  ghost function Faults(script: nat -> Fate, from: nat, to: nat): nat
    requires from <= to
  {
    if from == to then 0 else Faults(script, from, to - 1) + if script(to - 1) == Works then 0 else 1
  }

  lemma {:induction false} FaultsAdd(script: nat -> Fate, from: nat, mid: nat, to: nat)
    requires from <= mid <= to
    ensures Faults(script, from, to) == Faults(script, from, mid) + Faults(script, mid, to)
  {
    if mid < to {
      FaultsAdd(script, from, mid, to - 1);
    }
  }

  lemma {:induction false} NoFaults(script: nat -> Fate, from: nat, to: nat)
    requires from <= to && forall i | from <= i < to :: script(i) == Works
    ensures Faults(script, from, to) == 0
  {
    if from < to {
      NoFaults(script, from, to - 1);
    }
  }

  /** What ran to its end or to its first failure met no failing statement, or one. */
  lemma {:induction false} RanFaults(o: Outcome, script: nat -> Fate, from: nat, to: nat)
    requires Ran(o, script, from, to)
    ensures Faults(script, from, to) == if o.Raised? then 1 else 0
  {
    NoFaults(script, from, if o.Done? then to else to - 1);
  }

  lemma FirstWorks(script: nat -> Fate, from: nat, to: nat)
    requires from < to && script(from) == Works
    ensures Faults(script, from, to) == Faults(script, from + 1, to)
  {
    FaultsAdd(script, from, from + 1, to);
    assert Faults(script, from, from + 1) == Faults(script, from, from) == 0;
  }

  lemma {:induction false} LastFault(script: nat -> Fate, from: nat, to: nat)
    requires from < to
    ensures script(to - 1) != Works ==> Faults(script, from, to) >= 1
  {
  }

  /**
   One connection. `script` decides the fate of every statement ever sent, so a
   contract that holds for all scripts holds for an exception at any statement.
   `seen` collects every state that was ever committed, so every state other readers saw.
   */
  class Database {
    const script: nat -> Fate
    var ops: nat
    var committed: Tables
    var working: Tables
    var nextRoundId: int
    ghost var seen: set<Tables>

    ghost predicate Valid()
      reads this
    {
      && committed in seen
      && IdsBelow(committed.rounds, nextRoundId)
    }

    constructor (script: nat -> Fate, t: Tables, nextRoundId: int)
      requires IdsBelow(t.rounds, nextRoundId)
      ensures Valid() && committed == working == t && seen == {t}
      ensures this.script == script && ops == 0 && this.nextRoundId == nextRoundId
    {
      this.script := script;
      this.ops := 0;
      this.committed := t;
      this.working := t;
      this.nextRoundId := nextRoundId;
      this.seen := {t};
    }

    /** Any query or write before it touches the working copy. */
    method Statement() returns (o: Outcome)
      modifies `ops
      ensures ops == old(ops) + 1
      ensures o.Done? <==> script(old(ops)) == Works
    {
      o := if script(ops) == Works then Done else Raised;
      ops := ops + 1;
    }

    method Rollback() returns (o: Outcome)
      modifies `ops, `working
      ensures ops == old(ops) + 1
      ensures o.Done? <==> script(old(ops)) == Works
      ensures o.Done? ==> working == committed
    {
      o := Statement();
      if o.Done? {
        working := committed;
      }
    }

    /** Success is certain only on `Done`; after `Raised` the commit may have landed. */
    method Commit() returns (o: Outcome)
      requires Valid() && IdsBelow(working.rounds, nextRoundId)
      modifies `ops, `committed, `seen
      ensures Valid() && ops == old(ops) + 1
      ensures o.Done? <==> script(old(ops)) == Works
      ensures committed == if script(old(ops)) == FailsBefore then old(committed) else working
      ensures seen == old(seen) + {committed}
    {
      if script(ops) != FailsBefore {
        committed := working;
      }
      seen := seen + {committed};
      o := if script(ops) == Works then Done else Raised;
      ops := ops + 1;
    }

    /** INSERT of a bare round; its key comes from a counter that no rollback resets. */
    method InsertRound(number: int, start: int) returns (o: Outcome, id: int)
      requires Valid() && IdsBelow(working.rounds, nextRoundId)
      modifies `ops, `working, `nextRoundId
      ensures Valid() && IdsBelow(working.rounds, nextRoundId)
      ensures ops == old(ops) + 1
      ensures o.Done? <==> script(old(ops)) == Works
      ensures id == old(nextRoundId) && nextRoundId >= old(nextRoundId)
      ensures working == if o.Raised? then old(working)
                         else old(working).(rounds := old(working.rounds) + [Round(id, number, start, None)])
    {
      id := nextRoundId;
      o := Statement();
      if o.Done? {
        working := working.(rounds := working.rounds + [Round(id, number, start, None)]);
        nextRoundId := nextRoundId + 1;
      }
    }
  }
}
