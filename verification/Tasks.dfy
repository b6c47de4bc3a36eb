/** Dispatching a round's tasks, polling their results, and turning results into checks. */
module Tasks {
  import opened Sums
  import opened Store
  import opened Streaks
  import opened Scores

  datatype Status = Pending | Started | Retry | Success | Failure | Revoked

  predicate Ready(s: Status) { s.Success? || s.Failure? || s.Revoked? }

  /** The dict a worker returns. */
  datatype Report = Report(environment: int, output: string, erroredOut: bool)

  /** `result` is None for anything that is not a dict. */
  datatype Meta = Meta(status: Status, result: Option<Report>)

  /** What the result backend stores under a task's key. */
  datatype Payload = Absent | Undecodable | Stored(status: Option<Status>, result: Option<Report>)

  /** `asyncResult` is the per-task view; `bulk` says whether `mget` works. */
  datatype Backend = Backend(payload: int -> Payload, asyncResult: int -> Meta, bulk: bool)

  const NO_META := Meta(Pending, None)

  function MetaFromPayload(p: Payload): Meta {
    match p
    case Absent => NO_META
    case Undecodable => Meta(Failure, None)
    case Stored(status, result) =>
      if status == Some(Success) then Meta(Success, result)
      else Meta(if status.Some? then status.value else Pending, None)
  }

  predicate Readable(p: Payload) { p.Absent? || (p.Stored? && p.status.Some?) }

  /** What `AsyncResult` shows of a task whose payload is `p`. */
  predicate ShowsPayload(view: Meta, p: Payload) {
    match p
    case Absent => view.status == Pending
    case Stored(Some(status), result) => view.status == status && (status == Success ==> view.result == result)
    case _ => true
  }

  /** Both views of the backend describe the same readable payload. */
  ghost predicate Coherent(b: Backend) {
    forall id :: ShowsPayload(b.asyncResult(id), b.payload(id))
  }

  function MetaOf(b: Backend, id: int): Meta { MetaFromPayload(b.payload(id)) }

  function IndividualMeta(b: Backend, id: int): Meta {
    var view := b.asyncResult(id);
    Meta(view.status, if view.status == Success then view.result else None)
  }

  /** How the engine sees task `id`: in bulk when it still tries to and the backend can. */
  function Fetched(batch: bool, b: Backend, id: int): Meta {
    if batch && b.bulk then MetaOf(b, id) else IndividualMeta(b, id)
  }

  /** The dict that came with a result, if it is one of a task that succeeded. */
  function ReportOf(meta: Meta): Option<Report> { if meta.status == Success then meta.result else None }

  /**
   What the engine makes of a payload read in bulk: the stored dict exactly for a stored
   SUCCESS; PENDING exactly for what has not been stored or has no other status; and what
   cannot be decoded is final.
   */
  lemma PayloadRead(b: Backend, id: int)
    ensures forall r :: ReportOf(MetaOf(b, id)) == Some(r) <==> b.payload(id) == Stored(Some(Success), Some(r))
    ensures MetaOf(b, id).status == Pending <==>
              b.payload(id).Absent? || (b.payload(id).Stored? && b.payload(id).status in {None, Some(Pending)})
    ensures Ready(MetaOf(b, id).status) <==>
              b.payload(id).Undecodable?
              || (b.payload(id).Stored? && b.payload(id).status in {Some(Success), Some(Failure), Some(Revoked)})
    ensures b.payload(id).Stored? && b.payload(id).status.Some? ==> MetaOf(b, id).status == b.payload(id).status.value
  {
  }

  // ---- What a round hears of its tasks ----

  /** The polls of a round, and whether the engine still tries bulk lookups when it starts. */
  datatype Watch = Watch(batch: bool, polls: nat -> Backend)

  /** Whether it still does at poll `k`. */
  function BatchAt(w: Watch, k: nat): bool {
    if k == 0 then w.batch else BatchAt(w, k - 1) && w.polls(k - 1).bulk
  }

  function SeenAt(w: Watch, k: nat, id: int): Meta { Fetched(BatchAt(w, k), w.polls(k), id) }

  /** The first that is heard of a task in `n` polls, other than that it is pending. */
  function News(w: Watch, n: nat, id: int): Option<Meta> {
    if n == 0 then None
    else if News(w, n - 1, id).Some? then News(w, n - 1, id)
    else if SeenAt(w, n - 1, id).status != Pending then Some(SeenAt(w, n - 1, id))
    else None
  }

  /** It is kept when it is final. */
  function Kept(w: Watch, n: nat, id: int): Option<Meta> {
    if News(w, n, id).Some? && Ready(News(w, n, id).value.status) then News(w, n, id) else None
  }

  ghost predicate AllHeard(w: Watch, n: nat, tasks: seq<int>) {
    forall id | id in tasks :: News(w, n, id).Some?
  }

  /** The poll, from `k` on, after which nothing is pending, or patience ends. */
  ghost function LastPoll(w: Watch, tasks: seq<int>, patience: nat, k: nat): (last: nat)
    requires k <= patience
    ensures k <= last <= patience
    decreases patience - k
  {
    if k == patience || AllHeard(w, k + 1, tasks) then k else LastPoll(w, tasks, patience, k + 1)
  }

  /** What counts in the end: what was kept, or else what one more poll shows. */
  function FinalMeta(w: Watch, last: nat, id: int): Meta {
    if Kept(w, last + 1, id).Some? then Kept(w, last + 1, id).value else SeenAt(w, last + 1, id)
  }

  /** The engine's two collections after `n` polls. */
  ghost predicate Harvested(w: Watch, n: nat, tasks: seq<int>, completed: set<int>, metas: map<int, Meta>) {
    && (forall id :: id in completed <==> id in tasks && News(w, n, id).Some?)
    && (forall id :: id in metas <==> id in tasks && Kept(w, n, id).Some?)
    && (forall id | id in metas :: metas[id] == Kept(w, n, id).value)
  }

  const FETCH_CHUNK: nat := 500

  ghost predicate Distinct(ids: seq<int>) {
    forall i, j | 0 <= i < j < |ids| :: ids[i] != ids[j]
  }

  class ResultReader {
    var batchResultFetch: bool

    constructor ()
      ensures batchResultFetch
    {
      batchResultFetch := true;
    }

    static method Mget(b: Backend, chunk: seq<int>) returns (payloads: Option<seq<Payload>>)
      ensures payloads.Some? <==> b.bulk
      ensures payloads.Some? ==> payloads.value == seq(|chunk|, i requires 0 <= i < |chunk| => b.payload(chunk[i]))
    {
      if b.bulk {
        payloads := Some(seq(|chunk|, i requires 0 <= i < |chunk| => b.payload(chunk[i])));
      } else {
        payloads := None;
      }
    }

    static method FetchBatched(b: Backend, ids: seq<int>) returns (metas: Option<map<int, Meta>>)
      ensures metas.Some? <==> b.bulk || ids == []
      ensures metas.Some? ==> metas.value == map id | id in ids :: MetaOf(b, id)
    {
      var found: map<int, Meta> := map[];
      var start := 0;
      while start < |ids|
        invariant 0 <= start <= |ids|
        invariant start > 0 ==> b.bulk
        invariant found == map id | id in ids[..start] :: MetaOf(b, id)
      {
        var end := if start + FETCH_CHUNK <= |ids| then start + FETCH_CHUNK else |ids|;
        var chunk := ids[start..end];
        var payloads := Mget(b, chunk);
        if payloads.None? { return None; }
        var i := 0;
        while i < |chunk|
          invariant 0 <= i <= |chunk|
          invariant found == map id | id in ids[..start + i] :: MetaOf(b, id)
        {
          assert ids[..start + i + 1] == ids[..start + i] + [chunk[i]];
          found := found[chunk[i] := MetaFromPayload(payloads.value[i])];
          i := i + 1;
        }
        start := end;
      }
      assert ids[..start] == ids;
      return Some(found);
    }

    static method FetchIndividually(b: Backend, ids: seq<int>) returns (metas: map<int, Meta>)
      ensures metas == map id | id in ids :: IndividualMeta(b, id)
    {
      metas := map[];
      var i := 0;
      while i < |ids|
        invariant 0 <= i <= |ids|
        invariant metas == map id | id in ids[..i] :: IndividualMeta(b, id)
      {
        assert ids[..i + 1] == ids[..i] + [ids[i]];
        var view := b.asyncResult(ids[i]);
        metas := metas[ids[i] := Meta(view.status, if view.status == Success then view.result else None)];
        i := i + 1;
      }
      assert ids[..i] == ids;
    }

    /** Bulk lookups until the backend proves it has none; per-task lookups from then on. */
    method FetchTaskMetas(b: Backend, ids: seq<int>) returns (metas: map<int, Meta>)
      modifies this
      ensures metas == map id | id in ids :: Fetched(old(batchResultFetch), b, id)
      ensures batchResultFetch == (old(batchResultFetch) && (b.bulk || ids == []))
    {
      if ids == [] { return map[]; }
      if batchResultFetch {
        var found := FetchBatched(b, ids);
        if found.Some? { return found.value; }
        batchResultFetch := false;
      }
      metas := FetchIndividually(b, ids);
    }

    /** The tasks still worth asking about, each once. */
    static method Outstanding(tasks: seq<int>, completed: set<int>) returns (toCheck: seq<int>)
      ensures Distinct(toCheck)
      ensures forall id :: id in toCheck <==> id in tasks && id !in completed
    {
      toCheck := [];
      var i := 0;
      while i < |tasks|
        invariant 0 <= i <= |tasks|
        invariant Distinct(toCheck)
        invariant forall id :: id in toCheck <==> id in tasks[..i] && id !in completed
      {
        assert tasks[..i + 1] == tasks[..i] + [tasks[i]];
        if tasks[i] !in completed && tasks[i] !in toCheck {
          toCheck := toCheck + [tasks[i]];
        }
        i := i + 1;
      }
      assert tasks[..i] == tasks;
    }

    static method Classify(fetched: map<int, Meta>, toCheck: seq<int>, completed: set<int>, metas: map<int, Meta>)
      returns (pending: seq<int>, completed': set<int>, metas': map<int, Meta>)
      requires Distinct(toCheck) && forall id | id in toCheck :: id in fetched
      ensures Distinct(pending)
      ensures forall id :: id in pending <==> id in toCheck && fetched[id].status == Pending
      ensures completed' == completed + set id | id in toCheck && fetched[id].status != Pending
      ensures metas' == metas + map id | id in toCheck && Ready(fetched[id].status) :: fetched[id]
    {
      pending, completed', metas' := [], completed, metas;
      ghost var seen: set<int> := {};
      var i := 0;
      while i < |toCheck|
        invariant 0 <= i <= |toCheck|
        invariant forall j | 0 <= j < |toCheck| :: toCheck[j] in seen <==> j < i
        invariant forall id | id in seen :: id in toCheck
        invariant Distinct(pending)
        invariant forall id :: id in pending <==> id in seen && fetched[id].status == Pending
        invariant completed' == completed + set id | id in seen && fetched[id].status != Pending
        invariant forall id :: id in metas' <==> id in metas || (id in seen && Ready(fetched[id].status))
        invariant forall id | id in metas' ::
                    metas'[id] == if id in seen && Ready(fetched[id].status) then fetched[id] else metas[id]
      {
        var id := toCheck[i];
        var meta := Get(fetched, id, NO_META);
        if meta.status == Pending {
          pending := pending + [id];
        } else {
          completed' := completed' + {id};
          if Ready(meta.status) {
            metas' := metas'[id := meta];
          }
        }
        seen := seen + {id};
        i := i + 1;
      }
      assert forall id :: id in seen <==> id in toCheck;
      ghost var terminal := map id | id in toCheck && Ready(fetched[id].status) :: fetched[id];
      assert forall id :: id in metas' <==> id in metas + terminal;
      assert forall id | id in metas' :: metas'[id] == (metas + terminal)[id];
    }

    /** Polls the tasks not yet completed. Transient states count as done, but only terminal results are kept. */
    method AllPendingTasks(b: Backend, tasks: seq<int>, completed: set<int>, metas: map<int, Meta>)
      returns (pending: seq<int>, completed': set<int>, metas': map<int, Meta>)
      modifies this
      ensures Distinct(pending)
      ensures forall id :: id in pending <==>
                id in tasks && id !in completed && Fetched(old(batchResultFetch), b, id).status == Pending
      ensures forall id :: id in completed' <==>
                id in completed || (id in tasks && Fetched(old(batchResultFetch), b, id).status != Pending)
      ensures metas' == metas +
                        map id | id in tasks && id !in completed && Ready(Fetched(old(batchResultFetch), b, id).status)
                          :: Fetched(old(batchResultFetch), b, id)
      ensures batchResultFetch == (old(batchResultFetch) && (b.bulk || forall id | id in tasks :: id in completed))
    {
      ghost var batch := batchResultFetch;
      var toCheck := Outstanding(tasks, completed);
      assert toCheck != [] ==> toCheck[0] in toCheck;
      var fetched := FetchTaskMetas(b, toCheck);
      assert forall id | id in toCheck :: fetched[id] == Fetched(batch, b, id);
      pending, completed', metas' := Classify(fetched, toCheck, completed, metas);
      assert (map id | id in toCheck && Ready(fetched[id].status) :: fetched[id]) ==
             map id | id in tasks && id !in completed && Ready(Fetched(batch, b, id).status) :: Fetched(batch, b, id);
    }

    /** Poll `n` of a round, for the tasks that `waiting` still waits for. */
    method PollAgain(ghost w: Watch, b: Backend, ghost n: nat, tasks: seq<int>, ghost waiting: seq<int>,
                     completed: set<int>, metas: map<int, Meta>)
      returns (pending: seq<int>, completed': set<int>, metas': map<int, Meta>)
      requires b == w.polls(n) && Polled(w, n, tasks, waiting, completed, metas)
      requires tasks != [] ==> waiting != [] && batchResultFetch == BatchAt(w, n)
      modifies this
      ensures tasks != [] ==> batchResultFetch == BatchAt(w, n + 1)
      ensures Polled(w, n + 1, tasks, pending, completed', metas')
    {
      ghost var batch := batchResultFetch;
      pending, completed', metas' := AllPendingTasks(b, tasks, completed, metas);
      HarvestNext(w, n, batch, b, tasks, completed, metas, completed', metas');
      WaitNext(w, n, batch, b, tasks, completed, metas, pending);
      if tasks != [] {
        SomeOutstanding(w, n, tasks, waiting, completed, metas);
      }
    }

    /**
     The wait loop of a round: `polls(k)` is the backend at the k-th poll, and `patience` the
     number of refreshes that fit under the round ceiling.
     */
    method AwaitTasks(ghost w: Watch, polls: nat -> Backend, tasks: seq<int>, patience: nat)
      returns (pending: seq<int>, completed: set<int>, metas: map<int, Meta>, last: nat)
      requires w == Watch(batchResultFetch, polls)
      modifies this
      ensures last == LastPoll(w, tasks, patience, 0)
      ensures Polled(w, last + 1, tasks, pending, completed, metas)
      ensures tasks != [] ==> batchResultFetch == BatchAt(w, last + 1)
    {
      last := 0;
      NothingPolled(w, tasks);
      pending, completed, metas := PollAgain(w, polls(0), 0, tasks, tasks, {}, map[]);
      while pending != [] && last < patience
        invariant last <= patience
        invariant Unheard(w, tasks, last)
        invariant tasks != [] ==> batchResultFetch == BatchAt(w, last + 1)
        invariant Polled(w, last + 1, tasks, pending, completed, metas)
        decreases patience - last
      {
        NotLastPoll(w, tasks, last, pending, completed, metas);
        last := last + 1;
        pending, completed, metas := PollAgain(w, polls(last), last, tasks, pending, completed, metas);
      }
      IsLastPoll(w, tasks, patience, last, pending, completed, metas);
    }
  }

  /** The engine's collections after `n` polls. */
  ghost predicate Polled(w: Watch, n: nat, tasks: seq<int>, pending: seq<int>, completed: set<int>,
                         metas: map<int, Meta>)
  {
    Harvested(w, n, tasks, completed, metas) && Waiting(w, n, tasks, pending)
  }

  lemma NothingPolled(w: Watch, tasks: seq<int>)
    ensures Polled(w, 0, tasks, tasks, {}, map[])
  {
  }

  /** After each of the first `k` polls something was still pending. */
  ghost predicate Unheard(w: Watch, tasks: seq<int>, k: nat) {
    forall j: nat | 0 < j <= k :: !AllHeard(w, j, tasks)
  }

  lemma NotLastPoll(w: Watch, tasks: seq<int>, last: nat, pending: seq<int>, completed: set<int>, metas: map<int, Meta>)
    requires Polled(w, last + 1, tasks, pending, completed, metas) && pending != [] && Unheard(w, tasks, last)
    ensures tasks != [] && Unheard(w, tasks, last + 1)
  {
    StillWaiting(w, last + 1, tasks, pending);
  }

  lemma {:induction false} IsLastPoll(w: Watch, tasks: seq<int>, patience: nat, last: nat, pending: seq<int>,
                                      completed: set<int>,
                                      metas: map<int, Meta>)
    requires Polled(w, last + 1, tasks, pending, completed, metas) && Unheard(w, tasks, last)
    requires last <= patience && (pending == [] || last == patience)
    ensures LastPoll(w, tasks, patience, 0) == last
  {
    StillWaiting(w, last + 1, tasks, pending);
    LastPollFrom(w, tasks, patience, last, 0);
  }

  lemma {:induction false} LastPollFrom(w: Watch, tasks: seq<int>, patience: nat, last: nat, k: nat)
    requires k <= last <= patience && Unheard(w, tasks, last) && (AllHeard(w, last + 1, tasks) || last == patience)
    ensures LastPoll(w, tasks, patience, k) == last
    decreases last - k
  {
    if k < last {
      LastPollFrom(w, tasks, patience, last, k + 1);
    }
  }

  /** Exactly these are still pending after `n` polls. */
  ghost predicate Waiting(w: Watch, n: nat, tasks: seq<int>, pending: seq<int>) {
    && (forall j | 0 <= j < |pending| :: pending[j] in tasks && News(w, n, pending[j]).None?)
    && (forall id | id in tasks && News(w, n, id).None? :: id in pending)
  }

  lemma StillWaiting(w: Watch, n: nat, tasks: seq<int>, pending: seq<int>)
    requires Waiting(w, n, tasks, pending)
    ensures pending == [] <==> AllHeard(w, n, tasks)
  {
    if pending != [] {
      var id := pending[0];
      assert id in tasks && News(w, n, id).None?;
    }
  }

  /** One more poll, for one task. */
  lemma HearAgain(w: Watch, n: nat, id: int, seen: Meta, completed: set<int>, metas: map<int, Meta>,
                  completed': set<int>, metas': map<int, Meta>)
    requires seen == SeenAt(w, n, id)
    requires id in completed <==> News(w, n, id).Some?
    requires id in metas <==> Kept(w, n, id).Some?
    requires id in metas ==> metas[id] == Kept(w, n, id).value
    requires id in completed' <==> id in completed || seen.status != Pending
    requires id in metas' <==> id in metas || (id !in completed && Ready(seen.status))
    requires id in metas' ==> metas'[id] == if id !in completed && Ready(seen.status) then seen else metas[id]
    ensures id in completed' <==> News(w, n + 1, id).Some?
    ensures id in metas' <==> Kept(w, n + 1, id).Some?
    ensures id in metas' ==> metas'[id] == Kept(w, n + 1, id).value
  {
  }

  lemma {:induction false} HarvestNext(w: Watch, n: nat, batch: bool, b: Backend, tasks: seq<int>, completed: set<int>,
                                       metas: map<int, Meta>, completed': set<int>, metas': map<int, Meta>)
    requires Harvested(w, n, tasks, completed, metas)
    requires tasks != [] ==> batch == BatchAt(w, n) && b == w.polls(n)
    requires forall id :: id in completed' <==>
               id in completed || (id in tasks && Fetched(batch, b, id).status != Pending)
    requires metas' == metas + map id | id in tasks && id !in completed && Ready(Fetched(batch, b, id).status)
                                 :: Fetched(batch, b, id)
    ensures Harvested(w, n + 1, tasks, completed', metas')
  {
    forall id | id in tasks
      ensures id in completed' <==> News(w, n + 1, id).Some?
      ensures id in metas' <==> Kept(w, n + 1, id).Some?
      ensures id in metas' ==> metas'[id] == Kept(w, n + 1, id).value
    {
      HearAgain(w, n, id, Fetched(batch, b, id), completed, metas, completed', metas');
    }
  }

  lemma {:induction false} WaitNext(w: Watch, n: nat, batch: bool, b: Backend, tasks: seq<int>, completed: set<int>,
                                    metas: map<int, Meta>, pending: seq<int>)
    requires Harvested(w, n, tasks, completed, metas)
    requires tasks != [] ==> batch == BatchAt(w, n) && b == w.polls(n)
    requires forall id :: id in pending <==> id in tasks && id !in completed && Fetched(batch, b, id).status == Pending
    ensures Waiting(w, n + 1, tasks, pending)
  {
    forall id ensures id in pending <==> id in tasks && News(w, n + 1, id).None? {
      assert id in completed <==> id in tasks && News(w, n, id).Some?;
    }
    forall j | 0 <= j < |pending| ensures pending[j] in tasks && News(w, n + 1, pending[j]).None? {
      var id := pending[j];
      assert id in pending;
    }
  }

  lemma SomeOutstanding(w: Watch, n: nat, tasks: seq<int>, pending: seq<int>, completed: set<int>,
                        metas: map<int, Meta>)
    requires Polled(w, n, tasks, pending, completed, metas) && pending != []
    ensures exists id :: id in tasks && id !in completed
  {
    StillWaiting(w, n, tasks, pending);
    var id :| id in tasks && News(w, n, id).None?;
    assert id !in completed;
  }

  /** Whichever way it was read, poll `b` showed that `id` succeeded with this dict. */
  ghost predicate Showed(b: Backend, id: int, r: Report) {
    || (b.bulk && b.payload(id) == Stored(Some(Success), Some(r)))
    || b.asyncResult(id) == Meta(Success, Some(r))
  }

  /** A dict that counts was shown at one of the polls. */
  lemma {:induction false} NewsWasShown(w: Watch, n: nat, id: int, r: Report)
    requires News(w, n, id).Some? && ReportOf(News(w, n, id).value) == Some(r)
    ensures exists k: nat :: k < n && Showed(w.polls(k), id, r)
  {
    if News(w, n - 1, id).Some? {
      NewsWasShown(w, n - 1, id, r);
    } else {
      PayloadRead(w.polls(n - 1), id);
      assert Showed(w.polls(n - 1), id, r);
    }
  }

  lemma FinalWasShown(w: Watch, last: nat, id: int, r: Report)
    requires ReportOf(FinalMeta(w, last, id)) == Some(r)
    ensures exists k: nat :: k <= last + 1 && Showed(w.polls(k), id, r)
  {
    if Kept(w, last + 1, id).Some? {
      NewsWasShown(w, last + 1, id, r);
    } else {
      PayloadRead(w.polls(last + 1), id);
      assert Showed(w.polls(last + 1), id, r);
    }
  }

  /** `id` shows, read either way, success with a dict for which `good` holds. */
  ghost predicate ShowsGood(b: Backend, id: int, good: Report -> bool) {
    && (b.bulk ==> b.payload(id).Stored? && b.payload(id).status == Some(Success)
                   && b.payload(id).result.Some? && good(b.payload(id).result.value))
    && b.asyncResult(id).status == Success && b.asyncResult(id).result.Some? && good(b.asyncResult(id).result.value)
  }

  /** What every poll shows is what counts. */
  lemma SteadyIsFinal(w: Watch, last: nat, id: int, good: Report -> bool)
    requires forall k: nat | k <= last + 1 :: ShowsGood(w.polls(k), id, good)
    ensures ReportOf(FinalMeta(w, last, id)).Some? && good(ReportOf(FinalMeta(w, last, id)).value)
  {
    assert ShowsGood(w.polls(0), id, good) && ShowsGood(w.polls(last + 1), id, good);
    PayloadRead(w.polls(0), id);
    PayloadRead(w.polls(last + 1), id);
    FirstNews(w, last + 1, id);
  }

  lemma {:induction false} FirstNews(w: Watch, n: nat, id: int)
    requires n > 0 && SeenAt(w, 0, id).status != Pending
    ensures News(w, n, id) == Some(SeenAt(w, 0, id))
  {
    if n == 1 {
      assert News(w, 0, id).None?;
    } else {
      FirstNews(w, n - 1, id);
    }
  }

  /** In bulk or one by one, a coherent backend gives the engine the same picture of every readable task. */
  lemma BulkEqualsIndividual(b: Backend, id: int)
    requires Coherent(b) && Readable(b.payload(id))
    ensures Fetched(true, b, id) == Fetched(false, b, id)
  {
    assert ShowsPayload(b.asyncResult(id), b.payload(id));
  }

  /** Then it does not matter whether bulk lookups are tried: every poll tells the same. */
  lemma {:induction false} NewsIgnoresBatch(v: Watch, w: Watch, n: nat, id: int)
    requires v.polls == w.polls
    requires forall k: nat | k < n :: Coherent(w.polls(k)) && Readable(w.polls(k).payload(id))
    ensures News(v, n, id) == News(w, n, id)
  {
    if n > 0 {
      NewsIgnoresBatch(v, w, n - 1, id);
      BulkEqualsIndividual(w.polls(n - 1), id);
    }
  }

  lemma {:induction false} LastPollIgnoresBatch(v: Watch, w: Watch, tasks: seq<int>, patience: nat, k: nat)
    requires v.polls == w.polls && k <= patience
    requires forall j: nat, id | j <= patience && id in tasks ::
               Coherent(w.polls(j)) && Readable(w.polls(j).payload(id))
    ensures LastPoll(v, tasks, patience, k) == LastPoll(w, tasks, patience, k)
    decreases patience - k
  {
    if k < patience {
      forall id | id in tasks ensures News(v, k + 1, id) == News(w, k + 1, id) {
        NewsIgnoresBatch(v, w, k + 1, id);
      }
      LastPollIgnoresBatch(v, w, tasks, patience, k + 1);
    }
  }

  lemma FinalIgnoresBatch(v: Watch, w: Watch, last: nat, id: int)
    requires v.polls == w.polls
    requires forall k: nat | k <= last + 1 :: Coherent(w.polls(k)) && Readable(w.polls(k).payload(id))
    ensures FinalMeta(v, last, id) == FinalMeta(w, last, id)
  {
    NewsIgnoresBatch(v, w, last + 1, id);
    BulkEqualsIndividual(w.polls(last + 1), id);
  }

  // ---- Dispatch ----

  /** `reject` is "" when the environment has no reject pattern. */
  datatype Environment = Environment(service: int, matching: string, reject: string)

  predicate HasEnvironment(environments: map<int, seq<int>>, service: int) {
    service in environments && environments[service] != []
  }

  function Dispatchable(environments: map<int, seq<int>>): int -> bool { s => HasEnvironment(environments, s) }

  /** The service a task probes. */
  function Target(task: int, envOf: map<int, int>, envs: map<int, Environment>): Option<int> {
    if task in envOf && envOf[task] in envs then Some(envs[envOf[task]].service) else None
  }

  ghost predicate Owned(environments: map<int, seq<int>>, envs: map<int, Environment>) {
    forall s, e | s in environments && e in environments[s] :: e in envs && envs[e].service == s
  }

  /** `random.choice`. */
  function Choose(options: seq<int>, n: nat): (e: int)
    requires options != []
    ensures e in options
  {
    options[n % |options|]
  }

  /** The ids of the tasks a round sends. */
  function Issued(order: seq<int>, environments: map<int, seq<int>>, taskId: nat -> int): seq<int> {
    seq(|Filter(order, Dispatchable(environments))|, k requires k >= 0 => taskId(k))
  }

  /** Which environment each of them gets: `task_env_map`. */
  function Assignment(order: seq<int>, environments: map<int, seq<int>>, choice: nat -> nat, taskId: nat -> int)
    : map<int, int>
  {
    if order == [] then map[]
    else
      var init, s := order[..|order| - 1], order[|order| - 1];
      var sent := Assignment(init, environments, choice, taskId);
      if HasEnvironment(environments, s)
      then sent[taskId(|Issued(init, environments, taskId)|) := Choose(environments[s], choice(|init|))]
      else sent
  }

  /** One more service in the loop. */
  lemma {:induction false} IssueNext(init: seq<int>, s: int, environments: map<int, seq<int>>, choice: nat -> nat,
                                     taskId: nat -> int)
    ensures var probed := Filter(init, Dispatchable(environments));
            var next := taskId(|Issued(init, environments, taskId)|);
            if HasEnvironment(environments, s) then
              && Filter(init + [s], Dispatchable(environments)) == probed + [s]
              && Issued(init + [s], environments, taskId) == Issued(init, environments, taskId) + [next]
              && Assignment(init + [s], environments, choice, taskId) ==
                 Assignment(init, environments, choice, taskId)[next := Choose(environments[s], choice(|init|))]
            else
              && Filter(init + [s], Dispatchable(environments)) == probed
              && Issued(init + [s], environments, taskId) == Issued(init, environments, taskId)
              && Assignment(init + [s], environments, choice, taskId) == Assignment(init, environments, choice, taskId)
  {
    FilterAppend(init, [s], Dispatchable(environments));
    assert [s][1..] == [];
    assert (init + [s])[..|init|] == init;
  }

  ghost predicate Probes(sent: seq<int>, probed: seq<int>, envOf: map<int, int>, envs: map<int, Environment>) {
    |sent| == |probed| && forall k | 0 <= k < |sent| :: Target(sent[k], envOf, envs) == Some(probed[k])
  }

  /** Every service that has an environment gets one task, aimed at one of its own environments. */
  lemma {:induction false} AssignmentProbes(order: seq<int>, environments: map<int, seq<int>>, choice: nat -> nat,
                                            taskId: nat -> int, envs: map<int, Environment>)
    requires forall i: nat, j: nat | i != j :: taskId(i) != taskId(j)
    requires Owned(environments, envs)
    ensures Probes(Issued(order, environments, taskId), Filter(order, Dispatchable(environments)),
                   Assignment(order, environments, choice, taskId), envs)
    decreases |order|
  {
    if order != [] {
      var init, s := order[..|order| - 1], order[|order| - 1];
      assert order == init + [s];
      AssignmentProbes(init, environments, choice, taskId, envs);
      IssueNext(init, s, environments, choice, taskId);
      if HasEnvironment(environments, s) {
        ProbesNext(Issued(init, environments, taskId), Filter(init, Dispatchable(environments)),
                   Assignment(init, environments, choice, taskId), envs, taskId(|Issued(init, environments, taskId)|),
                   Choose(environments[s], choice(|init|)), s);
      }
    }
  }

  lemma ProbesNext(sent: seq<int>, probed: seq<int>, envOf: map<int, int>, envs: map<int, Environment>,
                   task: int, e: int, service: int)
    requires Probes(sent, probed, envOf, envs) && task !in sent
    requires e in envs && envs[e].service == service
    ensures Probes(sent + [task], probed + [service], envOf[task := e], envs)
  {
  }

  lemma IssuedDistinct(order: seq<int>, environments: map<int, seq<int>>, taskId: nat -> int)
    requires forall i: nat, j: nat | i != j :: taskId(i) != taskId(j)
    ensures Distinct(Issued(order, environments, taskId))
  {
  }

  /** The loop over the services, in random order; it stops at a service without a check class. */
  method SendTasks(order: seq<int>, supported: set<int>, environments: map<int, seq<int>>,
                   choice: nat -> nat, taskId: nat -> int)
    returns (ok: bool, sent: seq<int>, envOf: map<int, int>)
    ensures ok <==> forall s | s in order :: s in supported
    ensures ok ==> sent == Issued(order, environments, taskId)
    ensures ok ==> envOf == Assignment(order, environments, choice, taskId)
  {
    sent, envOf := [], map[];
    var i := 0;
    while i < |order|
      invariant 0 <= i <= |order|
      invariant forall s | s in order[..i] :: s in supported
      invariant sent == Issued(order[..i], environments, taskId)
      invariant envOf == Assignment(order[..i], environments, choice, taskId)
    {
      var s := order[i];
      if s !in supported { return false, sent, envOf; }
      assert order[..i + 1] == order[..i] + [s];
      IssueNext(order[..i], s, environments, choice, taskId);
      if HasEnvironment(environments, s) {
        var e, task := Choose(environments[s], choice(i)), taskId(|sent|);
        sent := sent + [task];
        envOf := envOf[task := e];
      }
      i := i + 1;
    }
    assert order[..i] == order;
    return true, sent, envOf;
  }

  /**
   One task per service that has an environment, on one environment chosen at random;
   None is the LookupError for a service without a check class.
   */
  method Dispatch(order: seq<int>, supported: set<int>, environments: map<int, seq<int>>,
                  choice: nat -> nat, taskId: nat -> int, ghost envs: map<int, Environment>)
    returns (tasks: Option<seq<int>>, envOf: map<int, int>)
    requires forall i: nat, j: nat | i != j :: taskId(i) != taskId(j)
    requires Owned(environments, envs)
    ensures tasks.Some? <==> forall s | s in order :: s in supported
    ensures tasks.Some? ==> envOf == Assignment(order, environments, choice, taskId)
    ensures tasks.Some? ==> tasks.value == Issued(order, environments, taskId) && Distinct(tasks.value)
    ensures tasks.Some? ==> Probes(tasks.value, Filter(order, Dispatchable(environments)), envOf, envs)
  {
    var ok, sent;
    ok, sent, envOf := SendTasks(order, supported, environments, choice, taskId);
    AssignmentProbes(order, environments, choice, taskId, envs);
    IssuedDistinct(order, environments, taskId);
    tasks := if ok then Some(sent) else None;
  }

  // ---- Results ----

  const OUTPUT_LIMIT := 5000

  function Cut(s: string): string { if |s| <= OUTPUT_LIMIT then s else s[..OUTPUT_LIMIT] }

  type Search = (string, string) -> bool

  datatype Inbox = Inbox(metas: map<int, Meta>, envOf: map<int, int>, envs: map<int, Environment>)

  datatype Verdict = Skipped | Scored(service: int, result: bool)

  /** The dict a task came back with, if it did. */
  function Delivered(id: int, inbox: Inbox): Option<Report> {
    ReportOf(Get(inbox.metas, id, NO_META))
  }

  /** The environment a task is about, if it still exists. */
  function Probed(id: int, inbox: Inbox): Option<Environment> {
    var e := if Delivered(id, inbox).Some? then Some(Delivered(id, inbox).value.environment)
             else if id in inbox.envOf then Some(inbox.envOf[id])
             else None;
    if e.Some? && e.value in inbox.envs then Some(inbox.envs[e.value]) else None
  }

  predicate Passes(r: Report, e: Environment, search: Search) {
    && !r.erroredOut
    && search(e.matching, Cut(r.output))
    && (e.reject == "" || !search(e.reject, Cut(r.output)))
  }

  /** Of a long output only the first 5000 characters count, and of any other all of it. */
  lemma OnlyTheHeadCounts(r: Report, e: Environment, search: Search)
    ensures |r.output| <= 5000 ==>
              (Passes(r, e, search) <==>
                 !r.erroredOut && search(e.matching, r.output) && (e.reject == "" || !search(e.reject, r.output)))
    ensures |r.output| > 5000 ==> (Passes(r, e, search) <==> Passes(r.(output := r.output[..5000]), e, search))
  {
  }

  /** What one task means for the round: no check without an environment, no pass without a matching report. */
  function Judge(id: int, inbox: Inbox, search: Search): Verdict {
    match Probed(id, inbox)
    case None => Skipped
    case Some(e) =>
      Scored(e.service, Delivered(id, inbox).Some? && Passes(Delivered(id, inbox).value, e, search))
  }

  /** The branches of the result loop. */
  method JudgeTask(id: int, inbox: Inbox, search: Search) returns (verdict: Verdict)
    ensures verdict == Judge(id, inbox, search)
  {
    var meta := Get(inbox.metas, id, NO_META);
    var report := if meta.status == Success then meta.result else None;
    if report.None? {
      if id !in inbox.envOf { return Skipped; }
      if inbox.envOf[id] !in inbox.envs { return Skipped; }
      return Scored(inbox.envs[inbox.envOf[id]].service, false);
    }
    if report.value.environment !in inbox.envs { return Skipped; }
    var e := inbox.envs[report.value.environment];
    var output := Cut(report.value.output);
    var result := false;
    if !report.value.erroredOut {
      var matched := search(e.matching, output);
      if matched {
        if e.reject != "" {
          var rejected := search(e.reject, output);
          result := !rejected;
        } else {
          result := true;
        }
      }
    }
    verdict := Scored(e.service, result);
  }

  function ChecksOf(verdict: Verdict, round: int): seq<Check> {
    if verdict.Skipped? then [] else [Check(round, verdict.service, verdict.result, true)]
  }

  function RoundChecks(tasks: seq<int>, inbox: Inbox, search: Search, round: int): seq<Check> {
    if tasks == [] then []
    else ChecksOf(Judge(tasks[0], inbox, search), round) + RoundChecks(tasks[1..], inbox, search, round)
  }

  lemma {:induction false} RoundChecksOfRound(tasks: seq<int>, inbox: Inbox, search: Search, round: int)
    ensures forall c | c in RoundChecks(tasks, inbox, search, round) :: c.round == round && c.completed
  {
    if tasks != [] {
      RoundChecksOfRound(tasks[1..], inbox, search, round);
    }
  }

  lemma {:induction false} RoundChecksSnoc(tasks: seq<int>, id: int, inbox: Inbox, search: Search, round: int)
    ensures RoundChecks(tasks + [id], inbox, search, round) ==
            RoundChecks(tasks, inbox, search, round) + ChecksOf(Judge(id, inbox, search), round)
  {
    if tasks == [] {
      assert [id][1..] == [];
    } else {
      assert (tasks + [id])[1..] == tasks[1..] + [id];
      RoundChecksSnoc(tasks[1..], id, inbox, search, round);
    }
  }

  lemma {:induction false} TakeRoundChecks(tasks: seq<int>, i: nat, inbox: Inbox, search: Search, round: int)
    requires i < |tasks|
    ensures RoundChecks(tasks[..i + 1], inbox, search, round) ==
            RoundChecks(tasks[..i], inbox, search, round) + ChecksOf(Judge(tasks[i], inbox, search), round)
  {
    assert tasks[..i + 1] == tasks[..i] + [tasks[i]];
    RoundChecksSnoc(tasks[..i], tasks[i], inbox, search, round);
  }

  ghost predicate Aggregates(checks: seq<Check>, services: seq<Service>, round: int,
                             points: map<int, int>, passed: set<int>, failed: map<int, int>) {
    && (forall team :: Get(points, team, 0) == Sum(checks, CheckPoints(services, round, team)))
    && (forall s :: s in passed <==> AnyPass(checks, s))
    && (forall s :: Get(failed, s, 0) == Failures(checks, s))
  }

  lemma {:induction false} AggregatePass(checks: seq<Check>, c: Check, services: seq<Service>, round: int,
                                         points: map<int, int>, passed: set<int>, failed: map<int, int>)
    requires Aggregates(checks, services, round, points, passed, failed)
    requires c.round == round && c.completed && c.result && Find(services, c.service).Some?
    ensures var s := Find(services, c.service).value;
            Aggregates(checks + [c], services, round, points[s.team := Get(points, s.team, 0) + s.points],
                       passed + {c.service}, failed)
  {
    SnocTotals(checks, c, services, round);
  }

  lemma AggregateFail(checks: seq<Check>, c: Check, services: seq<Service>, round: int,
                      points: map<int, int>, passed: set<int>, failed: map<int, int>)
    requires Aggregates(checks, services, round, points, passed, failed)
    requires c.round == round && c.completed && !c.result
    ensures Aggregates(checks + [c], services, round, points, passed,
                       failed[c.service := Get(failed, c.service, 0) + 1])
  {
    SnocTotals(checks, c, services, round);
  }

  lemma {:induction false} SnocTotals(checks: seq<Check>, c: Check, services: seq<Service>, round: int)
    ensures forall team :: Sum(checks + [c], CheckPoints(services, round, team)) ==
                           Sum(checks, CheckPoints(services, round, team)) + CheckPoints(services, round, team)(c)
    ensures forall s :: Failures(checks + [c], s) == Failures(checks, s) + if Failed(c, s) then 1 else 0
    ensures forall s :: AnyPass(checks + [c], s) <==> AnyPass(checks, s) || Passed(c, s)
  {
    forall team ensures Sum(checks + [c], CheckPoints(services, round, team)) ==
                        Sum(checks, CheckPoints(services, round, team)) + CheckPoints(services, round, team)(c) {
      SumSnoc(checks, c, CheckPoints(services, round, team));
    }
    forall s ensures Failures(checks + [c], s) == Failures(checks, s) + AnyFailure(s)(c) {
      SumSnoc(checks, c, AnyFailure(s));
    }
    assert forall x :: x in checks + [c] <==> x in checks || x == c;
  }

  ghost predicate KnownServices(inbox: Inbox, services: seq<Service>) {
    forall e | e in inbox.envs :: Find(services, inbox.envs[e].service).Some?
  }

  lemma {:induction false} JudgeFindsService(id: int, inbox: Inbox, search: Search, services: seq<Service>)
    requires KnownServices(inbox, services)
    ensures var v := Judge(id, inbox, search); v.Scored? ==> Find(services, v.service).Some?
  {
    if id in inbox.envOf {
      var e := inbox.envOf[id];
      assert e in inbox.envs ==> Find(services, inbox.envs[e].service).Some?;
    }
    if Delivered(id, inbox).Some? {
      var e := Delivered(id, inbox).value.environment;
      assert e in inbox.envs ==> Find(services, inbox.envs[e].service).Some?;
    }
  }

  /** The bookkeeping for one task. */
  method Record(id: int, inbox: Inbox, search: Search, checks: seq<Check>, services: seq<Service>, round: int,
                points: map<int, int>, passed: set<int>, failed: map<int, int>)
    returns (checks': seq<Check>, points': map<int, int>, passed': set<int>, failed': map<int, int>)
    requires Aggregates(checks, services, round, points, passed, failed)
    requires KnownServices(inbox, services)
    ensures checks' == checks + ChecksOf(Judge(id, inbox, search), round)
    ensures Aggregates(checks', services, round, points', passed', failed')
  {
    checks', points', passed', failed' := checks, points, passed, failed;
    var verdict := JudgeTask(id, inbox, search);
    JudgeFindsService(id, inbox, search, services);
    if verdict.Scored? {
      var c := Check(round, verdict.service, verdict.result, true);
      var service := Find(services, verdict.service).value;
      if verdict.result {
        AggregatePass(checks, c, services, round, points, passed, failed);
        points' := points[service.team := Get(points, service.team, 0) + service.points];
        passed' := passed + {service.id};
      } else {
        AggregateFail(checks, c, services, round, points, passed, failed);
        failed' := failed[service.id := Get(failed, service.id, 0) + 1];
      }
      checks' := checks + [c];
    }
  }

  /** The result loop of a round: its checks, and the three aggregates the round close stores. */
  method ProcessResults(tasks: seq<int>, inbox: Inbox, search: Search, services: seq<Service>, round: int)
    returns (checks: seq<Check>, points: map<int, int>, passed: set<int>, failed: map<int, int>)
    requires KnownServices(inbox, services)
    ensures checks == RoundChecks(tasks, inbox, search, round)
    ensures Aggregates(checks, services, round, points, passed, failed)
  {
    checks, points, passed, failed := [], map[], {}, map[];
    var i := 0;
    while i < |tasks|
      invariant 0 <= i <= |tasks|
      invariant checks == RoundChecks(tasks[..i], inbox, search, round)
      invariant Aggregates(checks, services, round, points, passed, failed)
    {
      TakeRoundChecks(tasks, i, inbox, search, round);
      checks, points, passed, failed :=
        Record(tasks[i], inbox, search, checks, services, round, points, passed, failed);
      i := i + 1;
    }
    assert tasks[..i] == tasks;
  }

  // ---- One check per task, one check per service ----

  /** Workers report on the environment they were given. */
  ghost predicate Honest(inbox: Inbox) {
    forall id | id in inbox.metas && inbox.metas[id].status == Success && inbox.metas[id].result.Some? ::
      id in inbox.envOf && inbox.metas[id].result.value.environment == inbox.envOf[id]
  }

  function Live(inbox: Inbox): int -> bool { id => id in inbox.envOf && inbox.envOf[id] in inbox.envs }

  /** The service whose environment a task reports on. */
  function ReachedService(id: int, inbox: Inbox): Option<int> {
    match Probed(id, inbox)
    case None => None
    case Some(e) => Some(e.service)
  }

  function Reached(inbox: Inbox): int -> bool { id => ReachedService(id, inbox).Some? }

  lemma JudgeOfReached(id: int, inbox: Inbox, search: Search)
    ensures var v := Judge(id, inbox, search);
            if Reached(inbox)(id) then v.Scored? && Some(v.service) == ReachedService(id, inbox) else v.Skipped?
  {
  }

  /** The checks are the scored verdicts, in order. */
  lemma {:induction false} ChecksAreJudged(tasks: seq<int>, inbox: Inbox, search: Search, round: int)
    ensures var checks, reached := RoundChecks(tasks, inbox, search, round), Filter(tasks, Reached(inbox));
            && |checks| == |reached|
            && forall i | 0 <= i < |reached| ::
                 Judge(reached[i], inbox, search) == Scored(checks[i].service, checks[i].result)
  {
    if tasks != [] {
      ChecksAreJudged(tasks[1..], inbox, search, round);
      JudgeOfReached(tasks[0], inbox, search);
    }
  }

  /** The tasks whose environment still exists, and no others, yield one check each, in order, of its service. */
  lemma {:induction false} OneCheckPerTask(tasks: seq<int>, inbox: Inbox, search: Search, round: int)
    ensures var checks, reached := RoundChecks(tasks, inbox, search, round), Filter(tasks, Reached(inbox));
            && |checks| == |reached|
            && forall i | 0 <= i < |reached| ::
                 && Some(checks[i].service) == ReachedService(reached[i], inbox)
                 && Judge(reached[i], inbox, search) == Scored(checks[i].service, checks[i].result)
  {
    ChecksAreJudged(tasks, inbox, search, round);
    var reached := Filter(tasks, Reached(inbox));
    forall i | 0 <= i < |reached|
      ensures var v := Judge(reached[i], inbox, search);
              v.Scored? && Some(v.service) == ReachedService(reached[i], inbox)
    {
      JudgeOfReached(reached[i], inbox, search);
    }
  }

  /** When workers report on the environment they were given, that is the one it was dispatched for. */
  lemma HonestProbe(id: int, inbox: Inbox)
    requires Honest(inbox)
    ensures Reached(inbox)(id) <==> Live(inbox)(id)
    ensures Live(inbox)(id) ==> Target(id, inbox.envOf, inbox.envs) == ReachedService(id, inbox)
  {
  }

  lemma {:induction false} OneCheckPerLiveTask(tasks: seq<int>, inbox: Inbox, search: Search, round: int)
    requires Honest(inbox)
    ensures var checks, live := RoundChecks(tasks, inbox, search, round), Filter(tasks, Live(inbox));
            && |checks| == |live|
            && forall i | 0 <= i < |live| ::
                 && Some(checks[i].service) == Target(live[i], inbox.envOf, inbox.envs)
                 && Judge(live[i], inbox, search) == Scored(checks[i].service, checks[i].result)
  {
    OneCheckPerTask(tasks, inbox, search, round);
    forall id | id in tasks ensures Reached(inbox)(id) <==> Live(inbox)(id) {
      HonestProbe(id, inbox);
    }
    FilterSame(tasks, Reached(inbox), Live(inbox));
    var live := Filter(tasks, Live(inbox));
    forall i | 0 <= i < |live|
      ensures Target(live[i], inbox.envOf, inbox.envs) == ReachedService(live[i], inbox)
    {
      HonestProbe(live[i], inbox);
    }
  }

  predicate DifferentService(a: Check, b: Check) { a.service != b.service }

  /** Tasks for distinct services give checks of distinct services: no round mixes results of one service. */
  lemma {:induction false} OneCheckPerService(tasks: seq<int>, inbox: Inbox, search: Search, round: int)
    requires Honest(inbox)
    requires forall i, j | 0 <= i < j < |tasks| && Live(inbox)(tasks[i]) && Live(inbox)(tasks[j]) ::
               Target(tasks[i], inbox.envOf, inbox.envs) != Target(tasks[j], inbox.envOf, inbox.envs)
    ensures Pairwise(RoundChecks(tasks, inbox, search, round), DifferentService)
  {
    if tasks != [] {
      var tail := tasks[1..];
      assert forall i | 0 <= i < |tail| :: tail[i] == tasks[i + 1];
      OneCheckPerService(tail, inbox, search, round);
      OneCheckPerLiveTask(tail, inbox, search, round);
      HonestProbe(tasks[0], inbox);
      if Judge(tasks[0], inbox, search).Scored? {
        var rest, live := RoundChecks(tail, inbox, search, round), Filter(tail, Live(inbox));
        forall j | 0 <= j < |rest|
          ensures Some(rest[j].service) != Target(tasks[0], inbox.envOf, inbox.envs)
        {
          assert live[j] in tail;
          var k :| 0 <= k < |tail| && tail[k] == live[j];
          assert Live(inbox)(tasks[k + 1]);
        }
      }
    }
  }
}
