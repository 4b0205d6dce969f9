/** The state of one review auditor (src/fmh/codex_auditor.py) beside its store, and the small
    steps other threads and people may take at any moment. */
module SchedulerModel {
  import opened Ordering
  import opened ReviewStore

  /** One call handed to the thread pool. */
  datatype Task = Task(id: Id, worker: string, done: bool)

  /** `pool` is every task submitted since the process started; `futures` and `futureWorkers`
      are the auditor's two dictionaries, the first pointing into the pool. */
  datatype State = State(
    reviews: Reviews,
    pool: seq<Task>,
    futures: map<Id, nat>,
    futureWorkers: map<Id, string>,
    clock: int)

  predicate Running(s: State, i: int) { 0 <= i < |s.pool| && !s.pool[i].done }

  /** Review ids of tasks whose thread has not finished, tracked by a dictionary or not. */
  ghost function RunningIds(s: State): set<Id> {
    set i | 0 <= i < |s.pool| && !s.pool[i].done :: s.pool[i].id
  }

  /** Review ids whose recorded future is unfinished. */
  ghost function Live(s: State): set<Id> {
    set id | id in s.futures && Running(s, s.futures[id])
  }

  ghost predicate DictionariesAgree(s: State) {
    && s.futures.Keys == s.futureWorkers.Keys
    && (forall id :: id in s.futures ==>
      && s.futures[id] < |s.pool|
      && s.pool[s.futures[id]].id == id
      && s.pool[s.futures[id]].worker == s.futureWorkers[id])
  }

  /** A running task that names a worker has not been pushed out of the dictionaries. */
  ghost predicate Tracked(s: State) {
    forall i :: Running(s, i) && s.pool[i].worker != "" ==>
      s.pool[i].id in s.futures && s.futures[s.pool[i].id] == i
  }

  /** No two running tasks share a worker. */
  ghost predicate Exclusive(s: State) {
    forall i, j :: Running(s, i) && Running(s, j) && i != j && s.pool[i].worker == s.pool[j].worker ==>
      s.pool[i].worker == ""
  }

  ghost predicate WorkersFromPayloads(s: State) {
    forall i :: 0 <= i < |s.pool| ==>
      s.pool[i].id in s.reviews && s.pool[i].worker == WorkerOf(s.reviews[s.pool[i].id].payload)
  }

  ghost predicate Inv(s: State, maxParallel: int) {
    && DictionariesAgree(s)
    && Tracked(s)
    && Exclusive(s)
    && WorkersFromPayloads(s)
    && |Live(s)| <= maxParallel
  }

  lemma WorkersKnown(s: State, maxParallel: int)
    requires Inv(s, maxParallel)
    ensures WorkersFromPayloads(s)
  {
  }

  lemma DictionariesKnown(s: State, maxParallel: int)
    requires Inv(s, maxParallel)
    ensures DictionariesAgree(s)
  {
  }

  // ---------------------------------------------------------------- small steps of the environment

  datatype Event =
    | ThreadWrite(task: nat, status: Status)   // a pool thread records a decision on its own review
    | Finish(task: nat)                        // a pool thread returns
    | Human(id: Id, status: Status)            // a person decides a review
    | NewReview(id: Id, payload: Payload)      // the poller files a review
    | Wait(seconds: nat)

  const HUMAN_STATUSES := {Approved, Blocked, RetryRequested, NeedsHuman}

  /** Threads write only their own review and never `pending`; a payload is fixed per review id. */
  predicate Enabled(s: State, e: Event) {
    match e
    case ThreadWrite(i, status) => Running(s, i) && status != Pending
    case Finish(i) => Running(s, i)
    case Human(_, status) => status in HUMAN_STATUSES
    case NewReview(id, payload) => id in s.reviews ==> s.reviews[id].payload == payload
    case Wait(_) => true
  }

  function Happen(s: State, e: Event): State
    requires Enabled(s, e)
  {
    match e
    case ThreadWrite(i, status) => s.(reviews := Apply(s.reviews, Decide(s.pool[i].id, status, s.clock)))
    case Finish(i) => s.(pool := s.pool[i := s.pool[i].(done := true)])
    case Human(id, status) => s.(reviews := Apply(s.reviews, Decide(id, status, s.clock)))
    case NewReview(id, payload) => s.(reviews := Apply(s.reviews, Create(id, payload, s.clock)))
    case Wait(seconds) => s.(clock := s.clock + seconds)
  }

  ghost predicate ReviewInFlight(s: State, id: Id) {
    id in s.reviews && InFlight(s.reviews[id].status)
  }

  ghost predicate PoolDrift(a: State, b: State) {
    && a.futures == b.futures && a.futureWorkers == b.futureWorkers
    && |a.pool| == |b.pool| && a.clock <= b.clock
    && (forall i :: 0 <= i < |a.pool| ==>
      && b.pool[i].id == a.pool[i].id && b.pool[i].worker == a.pool[i].worker
      && (a.pool[i].done ==> b.pool[i].done))
  }

  /** Everything that can change while the auditor itself claims nothing: threads only finish,
      payloads stay, an in-flight review is an old one left alone or belongs to a running thread,
      and an approval is an old one left alone or newer than the start. */
  ghost predicate Drift(a: State, b: State) {
    && PoolDrift(a, b)
    && (forall id :: id in a.reviews ==> id in b.reviews && b.reviews[id].payload == a.reviews[id].payload)
    && (forall id :: ReviewInFlight(b, id) ==>
      || id in RunningIds(a)
      || (id in a.reviews && b.reviews[id] == a.reviews[id]))
    && (forall id :: id in b.reviews && b.reviews[id].status == Approved ==>
      || b.reviews[id].updatedAt >= a.clock
      || (id in a.reviews && b.reviews[id] == a.reviews[id]))
  }

  lemma DriftTransitive(a: State, b: State, c: State)
    requires Drift(a, b) && Drift(b, c)
    ensures Drift(a, c)
  {
    RunningShrinks(a, b);
  }

  lemma RunningShrinks(a: State, b: State)
    requires PoolDrift(a, b)
    ensures RunningIds(b) <= RunningIds(a)
    ensures Live(b) <= Live(a)
  {
    forall id | id in RunningIds(b) ensures id in RunningIds(a) {
      var i :| 0 <= i < |b.pool| && !b.pool[i].done && b.pool[i].id == id;
      assert Running(a, i);
    }
    forall id | id in Live(b) ensures id in Live(a) {
      assert Running(b, b.futures[id]);
      assert Running(a, a.futures[id]);
    }
  }

  lemma DriftShrinks(a: State, b: State)
    requires Drift(a, b)
    ensures RunningIds(b) <= RunningIds(a) && Live(b) <= Live(a)
  {
    RunningShrinks(a, b);
  }

  lemma LiveAreRunning(s: State)
    requires DictionariesAgree(s)
    ensures Live(s) <= RunningIds(s)
  {
    forall id | id in Live(s) ensures id in RunningIds(s) {
      assert s.pool[s.futures[id]].id == id;
    }
  }

  /** Any drift keeps the invariant. */
  lemma DriftKeepsInv(a: State, b: State, maxParallel: int)
    requires Inv(a, maxParallel) && Drift(a, b)
    ensures Inv(b, maxParallel)
  {
    RunningShrinks(a, b);
    SubsetSize(Live(b), Live(a));
    assert forall i :: Running(b, i) ==> Running(a, i);
  }

  lemma EventDrifts(s: State, e: Event)
    requires Enabled(s, e) && WorkersFromPayloads(s)
    ensures Drift(s, Happen(s, e))
  {
    if e.ThreadWrite? {
      assert s.pool[e.task].id in RunningIds(s);
    }
  }

  /** Outside `rest`, every review in `status` belongs to a task of `running`. */
  ghost predicate NoOrphans(s: State, status: Status, running: set<Id>, rest: seq<Id>) {
    forall id :: id in s.reviews && s.reviews[id].status == status && id != "" && id !in rest ==> id in running
  }

  lemma AllListed(s: State, status: Status, running: set<Id>, window: seq<Id>)
    requires forall id :: id in WithStatus(s.reviews, status) ==> id in window
    ensures NoOrphans(s, status, running, window[0..])
  {
    assert window[0..] == window;
  }

  lemma DriftKeepsNoOrphans(a: State, b: State, status: Status, running: set<Id>, rest: seq<Id>)
    requires Drift(a, b) && InFlight(status)
    requires RunningIds(a) <= running && NoOrphans(a, status, running, rest)
    ensures NoOrphans(b, status, running, rest)
  {
    forall id | id in b.reviews && b.reviews[id].status == status && id != "" && id !in rest
      ensures id in running
    {
      assert ReviewInFlight(b, id);
    }
  }

  /** Every in-flight review belongs to a task of `running`. */
  ghost predicate NoneStranded(s: State, running: set<Id>) {
    forall id :: ReviewInFlight(s, id) && id != "" ==> id in running
  }

  lemma StrandedFewer(s: State, running: set<Id>, more: set<Id>)
    requires NoneStranded(s, running) && running <= more
    ensures NoneStranded(s, more)
  {
  }

  lemma RunningCovered(s: State, active: set<string>)
    requires active == set i | 0 <= i < |s.pool| && !s.pool[i].done :: s.pool[i].worker
    ensures CoversRunning(active, s)
  {
  }

  lemma NoneLeft(s: State, running: set<Id>)
    requires NoOrphans(s, CodexReviewing, running, []) && NoOrphans(s, Deploying, running, [])
    ensures NoneStranded(s, running)
  {
  }

  lemma DriftStrandsNone(a: State, b: State, running: set<Id>)
    requires Drift(a, b) && RunningIds(a) <= running && NoneStranded(a, running)
    ensures NoneStranded(b, running)
  {
    forall id | ReviewInFlight(b, id) && id != "" ensures id in running {
      assert id in RunningIds(a) || ReviewInFlight(a, id);
    }
  }

  /** Requeueing is within what drift allows. */
  lemma RequeueDrifts(s: State, id: Id, status: Status)
    requires WorkersFromPayloads(s) && !InFlight(status) && status != Approved
    ensures Drift(s, s.(reviews := Apply(s.reviews, Decide(id, status, s.clock))))
  {
  }

  lemma DriftReflexive(s: State)
    ensures Drift(s, s)
  {
  }

  /** The dictionaries without the futures that are done. */
  function Collected(s: State): State {
    s.(futures := map id | id in s.futures && Running(s, s.futures[id]) :: s.futures[id],
       futureWorkers :=
         map id | id in s.futureWorkers && id in s.futures && Running(s, s.futures[id]) :: s.futureWorkers[id])
  }

  lemma PoppedIsCollected(s: State, finished: set<Id>)
    requires DictionariesAgree(s)
    requires finished == set id | id in s.futures && s.pool[s.futures[id]].done
    ensures Collected(s) == s.(futures := s.futures - finished, futureWorkers := s.futureWorkers - finished)
  {
    assert Collected(s).futures == s.futures - finished;
    assert Collected(s).futureWorkers == s.futureWorkers - finished;
  }

  lemma CollectKeepsInv(s: State, maxParallel: int)
    requires Inv(s, maxParallel)
    ensures Inv(Collected(s), maxParallel) && Live(Collected(s)) == Live(s)
  {
    var t := Collected(s);
    assert forall i :: Running(t, i) <==> Running(s, i);
    forall i | Running(t, i) && t.pool[i].worker != ""
      ensures t.pool[i].id in t.futures && t.futures[t.pool[i].id] == i
    {
      assert Running(s, i);
    }
    assert Live(t) == Live(s);
  }

  /** Handing a claimed review to the pool keeps the invariant, when the pool is not full and the
      worker is not in use. */
  function Submitted(s: State, id: Id, worker: string): State {
    s.(pool := s.pool + [Task(id, worker, false)],
       futures := s.futures[id := |s.pool|],
       futureWorkers := s.futureWorkers[id := worker])
  }

  lemma SubmitKeepsInv(s: State, id: Id, worker: string, maxParallel: int)
    requires Inv(s, maxParallel) && |Live(s)| < maxParallel
    requires id in s.reviews && worker == WorkerOf(s.reviews[id].payload)
    requires worker != "" ==> forall i :: Running(s, i) ==> s.pool[i].worker != worker
    ensures Inv(Submitted(s, id, worker), maxParallel)
  {
    hide Live, Tracked, Exclusive, WorkersFromPayloads;
    SubmitPool(s, id, worker);
    SubsetSize(Live(Submitted(s, id, worker)), Live(s) + {id});
    SubmitTracks(s, id, worker);
    SubmitExcludes(s, id, worker);
  }

  lemma SubmitExcludes(s: State, id: Id, worker: string)
    requires DictionariesAgree(s) && Exclusive(s) && WorkersFromPayloads(s)
    requires id in s.reviews && worker == WorkerOf(s.reviews[id].payload)
    requires worker != "" ==> forall i :: Running(s, i) ==> s.pool[i].worker != worker
    ensures Exclusive(Submitted(s, id, worker)) && WorkersFromPayloads(Submitted(s, id, worker))
  {
    SubmitPool(s, id, worker);
  }

  lemma SubmitPool(s: State, id: Id, worker: string)
    requires DictionariesAgree(s)
    ensures var t := Submitted(s, id, worker);
      && DictionariesAgree(t) && Live(t) <= Live(s) + {id}
      && forall i :: Running(t, i) ==> i == |s.pool| || (Running(s, i) && t.pool[i] == s.pool[i])
  {
    var t := Submitted(s, id, worker);
    assert forall i :: 0 <= i < |s.pool| ==> t.pool[i] == s.pool[i];
    forall x | x in Live(t) ensures x in Live(s) + {id} {
      if x != id {
        assert Running(t, s.futures[x]);
        assert Running(s, s.futures[x]);
      }
    }
  }

  lemma SubmitTracks(s: State, id: Id, worker: string)
    requires DictionariesAgree(s) && Tracked(s) && WorkersFromPayloads(s)
    requires id in s.reviews && worker == WorkerOf(s.reviews[id].payload)
    requires worker != "" ==> forall i :: Running(s, i) ==> s.pool[i].worker != worker
    ensures Tracked(Submitted(s, id, worker))
  {
    var t := Submitted(s, id, worker);
    SubmitPool(s, id, worker);
    forall i | Running(t, i) && t.pool[i].worker != ""
      ensures t.pool[i].id in t.futures && t.futures[t.pool[i].id] == i
    {
      if i < |s.pool| {
        assert s.pool[i].worker == WorkerOf(s.reviews[s.pool[i].id].payload);
      }
    }
  }

  // ---------------------------------------------------------------- what the count of futures is worth

  /** Tasks handed to the pool whose thread has not finished. */
  ghost function Unfinished(s: State): set<nat> {
    set i | 0 <= i < |s.pool| && !s.pool[i].done
  }

  /** The auditor's count of unfinished futures is the number of unfinished tasks. */
  ghost predicate CountExact(s: State) { |Unfinished(s)| == |Live(s)| }

  ghost function Counted(s: State): set<nat>
    requires Live(s) <= s.futures.Keys
  {
    set id | id in Live(s) :: s.futures[id]
  }

  lemma {:induction false} ImageSize(ids: set<Id>, m: map<Id, nat>)
    requires ids <= m.Keys
    requires forall x, y :: x in ids && y in ids && m[x] == m[y] ==> x == y
    ensures |set id | id in ids :: m[id]| == |ids|
  {
    if ids != {} {
      var x :| x in ids;
      ImageSize(ids - {x}, m);
      assert (set id | id in ids :: m[id]) == (set id | id in ids - {x} :: m[id]) + {m[x]};
    }
  }

  /** The count is never too high. */
  lemma CountedFit(s: State)
    requires DictionariesAgree(s)
    ensures Counted(s) <= Unfinished(s) && |Counted(s)| == |Live(s)| <= |Unfinished(s)|
    ensures CountExact(s) <==> Counted(s) == Unfinished(s)
  {
    ImageSize(Live(s), s.futures);
    SubsetSize(Counted(s), Unfinished(s));
    if |Unfinished(s)| == |Counted(s)| {
      SameSizeSubset(Counted(s), Unfinished(s));
    }
  }

  /** From an exact count, handing a review to the pool keeps it exact if and only if the review has no unfinished
      future yet; otherwise that future is replaced while its thread still runs. */
  lemma SubmitKeepsCountIff(s: State, id: Id, worker: string)
    requires DictionariesAgree(s) && CountExact(s)
    ensures CountExact(Submitted(s, id, worker)) <==> id !in Live(s)
  {
    hide DictionariesAgree, CountExact, Live, Unfinished, Submitted;
    SubmitLives(s, id, worker);
    SubmitUnfinished(s, id, worker);
    CountMeans(s);
    CountMeans(Submitted(s, id, worker));
  }

  lemma SubmitUnfinished(s: State, id: Id, worker: string)
    ensures |Unfinished(Submitted(s, id, worker))| == |Unfinished(s)| + 1
  {
    assert Unfinished(Submitted(s, id, worker)) == Unfinished(s) + {|s.pool|};
  }

  lemma CountMeans(s: State)
    ensures CountExact(s) <==> |Unfinished(s)| == |Live(s)|
  {
  }

  lemma SubmitLives(s: State, id: Id, worker: string)
    requires DictionariesAgree(s)
    ensures Live(Submitted(s, id, worker)) == Live(s) + {id}
  {
    var t := Submitted(s, id, worker);
    SubmitPool(s, id, worker);
    assert Running(t, |s.pool|);
    forall x | x in Live(s) && x != id ensures x in Live(t) {
      assert Running(s, s.futures[x]) && Running(t, t.futures[x]);
    }
  }

  /** Everything else keeps an exact count: steps of others, and forgetting finished futures. */
  lemma EventKeepsCount(s: State, e: Event)
    requires DictionariesAgree(s) && CountExact(s) && Enabled(s, e)
    ensures CountExact(Happen(s, e))
  {
    var t := Happen(s, e);
    CountedFit(s);
    if e.Finish? {
      assert e.task in Counted(s);
      assert Unfinished(t) == Unfinished(s) - {e.task};
      assert DictionariesAgree(t);
      forall i | i in Unfinished(t) ensures i in Counted(t) {
        var id :| id in Live(s) && s.futures[id] == i;
        assert Running(t, i) && id in Live(t);
      }
      CountedFit(t);
    } else {
      assert forall i :: Running(t, i) <==> Running(s, i);
      assert Live(t) == Live(s) && Unfinished(t) == Unfinished(s);
    }
  }

  lemma CollectKeepsCount(s: State, maxParallel: int)
    requires Inv(s, maxParallel) && CountExact(s)
    ensures CountExact(Collected(s))
  {
    CollectKeepsInv(s, maxParallel);
    assert Unfinished(Collected(s)) == Unfinished(s);
  }

  /** A review whose worker is in no running task has no unfinished future, so naming a worker keeps the count exact. */
  lemma NamedIsNotLive(s: State, id: Id, worker: string, maxParallel: int)
    requires Inv(s, maxParallel) && id in s.reviews && worker == WorkerOf(s.reviews[id].payload) && worker != ""
    requires forall i :: Running(s, i) ==> s.pool[i].worker != worker
    ensures id !in Live(s)
  {
  }

  /** While every running task names a worker the count is exact. */
  lemma CountIsExact(s: State, maxParallel: int)
    requires Inv(s, maxParallel)
    requires forall i :: Running(s, i) ==> s.pool[i].worker != ""
    ensures CountExact(s) && Live(s) == RunningIds(s)
  {
    CountedFit(s);
    LiveAreRunning(s);
    forall i | i in Unfinished(s) ensures i in Counted(s) {
      assert Running(s, i);
      assert s.pool[i].id in Live(s) && s.futures[s.pool[i].id] == i;
    }
    forall id | id in RunningIds(s) ensures id in Live(s) {
      var i :| Running(s, i) && s.pool[i].id == id;
      assert s.futures[id] == i;
    }
  }

  /** A person sends a review back for retry and the auditor claims it: nothing in the pool changes. */
  ghost function Reclaimed(s: State, id: Id): State
    requires Enabled(s, Human(id, RetryRequested))
  {
    Taken(Happen(s, Human(id, RetryRequested)), id, RetryRequested, CodexReviewing)
  }

  lemma ReclaimedKeepsInv(s: State, id: Id, maxParallel: int)
    requires Inv(s, maxParallel) && id in s.reviews
    ensures Enabled(s, Human(id, RetryRequested))
    ensures var back := Happen(s, Human(id, RetryRequested));
      Wins(back.reviews, Claim(id, {RetryRequested}, CodexReviewing, back.clock))
    ensures var t := Reclaimed(s, id);
      Inv(t, maxParallel) && t.pool == s.pool && t.futures == s.futures
    ensures id in Reclaimed(s, id).reviews && Reclaimed(s, id).reviews[id].payload == s.reviews[id].payload
  {
    hide Inv;
    var back := Happen(s, Human(id, RetryRequested));
    WorkersKnown(s, maxParallel);
    EventDrifts(s, Human(id, RetryRequested));
    DriftKeepsInv(s, back, maxParallel);
    TakeKeepsInv(back, id, RetryRequested, CodexReviewing, maxParallel);
  }

  /** A review that names no worker, at work in a thread, is sent back for retry by a person, claimed again and
      handed to the pool once more: the invariant holds, and one of the two threads is not counted. */
  lemma BlankWorkerIsUndercounted(s: State, id: Id, maxParallel: int)
    requires Inv(s, maxParallel) && CountExact(s) && |Live(s)| < maxParallel
    requires id in Live(s) && id in s.reviews && WorkerOf(s.reviews[id].payload) == ""
    ensures Enabled(s, Human(id, RetryRequested))
    ensures var back := Happen(s, Human(id, RetryRequested));
      Wins(back.reviews, Claim(id, {RetryRequested}, CodexReviewing, back.clock))
    ensures var again := Submitted(Reclaimed(s, id), id, "");
      && Inv(again, maxParallel) && |Live(again)| == |Live(s)| && |Unfinished(again)| == |Live(again)| + 1
      && Running(again, s.futures[id]) && Running(again, |s.pool|)
      && again.pool[s.futures[id]].id == again.pool[|s.pool|].id == id
  {
    hide Inv, CountExact, DictionariesAgree, Live, Reclaimed, WorkerOf;
    ReclaimedKeepsInv(s, id, maxParallel);
    var claimed := Reclaimed(s, id);
    DictionariesKnown(s, maxParallel);
    DictionariesKnown(claimed, maxParallel);
    SamePool(s, claimed);
    SubmitKeepsInv(claimed, id, "", maxParallel);
    SubmitLives(claimed, id, "");
    CountMeans(s);
    assert Live(claimed) + {id} == Live(claimed);
    assert Unfinished(Submitted(claimed, id, "")) == Unfinished(s) + {|s.pool|};
    LiveRuns(s, id);
  }

  lemma SamePool(s: State, t: State)
    requires s.pool == t.pool && s.futures == t.futures
    ensures Live(s) == Live(t) && Unfinished(s) == Unfinished(t)
  {
    assert forall i :: Running(s, i) <==> Running(t, i);
  }

  lemma LiveRuns(s: State, id: Id)
    requires DictionariesAgree(s) && id in Live(s)
    ensures Running(s, s.futures[id]) && s.pool[s.futures[id]].id == id
  {
  }

  // ---------------------------------------------------------------- stale approvals

  /** One hour. What is proved about stale approvals says the number itself. */
  const STALE_APPROVED_SEC := 3600

  /** Outside `rest`, every approval was less than an hour old at time `t`. */
  ghost predicate NoStale(s: State, t: int, rest: seq<Id>) {
    forall id :: id in s.reviews && s.reviews[id].status == Approved && id != "" && id !in rest ==>
      t - s.reviews[id].updatedAt < 3600
  }

  lemma DriftKeepsNoStale(a: State, b: State, t: int, rest: seq<Id>)
    requires Drift(a, b) && t <= a.clock && NoStale(a, t, rest)
    ensures NoStale(b, t, rest)
  {
  }

  lemma ScannedOne(s: State, t: int, window: seq<Id>, n: nat)
    requires n < |window| && NoStale(s, t, window[n..])
    requires var id := window[n];
      id == "" || id !in s.reviews || s.reviews[id].status != Approved ||
        t - s.reviews[id].updatedAt < 3600
    ensures NoStale(s, t, window[n + 1..])
  {
    assert forall x :: x in window[n..] ==> x == window[n] || x in window[n + 1..];
  }

  lemma NoStaleAtFirst(s: State, t: int, window: seq<Id>)
    requires forall id :: id in WithStatus(s.reviews, Approved) ==> id in window
    ensures NoStale(s, t, window[0..])
  {
    assert window[0..] == window;
  }

  /** An entry of a listing taken in `a` that was fresh, or is still approved after being moved. */
  lemma ScannedIsFresh(a: State, b: State, t: int, id: Id)
    requires Drift(a, b) && t <= a.clock && id in a.reviews
    requires t - a.reviews[id].updatedAt < 3600
    requires id in b.reviews && b.reviews[id].status == Approved
    ensures t - b.reviews[id].updatedAt < 3600
  {
  }

  /** Every winning claim of an approved review, from position `from` of the history on, took an
      approval that was less than an hour old at time `t`. */
  ghost predicate FreshApprovalsClaimed(history: seq<Op>, from: nat, t: int) {
    forall h | from <= h < |history| && Wins(Replay(map[], history[..h]), history[h]) && Approved in history[h].from ::
      t - Replay(map[], history[..h])[history[h].id].updatedAt < 3600
  }

  lemma AppendKeepsFreshClaims(history: seq<Op>, op: Op, from: nat, t: int)
    requires FreshApprovalsClaimed(history, from, t)
    requires Wins(Replay(map[], history), op) && Approved in op.from ==>
      t - Replay(map[], history)[op.id].updatedAt < 3600
    ensures FreshApprovalsClaimed(history + [op], from, t)
  {
    var longer := history + [op];
    assert longer[..|history|] == history;
    forall h | from <= h < |history| ensures longer[..h] == history[..h] && longer[h] == history[h] {
    }
  }

  /** `longer` continues `history` with writes other than claims. */
  ghost predicate NoNewClaims(history: seq<Op>, longer: seq<Op>) {
    && |history| <= |longer| && history == longer[..|history|]
    && forall h :: |history| <= h < |longer| ==> !longer[h].Claim?
  }

  lemma NoNewClaimsKeepFresh(history: seq<Op>, longer: seq<Op>, from: nat, t: int)
    requires NoNewClaims(history, longer) && FreshApprovalsClaimed(history, from, t)
    ensures FreshApprovalsClaimed(longer, from, t)
  {
    forall h | from <= h < |history| ensures longer[..h] == history[..h] && longer[h] == history[h] {
    }
  }

  /** `longer` continues `history`. */
  ghost predicate Continues(history: seq<Op>, longer: seq<Op>) {
    |history| <= |longer| && longer[..|history|] == history
  }

  lemma ContinuesItself(history: seq<Op>)
    ensures Continues(history, history)
  {
  }

  lemma ContinuesTransitive(a: seq<Op>, b: seq<Op>, c: seq<Op>)
    requires Continues(a, b) && Continues(b, c)
    ensures Continues(a, c)
  {
    assert c[..|b|][..|a|] == c[..|a|];
  }

  /** A claim a tick may make: a pending or retried review goes to review, and an approval, with automatic deployment
      only, to deployment. */
  ghost predicate IsTickClaim(autoDeploy: bool, op: Op)
    requires op.Claim?
  {
    || (op.from in {{Pending}, {RetryRequested}} && op.to == CodexReviewing)
    || (autoDeploy && op.from == {Approved} && op.to == Deploying)
  }

  /** `longer` continues `history` with writes of others and claims of a tick. */
  ghost predicate ClaimsOn(autoDeploy: bool, history: seq<Op>, longer: seq<Op>) {
    && Continues(history, longer)
    && forall h :: |history| <= h < |longer| && longer[h].Claim? ==> IsTickClaim(autoDeploy, longer[h])
  }

  lemma ClaimsOnItself(autoDeploy: bool, history: seq<Op>)
    ensures ClaimsOn(autoDeploy, history, history)
  {
  }

  lemma ClaimsOnTransitive(autoDeploy: bool, a: seq<Op>, b: seq<Op>, c: seq<Op>)
    requires ClaimsOn(autoDeploy, a, b) && ClaimsOn(autoDeploy, b, c)
    ensures ClaimsOn(autoDeploy, a, c)
  {
    hide IsTickClaim;
    ContinuesTransitive(a, b, c);
    assert forall h :: |a| <= h < |b| ==> c[h] == c[..|b|][h];
  }

  lemma NoClaimsOn(autoDeploy: bool, history: seq<Op>, longer: seq<Op>)
    requires NoNewClaims(history, longer)
    ensures ClaimsOn(autoDeploy, history, longer)
  {
  }

  lemma ClaimsContinue(autoDeploy: bool, history: seq<Op>, longer: seq<Op>)
    requires ClaimsOn(autoDeploy, history, longer)
    ensures Continues(history, longer)
  {
  }

  lemma ClaimGoesOn(autoDeploy: bool, history: seq<Op>, longer: seq<Op>, op: Op)
    requires ClaimsOn(autoDeploy, history, longer) && op.Claim? && IsTickClaim(autoDeploy, op)
    ensures ClaimsOn(autoDeploy, history, longer + [op])
  {
    hide IsTickClaim;
    assert forall h :: 0 <= h < |longer| ==> (longer + [op])[h] == longer[h];
  }

  /** The table of `s` is the one some part of the history after `from` writes left. */
  ghost predicate Visited(s: State, from: nat, history: seq<Op>) {
    exists h :: from <= h <= |history| && s.reviews == Replay(map[], history[..h])
  }

  lemma VisitedBetween(s: State, h0: seq<Op>, h1: seq<Op>, h2: seq<Op>)
    requires s.reviews == Replay(map[], h1) && Continues(h0, h1) && Continues(h1, h2)
    ensures Visited(s, |h0|, h2)
  {
    assert h2[..|h1|] == h1;
  }

  lemma RecoverVisits(tick: TickStates, h0: seq<Op>, h1: seq<Op>, h2: seq<Op>, h3: seq<Op>, h4: seq<Op>)
    requires NoNewClaims(h0, h1) && NoNewClaims(h1, h2) && NoNewClaims(h2, h3) && NoNewClaims(h3, h4)
    requires Visited(tick.codexAt, |h1|, h2) && Visited(tick.deployingAt, |h1|, h2)
    requires tick.approvedAt.reviews == Replay(map[], h2) && tick.claimAt.reviews == Replay(map[], h4)
    ensures Visited(tick.codexAt, |h0|, h4) && Visited(tick.deployingAt, |h0|, h4)
    ensures Visited(tick.approvedAt, |h0|, h4) && Visited(tick.claimAt, |h0|, h4)
  {
    hide Visited, NoNewClaims;
    ContinuesLonger(h0, h1);
    ContinuesLonger(h1, h2);
    ContinuesLonger(h2, h3);
    ContinuesLonger(h3, h4);
    ContinuesTransitive(h0, h1, h2);
    ContinuesTransitive(h2, h3, h4);
    ContinuesTransitive(h0, h2, h4);
    ContinuesItself(h4);
    VisitedSooner(tick.codexAt, |h1|, |h0|, h2);
    VisitedSooner(tick.deployingAt, |h1|, |h0|, h2);
    VisitedStays(tick.codexAt, |h0|, h2, h4);
    VisitedStays(tick.deployingAt, |h0|, h2, h4);
    VisitedBetween(tick.approvedAt, h0, h2, h4);
    VisitedBetween(tick.claimAt, h0, h4, h4);
  }

  lemma VisitedSooner(s: State, from: nat, sooner: nat, history: seq<Op>)
    requires Visited(s, from, history) && sooner <= from
    ensures Visited(s, sooner, history)
  {
  }

  /** Two states of one run, each with the history it was reached with. */
  lemma BothVisited(first: State, second: State, h0: seq<Op>, h1: seq<Op>, h2: seq<Op>, h3: seq<Op>)
    requires NoNewClaims(h0, h1) && NoNewClaims(h1, h2) && NoNewClaims(h2, h3)
    requires first.reviews == Replay(map[], h1) && second.reviews == Replay(map[], h2)
    ensures Visited(first, |h0|, h3) && Visited(second, |h0|, h3) && NoNewClaims(h0, h3)
  {
    hide Visited, NoNewClaims, Continues;
    ContinuesLonger(h0, h1);
    ContinuesLonger(h1, h2);
    ContinuesLonger(h2, h3);
    ContinuesTransitive(h0, h1, h2);
    ContinuesTransitive(h1, h2, h3);
    VisitedBetween(first, h0, h1, h3);
    VisitedBetween(second, h0, h2, h3);
    NoNewClaimsTransitive(h0, h1, h2);
    NoNewClaimsTransitive(h0, h2, h3);
  }

  lemma VisitedStays(s: State, from: nat, history: seq<Op>, longer: seq<Op>)
    requires Visited(s, from, history) && Continues(history, longer)
    ensures Visited(s, from, longer)
  {
    var h :| from <= h <= |history| && s.reviews == Replay(map[], history[..h]);
    assert longer[..h] == history[..h];
  }

  lemma NoNewClaimsReflexive(history: seq<Op>)
    ensures NoNewClaims(history, history)
  {
  }

  lemma NoNewClaimsTransitive(a: seq<Op>, b: seq<Op>, c: seq<Op>)
    requires NoNewClaims(a, b) && NoNewClaims(b, c)
    ensures NoNewClaims(a, c)
  {
    assert c[..|a|] == b[..|a|];
    forall h | |a| <= h < |b| ensures c[h] == b[h] {
      assert c[..|b|][h] == c[h];
    }
  }

  // ---------------------------------------------------------------- claiming

  /** A worker is busy: a running task or an in-flight review names it. */
  ghost predicate Busy(s: State, worker: string) {
    || (exists i :: Running(s, i) && s.pool[i].worker == worker)
    || (exists id :: ReviewInFlight(s, id) && WorkerOf(s.reviews[id].payload) == worker)
  }

  ghost predicate AllBusy(active: set<string>, s: State) {
    forall w :: w in active ==> w != "" && Busy(s, w)
  }

  /** The set holds the worker of every running task that names one. */
  ghost predicate CoversRunning(active: set<string>, s: State) {
    forall i :: Running(s, i) && s.pool[i].worker != "" ==> s.pool[i].worker in active
  }

  lemma DriftKeepsCover(active: set<string>, a: State, b: State)
    requires Drift(a, b) && CoversRunning(active, a)
    ensures CoversRunning(active, b)
  {
    assert forall i :: Running(b, i) ==> Running(a, i) && a.pool[i].worker == b.pool[i].worker;
  }

  /** A review with an id that is in the status. */
  predicate Waiting(s: State, status: Status, id: Id) {
    id != "" && id in s.reviews && s.reviews[id].status == status
  }

  /** The first `upto` reviews of the window have left the status, carry no id, or wait for a busy
      worker. */
  ghost predicate Exhausted(s: State, status: Status, window: seq<Id>, upto: nat) {
    forall j | 0 <= j < upto && j < |window| && Waiting(s, status, window[j]) ::
      WorkerOf(s.reviews[window[j]].payload) != "" && Busy(s, WorkerOf(s.reviews[window[j]].payload))
  }

  ghost function Taken(s: State, id: Id, from: Status, to: Status): State {
    s.(reviews := Apply(s.reviews, Claim(id, {from}, to, s.clock)))
  }

  lemma TakeKeepsInv(s: State, id: Id, from: Status, to: Status, maxParallel: int)
    requires Inv(s, maxParallel)
    ensures Inv(Taken(s, id, from, to), maxParallel)
    ensures Live(Taken(s, id, from, to)) == Live(s)
  {
    var t := Taken(s, id, from, to);
    assert forall i :: Running(t, i) <==> Running(s, i);
    assert Live(t) == Live(s);
  }

  lemma TakeKeepsPayloads(m: Reviews, s: State, id: Id, from: Status, to: Status)
    requires PayloadsKept(m, s.reviews)
    ensures PayloadsKept(m, Taken(s, id, from, to).reviews)
  {
  }

  lemma TakeKeepsNoStale(s: State, id: Id, from: Status, to: Status, t: int)
    requires NoStale(s, t, []) && to != Approved
    ensures NoStale(Taken(s, id, from, to), t, [])
  {
  }

  lemma SubmitCovers(active: set<string>, s: State, id: Id, worker: string)
    requires CoversRunning(active, s)
    ensures CoversRunning(active + {worker}, Submitted(s, id, worker))
    ensures worker == "" ==> CoversRunning(active, Submitted(s, id, worker))
  {
    var t := Submitted(s, id, worker);
    forall i | Running(t, i) && t.pool[i].worker != "" && i < |s.pool| ensures t.pool[i].worker in active {
      assert Running(s, i);
    }
  }

  /** Claiming and submitting frees no worker and occupies the claimed one. */
  lemma ClaimKeepsBusy(s: State, id: Id, from: Status, to: Status, worker: string, w: string)
    requires from in CLAIMABLE
    requires Busy(s, w) || w == worker
    ensures Busy(Submitted(Taken(s, id, from, to), id, worker), w)
  {
    var t := Submitted(Taken(s, id, from, to), id, worker);
    if w == worker {
      assert Running(t, |s.pool|) && t.pool[|s.pool|].worker == w;
    } else if i :| Running(s, i) && s.pool[i].worker == w {
      assert Running(t, i) && t.pool[i].worker == w;
    } else {
      var x :| ReviewInFlight(s, x) && WorkerOf(s.reviews[x].payload) == w;
      assert ReviewInFlight(t, x);
    }
  }

  lemma ClaimKeepsAllBusy(active: set<string>, s: State, id: Id, from: Status, to: Status, worker: string)
    requires from in CLAIMABLE && AllBusy(active, s)
    ensures AllBusy(if worker == "" then active else active + {worker}, Submitted(Taken(s, id, from, to), id, worker))
  {
    forall w | w in active || w == worker ensures Busy(Submitted(Taken(s, id, from, to), id, worker), w) {
      ClaimKeepsBusy(s, id, from, to, worker, w);
    }
  }

  lemma ClaimKeepsExhausted(s: State, id: Id, from: Status, to: Status, worker: string, status: Status,
    window: seq<Id>, upto: nat)
    requires from in CLAIMABLE && to !in CLAIMABLE && status in CLAIMABLE
    requires Exhausted(s, status, window, upto)
    ensures Exhausted(Submitted(Taken(s, id, from, to), id, worker), status, window, upto)
  {
    var t := Submitted(Taken(s, id, from, to), id, worker);
    forall j | 0 <= j < upto && j < |window| && Waiting(t, status, window[j])
      ensures WorkerOf(t.reviews[window[j]].payload) != "" && Busy(t, WorkerOf(t.reviews[window[j]].payload))
    {
      ClaimKeepsBusy(s, id, from, to, worker, WorkerOf(t.reviews[window[j]].payload));
    }
  }

  lemma LiveWorkers(s: State, active: set<string>, maxParallel: int)
    requires Inv(s, maxParallel)
    requires active ==
      set id | id in s.futures && !s.pool[s.futures[id]].done && s.futureWorkers[id] != "" :: s.futureWorkers[id]
    ensures CoversRunning(active, s) && AllBusy(active, s)
  {
    forall i | Running(s, i) && s.pool[i].worker != "" ensures s.pool[i].worker in active {
      assert s.futures[s.pool[i].id] == i;
    }
    forall w | w in active ensures w != "" && Busy(s, w) {
      var id :| id in s.futures && !s.pool[s.futures[id]].done && s.futureWorkers[id] == w;
      assert Running(s, s.futures[id]) && s.pool[s.futures[id]].worker == w;
    }
  }

  lemma MoreCover(active: set<string>, worker: string, s: State, id: Id)
    requires worker != "" && CoversRunning(active, s)
    requires ReviewInFlight(s, id) && WorkerOf(s.reviews[id].payload) == worker
    ensures CoversRunning(active + {worker}, s)
    ensures AllBusy(active, s) ==> AllBusy(active + {worker}, s)
  {
  }

  lemma DriftClock(a: State, b: State)
    requires Drift(a, b)
    ensures a.clock <= b.clock
  {
  }

  /** No approval older than an hour at time `t` is waiting, and none was claimed since `from`. */
  ghost predicate Fresh(s: State, history: seq<Op>, from: nat, t: int) {
    NoStale(s, t, []) && t <= s.clock && FreshApprovalsClaimed(history, from, t)
  }

  lemma DriftKeepsFresh(a: State, before: seq<Op>, b: State, after: seq<Op>, from: nat, t: int)
    requires Drift(a, b) && NoNewClaims(before, after)
    ensures Fresh(a, before, from, t) ==> Fresh(b, after, from, t)
  {
    if Fresh(a, before, from, t) {
      DriftKeepsNoStale(a, b, t, []);
      NoNewClaimsKeepFresh(before, after, from, t);
    }
  }

  lemma TakeKeepsFresh(s: State, history: seq<Op>, id: Id, status: Status, to: Status, from: nat, t: int)
    requires s.reviews == Replay(map[], history) && to != Approved && id != ""
    ensures Fresh(s, history, from, t) ==>
      Fresh(Taken(s, id, status, to), history + [Claim(id, {status}, to, s.clock)], from, t)
  {
    if Fresh(s, history, from, t) {
      TakeKeepsNoStale(s, id, status, to, t);
      AppendKeepsFreshClaims(history, Claim(id, {status}, to, s.clock), from, t);
    }
  }

  /** Workers of the started reviews: new to the active set, all different, and in it now. */
  ghost predicate StartedFresh(m: Reviews, started: seq<Id>, active0: set<string>, active: set<string>) {
    && (forall i :: 0 <= i < |started| ==> started[i] in m && (WorkerOf(m[started[i]].payload) != "" ==>
      WorkerOf(m[started[i]].payload) in active && WorkerOf(m[started[i]].payload) !in active0))
    && (forall i, j :: 0 <= i < j < |started| && WorkerOf(m[started[i]].payload) == WorkerOf(m[started[j]].payload) ==>
      WorkerOf(m[started[i]].payload) == "")
  }

  ghost predicate PayloadsKept(a: Reviews, b: Reviews) {
    forall id :: id in a ==> id in b && b[id].payload == a[id].payload
  }

  lemma StartOneMore(m: Reviews, n: Reviews, started: seq<Id>, id: Id, active0: set<string>, active: set<string>)
    requires PayloadsKept(m, n) && StartedFresh(m, started, active0, active) && active0 <= active
    requires id in m && (WorkerOf(m[id].payload) != "" ==> WorkerOf(m[id].payload) !in active)
    ensures StartedFresh(n, started + [id], active0,
      if WorkerOf(m[id].payload) == "" then active else active + {WorkerOf(m[id].payload)})
  {
  }

  lemma StartedStay(m: Reviews, n: Reviews, started: seq<Id>, active0: set<string>, active: set<string>)
    requires PayloadsKept(m, n) && StartedFresh(m, started, active0, active)
    ensures StartedFresh(n, started, active0, active)
  {
  }

  lemma StartedJoin(m: Reviews, a: seq<Id>, b: seq<Id>, active0: set<string>, active1: set<string>,
    active2: set<string>)
    requires active0 <= active1 <= active2
    requires StartedFresh(m, a, active0, active1) && StartedFresh(m, b, active1, active2)
    ensures StartedFresh(m, a + b, active0, active2)
  {
  }

  lemma DriftKeepsPayloads(a: State, b: State)
    requires Drift(a, b)
    ensures PayloadsKept(a.reviews, b.reviews)
  {
  }

  /** Windows already scanned in this tick, with the status each was listed for. */
  ghost predicate AllExhausted(s: State, scanned: seq<(Status, seq<Id>)>) {
    forall k :: 0 <= k < |scanned| ==> Exhausted(s, scanned[k].0, scanned[k].1, |scanned[k].1|)
  }

  /** The tick has gone through its statuses, in their order. */
  ghost predicate AllStatuses(scanned: seq<(Status, seq<Id>)>, autoDeploy: bool) {
    && |scanned| == (if autoDeploy then 3 else 2)
    && scanned[0].0 == Pending && scanned[1].0 == RetryRequested && (autoDeploy ==> scanned[2].0 == Approved)
  }

  lemma DifferentStatuses(statuses: seq<Status>)
    requires statuses in {[Pending, RetryRequested], [Pending, RetryRequested] + [Approved]}
    ensures Distinct(statuses) && forall k :: 0 <= k < |statuses| ==> statuses[k] in CLAIMABLE
  {
  }

  lemma ClaimKeepsAllExhausted(s: State, id: Id, from: Status, to: Status, worker: string,
    scanned: seq<(Status, seq<Id>)>)
    requires from in CLAIMABLE && to !in CLAIMABLE && AllExhausted(s, scanned)
    requires forall k :: 0 <= k < |scanned| ==> scanned[k].0 in CLAIMABLE
    ensures AllExhausted(Submitted(Taken(s, id, from, to), id, worker), scanned)
  {
    forall k | 0 <= k < |scanned|
      ensures Exhausted(Submitted(Taken(s, id, from, to), id, worker), scanned[k].0, scanned[k].1, |scanned[k].1|)
    {
      ClaimKeepsExhausted(s, id, from, to, worker, scanned[k].0, scanned[k].1, |scanned[k].1|);
    }
  }

  function ClaimTarget(status: Status): Status {
    if status == Approved then Deploying else CodexReviewing
  }

  /** The started reviews were claimed at time `t`, and no other review changed. */
  ghost predicate OnlyStartedMoved(a: Reviews, b: Reviews, started: seq<Id>, t: int) {
    && a.Keys == b.Keys
    && (forall id :: id in a && id !in started ==> b[id] == a[id])
    && (forall id :: id in started ==>
      && id in a && a[id].status in {Pending, RetryRequested, Approved}
      && b[id] == a[id].(status := if a[id].status == Approved then Deploying else CodexReviewing, updatedAt := t))
  }

  lemma ClaimMovesOne(a: Reviews, s: State, started: seq<Id>, id: Id, status: Status)
    requires OnlyStartedMoved(a, s.reviews, started, s.clock) && status in CLAIMABLE
    requires id in s.reviews && s.reviews[id].status == status
    ensures OnlyStartedMoved(a, Taken(s, id, status, ClaimTarget(status)).reviews, started + [id], s.clock)
  {
  }

  lemma StartsJoin(a: Reviews, b: Reviews, c: Reviews, first: seq<Id>, second: seq<Id>, t: int)
    requires OnlyStartedMoved(a, b, first, t) && OnlyStartedMoved(b, c, second, t)
    ensures OnlyStartedMoved(a, c, first + second, t)
  {
  }

  /** Only reviews of `status` moved, and those that did are no longer claimable. */
  ghost predicate OthersKept(a: Reviews, b: Reviews, status: Status) {
    && a.Keys == b.Keys
    && forall id :: id in a ==> b[id] == a[id] || (a[id].status == status && b[id].status !in CLAIMABLE)
  }

  /** The same reviews, in the same shape, are in `status` on both sides. */
  ghost predicate SameIn(a: Reviews, b: Reviews, status: Status) {
    forall id :: (id in a && a[id].status == status) || (id in b && b[id].status == status) ==>
      id in a && id in b && a[id] == b[id]
  }

  lemma SameInWindow(a: Reviews, b: Reviews, status: Status, limit: nat, w: seq<Id>)
    requires SameIn(a, b, status) && IsWindow(b, status, limit, w)
    ensures IsWindow(a, status, limit, w)
  {
    assert WithStatus(a, status) == WithStatus(b, status);
  }

  lemma OthersKeepSame(a: Reviews, b: Reviews, c: Reviews, moved: Status, status: Status)
    requires SameIn(a, b, status) && OthersKept(b, c, moved)
    requires status != moved && status in CLAIMABLE
    ensures SameIn(a, c, status)
  {
  }

  lemma TakeKeepsCover(active: set<string>, s: State, id: Id, from: Status, to: Status)
    requires CoversRunning(active, s)
    ensures CoversRunning(active, Taken(s, id, from, to))
  {
    assert forall i :: Running(Taken(s, id, from, to), i) ==> Running(s, i);
  }

  lemma NotRunning(active: set<string>, worker: string, s: State)
    requires CoversRunning(active, s) && (worker != "" ==> worker !in active)
    ensures worker != "" ==> forall i :: Running(s, i) ==> s.pool[i].worker != worker
  {
  }

  lemma SubmitKeepsFresh(s: State, history: seq<Op>, id: Id, worker: string, from: nat, t: int)
    ensures Fresh(s, history, from, t) ==> Fresh(Submitted(s, id, worker), history, from, t)
  {
  }

  /** What the claim loop of one window keeps whatever others do. */
  ghost predicate ClaimLoop(first: Reviews, s: State, active0: set<string>, active: set<string>, started: seq<Id>) {
    && PayloadsKept(first, s.reviews) && active0 <= active
    && CoversRunning(active, s) && StartedFresh(s.reviews, started, active0, active)
  }

  /** What it keeps before its `n`-th review when nobody interferes. */
  ghost predicate QuietLoop(start: State, s: State, active: set<string>, scanned: seq<(Status, seq<Id>)>,
    started: seq<Id>,
                            status: Status, window: seq<Id>, n: nat) {
    && AllBusy(active, s) && AllExhausted(s, scanned) && OthersKept(start.reviews, s.reviews, status)
    && OnlyStartedMoved(start.reviews, s.reviews, started, s.clock) && s.clock == start.clock
    && Exhausted(s, status, window, n)
    && forall m :: n <= m < |window| ==> window[m] in s.reviews && s.reviews[window[m]].status == status
  }

  /** The loop stopped at the end of the window, or before it with the pool full. */
  ghost predicate WindowDone(start: State, s: State, active: set<string>, scanned: seq<(Status, seq<Id>)>,
    started: seq<Id>,
                             status: Status, window: seq<Id>, full: bool) {
    exists n: nat :: QuietLoop(start, s, active, scanned, started, status, window, n) && (full || n == |window|)
  }

  lemma WindowDoneMeans(start: State, s: State, active: set<string>, scanned: seq<(Status, seq<Id>)>, started: seq<Id>,
                        status: Status, window: seq<Id>, full: bool)
    requires WindowDone(start, s, active, scanned, started, status, window, full)
    ensures AllBusy(active, s) && AllExhausted(s, scanned) && OthersKept(start.reviews, s.reviews, status)
    ensures OnlyStartedMoved(start.reviews, s.reviews, started, s.clock) && s.clock == start.clock
    ensures full || Exhausted(s, status, window, |window|)
  {
    hide QuietLoop;
    var n: nat :| QuietLoop(start, s, active, scanned, started, status, window, n) && (full || n == |window|);
    LeaveQuietLoop(start, s, active, scanned, started, status, window, n);
  }

  lemma SkipKeepsQuiet(start: State, s: State, active: set<string>, scanned: seq<(Status, seq<Id>)>, started: seq<Id>,
                       status: Status, window: seq<Id>, n: nat)
    requires QuietLoop(start, s, active, scanned, started, status, window, n) && n < |window|
    requires window[n] == "" || WorkerOf(s.reviews[window[n]].payload) in active
    ensures QuietLoop(start, s, active, scanned, started, status, window, n + 1)
  {
    hide OthersKept, OnlyStartedMoved, AllExhausted;
  }

  /** One undisturbed claim carries every fact of the claim loop to the next review. */
  lemma ClaimKeepsQuiet(start: State, s: State, active: set<string>, scanned: seq<(Status, seq<Id>)>, started: seq<Id>,
                        status: Status, window: seq<Id>, n: nat)
    requires QuietLoop(start, s, active, scanned, started, status, window, n)
    requires n < |window| && Distinct(window) && status in CLAIMABLE
    requires forall k :: 0 <= k < |scanned| ==> scanned[k].0 in CLAIMABLE
    ensures var worker := WorkerOf(s.reviews[window[n]].payload);
      QuietLoop(start, Submitted(Taken(s, window[n], status, ClaimTarget(status)), window[n], worker),
                if worker == "" then active else active + {worker},
                scanned, started + [window[n]], status, window, n + 1)
  {
    hide AllBusy, AllExhausted, OnlyStartedMoved;
    var id, worker, to := window[n], WorkerOf(s.reviews[window[n]].payload), ClaimTarget(status);
    ClaimKeepsAllBusy(active, s, id, status, to, worker);
    ClaimKeepsAllExhausted(s, id, status, to, worker, scanned);
    ClaimKeepsExhausted(s, id, status, to, worker, status, window, n);
    ClaimMovesOne(start.reviews, s, started, id, status);
  }

  lemma LostClaimKeepsLoop(first: Reviews, s: State, t: State, active0: set<string>, active: set<string>,
    started: seq<Id>)
    requires ClaimLoop(first, s, active0, active, started)
    requires PayloadsKept(s.reviews, t.reviews) && CoversRunning(active, t)
    ensures ClaimLoop(first, t, active0, active, started)
  {
  }

  lemma WonClaimKeepsLoop(first: Reviews, s: State, t: State, id: Id, active0: set<string>, active: set<string>,
    started: seq<Id>)
    requires ClaimLoop(first, s, active0, active, started)
    requires id in s.reviews && PayloadsKept(s.reviews, t.reviews)
    requires var worker := WorkerOf(s.reviews[id].payload);
      && (worker != "" ==> worker !in active)
      && CoversRunning(if worker == "" then active else active + {worker}, t)
    ensures var worker := WorkerOf(s.reviews[id].payload);
      ClaimLoop(first, t, active0, if worker == "" then active else active + {worker}, started + [id])
  {
    StartOneMore(s.reviews, t.reviews, started, id, active0, active);
  }

  lemma LaterLoop(first: Reviews, later: Reviews, s: State, active0: set<string>, active: set<string>, started: seq<Id>)
    requires PayloadsKept(first, later) && ClaimLoop(later, s, active0, active, started)
    ensures ClaimLoop(first, s, active0, active, started)
  {
    PayloadsKeptTransitive(first, later, s.reviews);
  }

  lemma RestOfStatuses(statuses: seq<Status>, k: nat)
    requires k < |statuses| && Distinct(statuses)
    ensures Distinct(statuses[k..]) && statuses[k..][0] == statuses[k] && statuses[k..][1..] == statuses[k + 1..]
    ensures forall j :: 0 <= j < |statuses[k..]| ==> statuses[k..][j] in statuses
  {
  }

  lemma PayloadsKeptTransitive(a: Reviews, b: Reviews, c: Reviews)
    requires PayloadsKept(a, b) && PayloadsKept(b, c)
    ensures PayloadsKept(a, c)
  {
  }

  lemma EnterLoop(s: State, active: set<string>)
    requires CoversRunning(active, s)
    ensures ClaimLoop(s.reviews, s, active, active, [])
  {
  }

  lemma EnterQuietLoop(s: State, active: set<string>, scanned: seq<(Status, seq<Id>)>, status: Status, window: seq<Id>)
    requires AllBusy(active, s) && AllExhausted(s, scanned)
    requires forall id :: id in window ==> id in s.reviews && s.reviews[id].status == status
    ensures QuietLoop(s, s, active, scanned, [], status, window, 0)
  {
  }

  lemma LeaveLoop(first: Reviews, s: State, active0: set<string>, active: set<string>, started: seq<Id>)
    requires ClaimLoop(first, s, active0, active, started)
    ensures PayloadsKept(first, s.reviews) && active0 <= active
    ensures CoversRunning(active, s) && StartedFresh(s.reviews, started, active0, active)
  {
  }

  lemma LeaveQuietLoop(start: State, s: State, active: set<string>, scanned: seq<(Status, seq<Id>)>, started: seq<Id>,
                       status: Status, window: seq<Id>, n: nat)
    requires QuietLoop(start, s, active, scanned, started, status, window, n)
    ensures AllBusy(active, s) && AllExhausted(s, scanned) && OthersKept(start.reviews, s.reviews, status)
    ensures OnlyStartedMoved(start.reviews, s.reviews, started, s.clock) && s.clock == start.clock
    ensures Exhausted(s, status, window, n)
    ensures n < |window| ==> window[n] in s.reviews && s.reviews[window[n]].status == status
  {
  }

  /** The claim loops of two statuses, one after the other. */
  lemma LoopsJoin(first: Reviews, mid: State, s: State, active0: set<string>, active1: set<string>, active: set<string>,
                  started: seq<Id>, more: seq<Id>)
    requires ClaimLoop(first, mid, active0, active1, started) && ClaimLoop(mid.reviews, s, active1, active, more)
    ensures ClaimLoop(first, s, active0, active, started + more)
  {
    StartedStay(mid.reviews, s.reviews, started, active0, active1);
    StartedJoin(s.reviews, started, more, active0, active1, active);
  }

  /** Before the statuses in `rest` are listed, when nobody interferes: the windows so far are those of the start, the
      remaining statuses are as at the start, and nothing but claims was made. */
  ghost predicate QuietScan(start: State, s: State, scanned: seq<(Status, seq<Id>)>, started: seq<Id>,
    rest: seq<Status>) {
    && (forall k :: 0 <= k < |scanned| ==> IsWindow(start.reviews, scanned[k].0, 20, scanned[k].1))
    && (forall k :: 0 <= k < |rest| ==> SameIn(start.reviews, s.reviews, rest[k]))
    && OnlyStartedMoved(start.reviews, s.reviews, started, s.clock) && s.clock == start.clock
  }

  lemma QuietScanStarts(s: State, rest: seq<Status>)
    ensures QuietScan(s, s, [], [], rest)
  {
  }

  lemma QuietScanStep(start: State, mid: State, s: State, scanned: seq<(Status, seq<Id>)>, started: seq<Id>,
    more: seq<Id>,
                      rest: seq<Status>, window: seq<Id>)
    requires QuietScan(start, mid, scanned, started, rest) && rest != [] && Distinct(rest)
    requires forall k :: 0 <= k < |rest| ==> rest[k] in CLAIMABLE
    requires IsWindow(mid.reviews, rest[0], 20, window) && OthersKept(mid.reviews, s.reviews, rest[0])
    requires OnlyStartedMoved(mid.reviews, s.reviews, more, s.clock) && s.clock == mid.clock
    ensures QuietScan(start, s, scanned + [(rest[0], window)], started + more, rest[1..])
  {
    hide IsWindow, SameIn, OthersKept, OnlyStartedMoved;
    SameInWindow(start.reviews, mid.reviews, rest[0], 20, window);
    StartsJoin(start.reviews, mid.reviews, s.reviews, started, more, s.clock);
    forall k | 1 <= k < |rest| ensures SameIn(start.reviews, s.reviews, rest[k]) {
      OthersKeepSame(start.reviews, mid.reviews, s.reviews, rest[0], rest[k]);
    }
  }

  lemma QuietScanMeans(start: State, s: State, scanned: seq<(Status, seq<Id>)>, started: seq<Id>, rest: seq<Status>)
    requires QuietScan(start, s, scanned, started, rest)
    ensures forall k :: 0 <= k < |scanned| ==> IsWindow(start.reviews, scanned[k].0, 20, scanned[k].1)
    ensures OnlyStartedMoved(start.reviews, s.reviews, started, s.clock) && s.clock == start.clock
  {
  }

  lemma KeptMember(a: Reviews, b: Reviews, id: Id)
    requires PayloadsKept(a, b) && id in a
    ensures id in b && b[id].payload == a[id].payload
  {
  }

  lemma CollectedRunning(s: State)
    ensures RunningIds(Collected(s)) == RunningIds(s)
  {
  }

  lemma ExhaustedOneMore(s: State, scanned: seq<(Status, seq<Id>)>, status: Status, window: seq<Id>)
    requires AllExhausted(s, scanned) && Exhausted(s, status, window, |window|)
    ensures AllExhausted(s, scanned + [(status, window)])
  {
  }

  lemma FreshStart(s: State, history: seq<Op>, t: int, longer: seq<Op>)
    requires NoStale(s, t, []) && t <= s.clock && NoNewClaims(history, longer)
    ensures Fresh(s, longer, |history|, t)
  {
  }

  lemma FreshClaims(s: State, history: seq<Op>, from: nat, t: int)
    requires Fresh(s, history, from, t)
    ensures FreshApprovalsClaimed(history, from, t)
  {
  }

  lemma NoneExhausted(s: State)
    ensures AllExhausted(s, [])
  {
  }

  /** When every in-flight review belongs to a running task, a busy worker is held by one. */
  lemma BusyMeansRunning(s: State, worker: string, maxParallel: int)
    requires Inv(s, maxParallel) && Busy(s, worker)
    requires forall id :: ReviewInFlight(s, id) ==> id in RunningIds(s)
    ensures exists i :: Running(s, i) && s.pool[i].worker == worker
  {
    if id :| ReviewInFlight(s, id) && WorkerOf(s.reviews[id].payload) == worker {
      var i :| 0 <= i < |s.pool| && !s.pool[i].done && s.pool[i].id == id;
      assert Running(s, i);
    }
  }

  // ---------------------------------------------------------------- what was claimed and launched

  /** The reviews won by the claims recorded from position `from` on, in order. */
  ghost function Winners(history: seq<Op>, from: nat): seq<Id> {
    if |history| <= from then []
    else
      var init, last := history[..|history| - 1], history[|history| - 1];
      Winners(init, from) + if Wins(Replay(map[], init), last) then [last.id] else []
  }

  lemma {:induction false} NoNewWinners(history: seq<Op>, longer: seq<Op>, from: nat)
    requires NoNewClaims(history, longer)
    ensures Winners(longer, from) == Winners(history, from)
    decreases |longer|
  {
    if |history| < |longer| {
      var init := longer[..|longer| - 1];
      assert init[..|history|] == history;
      NoNewWinners(history, init, from);
      if |longer| <= from {
        NoneBefore(history, from);
      }
    } else {
      assert longer == history;
    }
  }

  lemma NoneBefore(history: seq<Op>, from: nat)
    requires |history| <= from
    ensures Winners(history, from) == []
  {
  }

  lemma ClaimAddsWinner(history: seq<Op>, op: Op, from: nat, before: Reviews)
    requires from <= |history| && before == Replay(map[], history)
    ensures Winners(history + [op], from) == Winners(history, from) + if Wins(before, op) then [op.id] else []
  {
    assert (history + [op])[..|history|] == history;
  }

  /** The reviews handed to the pool since the process started, in order. */
  ghost function TaskIds(s: State): seq<Id> {
    seq(|s.pool|, i requires 0 <= i < |s.pool| => s.pool[i].id)
  }

  lemma DriftKeepsTasks(a: State, b: State)
    requires Drift(a, b)
    ensures TaskIds(b) == TaskIds(a)
  {
  }

  lemma SubmitAddsTask(s: State, id: Id, worker: string)
    ensures TaskIds(Submitted(s, id, worker)) == TaskIds(s) + [id]
  {
  }

  lemma CollectedTasks(s: State)
    ensures TaskIds(Collected(s)) == TaskIds(s)
  {
  }

  lemma ContinuesLonger(history: seq<Op>, longer: seq<Op>)
    requires NoNewClaims(history, longer)
    ensures Continues(history, longer) && |history| <= |longer|
  {
  }

  lemma TakeKeepsTasks(s: State, id: Id, from: Status, to: Status)
    ensures TaskIds(Taken(s, id, from, to)) == TaskIds(s)
  {
  }

  // ---------------------------------------------------------------- one tick

  /** The states in which a tick listed the in-flight reviews, the approvals, and what to claim. */
  datatype TickStates = TickStates(codexAt: State, deployingAt: State, approvedAt: State, claimAt: State)

  /** They are states of this tick: each follows from the one before by what others and the recovery may do, and is
      what the history after `before` had made of the store. */
  ghost predicate IsTick(start: State, before: seq<Op>, tick: TickStates, history: seq<Op>) {
    && Drift(Collected(start), tick.codexAt) && Visited(tick.codexAt, |before|, history)
    && Drift(tick.codexAt, tick.deployingAt) && Drift(tick.deployingAt, tick.approvedAt) &&
      Drift(tick.approvedAt, tick.claimAt)
    && Visited(tick.deployingAt, |before|, history) && Visited(tick.approvedAt, |before|, history)
    && Visited(tick.claimAt, |before|, history)
  }

  lemma TickIs(start: State, before: seq<Op>, tick: TickStates, history: seq<Op>)
    requires Drift(Collected(start), tick.codexAt) && Visited(tick.codexAt, |before|, history)
    requires Drift(tick.codexAt, tick.deployingAt) && Drift(tick.deployingAt, tick.approvedAt) &&
      Drift(tick.approvedAt, tick.claimAt)
    requires Visited(tick.deployingAt, |before|, history) && Visited(tick.approvedAt, |before|, history)
    requires Visited(tick.claimAt, |before|, history)
    ensures IsTick(start, before, tick, history)
  {
  }

  lemma TickStays(start: State, before: seq<Op>, tick: TickStates, history: seq<Op>, longer: seq<Op>)
    requires IsTick(start, before, tick, history) && Continues(history, longer)
    ensures IsTick(start, before, tick, longer)
  {
    hide Visited, Drift, Continues, Collected;
    VisitedStays(tick.codexAt, |before|, history, longer);
    VisitedStays(tick.deployingAt, |before|, history, longer);
    VisitedStays(tick.approvedAt, |before|, history, longer);
    VisitedStays(tick.claimAt, |before|, history, longer);
  }

  /** An undisturbed recovery lists what there was at its start. */
  lemma QuietRecovery(start: State, live: set<Id>, codex: seq<Id>, deploying: seq<Id>, approved: seq<Id>,
    tick: TickStates)
    requires tick.codexAt.reviews == start.reviews && tick.approvedAt.clock == tick.claimAt.clock
    requires WithStatus(tick.deployingAt.reviews, Deploying) == WithStatus(start.reviews, Deploying)
    requires IsWindow(start.reviews, CodexReviewing, 100, codex) && IsWindow(start.reviews, Deploying, 100, deploying)
    requires Moved(start.reviews, Orphans(codex + deploying, live), RetryRequested, tick.approvedAt.clock,
      tick.approvedAt.reviews)
    requires IsWindow(tick.approvedAt.reviews, Approved, 100, approved)
    requires AfterStaleScan(tick.approvedAt.reviews, tick.claimAt.clock, approved, tick.claimAt.reviews)
    ensures exists l :: Recovered(start.reviews, live, tick.claimAt.clock, l, tick.claimAt.reviews)
    ensures Uncut(tick) <==> FitsListings(start.reviews)
  {
    hide IsWindow, Moved, Orphans, AfterStaleScan, Recovered, WithStatus;
    var l := Listings(codex, deploying, approved);
    RecoveryJoins(start.reviews, live, tick.claimAt.clock, l, tick.approvedAt.reviews, tick.claimAt.reviews);
  }

  /** No recovery listing of the tick hit its limit. */
  ghost predicate Uncut(tick: TickStates) {
    && |WithStatus(tick.codexAt.reviews, CodexReviewing)| <= 100
    && |WithStatus(tick.deployingAt.reviews, Deploying)| <= 100
    && |WithStatus(tick.approvedAt.reviews, Approved)| <= 100
  }

  /** At most 100 reviews in each of the statuses the recovery lists. */
  ghost predicate FitsListings(m: Reviews) {
    |WithStatus(m, CodexReviewing)| <= 100 && |WithStatus(m, Deploying)| <= 100 && |WithStatus(m, Approved)| <= 100
  }

  /** The set holds the worker of every in-flight review in a status that was listed completely. */
  ghost predicate CoversStatus(active: set<string>, s: State, status: Status) {
    |WithStatus(s.reviews, status)| <= 100 ==>
      forall id :: id in WithStatus(s.reviews, status) ==>
        WorkerOf(s.reviews[id].payload) == "" || WorkerOf(s.reviews[id].payload) in active
  }

  lemma ListedCovers(active: set<string>, s: State, status: Status, window: seq<Id>)
    requires IsWindow(s.reviews, status, 100, window)
    requires forall id :: id in window ==>
      id in s.reviews && (WorkerOf(s.reviews[id].payload) == "" || WorkerOf(s.reviews[id].payload) in active)
    ensures CoversStatus(active, s, status)
  {
    hide WorkerOf;
    if |WithStatus(s.reviews, status)| <= 100 {
      UncutWindowIsAll(s.reviews, status, 100, window);
    }
  }

  lemma MoreCoversStatus(active: set<string>, more: set<string>, s: State, status: Status)
    requires CoversStatus(active, s, status) && active <= more
    ensures CoversStatus(more, s, status)
  {
  }

  // ---------------------------------------------------------------- the two window limits

  ghost function Stale(m: Reviews, t: int): set<Id> {
    set id | id in m && m[id].status == Approved && t - m[id].updatedAt >= 3600
  }

  /** The same reviews, those in `moved` put into status `to` at time `t`. */
  ghost predicate Moved(m: Reviews, moved: set<Id>, to: Status, t: int, n: Reviews) {
    && n.Keys == m.Keys
    && forall id :: id in m ==> n[id] == if id in moved then m[id].(status := to, updatedAt := t) else m[id]
  }

  lemma NoneMoved(m: Reviews, to: Status, t: int)
    ensures Moved(m, {}, to, t, m)
  {
  }

  lemma MoveOne(m: Reviews, moved: set<Id>, to: Status, t: int, n: Reviews, id: Id)
    requires Moved(m, moved, to, t, n) && id in m
    ensures Moved(m, moved + {id}, to, t, Apply(n, Decide(id, to, t)))
  {
  }

  /** The listed in-flight reviews no future is working on. */
  ghost function Orphans(listing: seq<Id>, live: set<Id>): set<Id> {
    set id | id in listing && id != "" && id !in live
  }

  lemma OrphansOneMore(listing: seq<Id>, live: set<Id>, n: nat)
    requires n < |listing|
    ensures Orphans(listing[..n + 1], live) ==
      if listing[n] != "" && listing[n] !in live then Orphans(listing[..n], live) + {listing[n]}
      else Orphans(listing[..n], live)
  {
    assert listing[..n + 1] == listing[..n] + [listing[n]];
  }

  /** The listed stale approvals. */
  ghost function StaleListed(m: Reviews, t: int, listing: seq<Id>): set<Id> {
    set id | id in listing && id != "" && id in Stale(m, t)
  }

  lemma StaleOneMore(m: Reviews, t: int, listing: seq<Id>, n: nat)
    requires n < |listing|
    ensures StaleListed(m, t, listing[..n + 1]) ==
      if listing[n] != "" && listing[n] in Stale(m, t) then StaleListed(m, t, listing[..n]) + {listing[n]}
      else StaleListed(m, t, listing[..n])
  {
    assert listing[..n + 1] == listing[..n] + [listing[n]];
  }

  lemma NoStaleListed(m: Reviews, t: int, listing: seq<Id>)
    ensures StaleListed(m, t, listing[..0]) == {}
  {
  }

  lemma NoOrphansAtFirst(listing: seq<Id>, live: set<Id>)
    ensures Orphans(listing[..0], live) == {}
  {
  }

  /** The table after the stale scan has moved the stale entries of its listing to people. */
  ghost predicate AfterStaleScan(m: Reviews, t: int, listing: seq<Id>, n: Reviews) {
    Moved(m, StaleListed(m, t, listing), NeedsHuman, t, n)
  }

  /** What the three recovery scans of an undisturbed tick listed. */
  datatype Listings = Listings(codex: seq<Id>, deploying: seq<Id>, approved: seq<Id>)

  ghost predicate AreListings(m: Reviews, l: Listings) {
    && IsWindow(m, CodexReviewing, 100, l.codex)
    && IsWindow(m, Deploying, 100, l.deploying)
    && IsWindow(m, Approved, 100, l.approved)
  }

  /** An undisturbed recovery: listed in-flight reviews without a live future are queued again, listed stale
      approvals go to people, and every other review is as it was. */
  ghost predicate Recovered(m: Reviews, live: set<Id>, t: int, l: Listings, n: Reviews) {
    && AreListings(m, l)
    && n.Keys == m.Keys
    && forall id :: id in m ==> n[id] == RecoveredReview(m, live, t, l, id)
  }

  ghost function RecoveredReview(m: Reviews, live: set<Id>, t: int, l: Listings, id: Id): Review
    requires id in m
  {
    if id in Orphans(l.codex + l.deploying, live) then m[id].(status := RetryRequested, updatedAt := t)
    else if id in StaleListed(m, t, l.approved) then m[id].(status := NeedsHuman, updatedAt := t)
    else m[id]
  }

  /** Queueing again the orphans of one in-flight status changes neither the other one nor the approvals. */
  lemma RequeueKeepsStatus(m: Reviews, listing: seq<Id>, live: set<Id>, from: Status, t: int, n: Reviews,
    status: Status)
    requires Moved(m, Orphans(listing, live), RetryRequested, t, n) && from != status && status != RetryRequested
    requires forall id :: id in listing ==> id in m && m[id].status == from
    ensures SameIn(m, n, status) && WithStatus(m, status) == WithStatus(n, status)
  {
  }

  lemma OrphansJoin(m: Reviews, codex: seq<Id>, deploying: seq<Id>, live: set<Id>, t: int, mid: Reviews, n: Reviews)
    requires Moved(m, Orphans(codex, live), RetryRequested, t, mid)
    requires Moved(mid, Orphans(deploying, live), RetryRequested, t, n)
    ensures Moved(m, Orphans(codex + deploying, live), RetryRequested, t, n)
  {
    assert Orphans(codex + deploying, live) == Orphans(codex, live) + Orphans(deploying, live);
  }

  lemma RecoveryJoins(m: Reviews, live: set<Id>, t: int, l: Listings, mid: Reviews, n: Reviews)
    requires IsWindow(m, CodexReviewing, 100, l.codex) && IsWindow(m, Deploying, 100, l.deploying)
    requires Moved(m, Orphans(l.codex + l.deploying, live), RetryRequested, t, mid)
    requires IsWindow(mid, Approved, 100, l.approved) && AfterStaleScan(mid, t, l.approved, n)
    ensures Recovered(m, live, t, l, n) && WithStatus(m, Approved) == WithStatus(mid, Approved)
  {
    hide IsWindow, WithStatus, SameIn, Orphans, StaleListed, Moved;
    WindowKnown(m, CodexReviewing, 100, l.codex);
    WindowKnown(m, Deploying, 100, l.deploying);
    WindowKnown(mid, Approved, 100, l.approved);
    ApprovalsKept(m, live, t, l, mid);
    SameInWindow(m, mid, Approved, 100, l.approved);
    ScansApart(m, live, t, l, mid, n);
  }

  /** The orphan scans leave the approvals alone. */
  lemma ApprovalsKept(m: Reviews, live: set<Id>, t: int, l: Listings, mid: Reviews)
    requires Moved(m, Orphans(l.codex + l.deploying, live), RetryRequested, t, mid)
    requires forall id :: id in l.codex + l.deploying ==> id in m && m[id].status != Approved
    ensures SameIn(m, mid, Approved) && WithStatus(m, Approved) == WithStatus(mid, Approved)
    ensures StaleListed(m, t, l.approved) == StaleListed(mid, t, l.approved)
  {
  }

  lemma ScansApart(m: Reviews, live: set<Id>, t: int, l: Listings, mid: Reviews, n: Reviews)
    requires Moved(m, Orphans(l.codex + l.deploying, live), RetryRequested, t, mid)
    requires Moved(mid, StaleListed(m, t, l.approved), NeedsHuman, t, n)
    requires forall id :: id in l.codex + l.deploying ==> id in m && m[id].status != Approved
    ensures n.Keys == m.Keys && forall id :: id in m ==> n[id] == RecoveredReview(m, live, t, l, id)
  {
  }

  lemma YoungBeforeStale(m: Reviews, t: int, limit: nat, listing: seq<Id>, id: Id, young: Id)
    requires IsWindow(m, Approved, limit, listing)
    requires id in listing && id in Stale(m, t)
    requires young in WithStatus(m, Approved) && young !in Stale(m, t)
    ensures young in listing
  {
    var i :| 0 <= i < |listing| && listing[i] == id;
  }

  /** When the scan left no stale approval there were at most 100 approvals, or more than 100 young
      ones. */
  lemma ScanReachedAll(m: Reviews, t: int, listing: seq<Id>)
    requires IsWindow(m, Approved, 100, listing)
    requires forall id :: id in Stale(m, t) ==> id in listing
    ensures |WithStatus(m, Approved)| <= 100 || |WithStatus(m, Approved) - Stale(m, t)| > 100
  {
    var approved, stale := WithStatus(m, Approved), Stale(m, t);
    var listed := set id | id in listing;
    DistinctLength(listing, listed);
    if stale == {} {
      assert approved - stale == approved;
    } else {
      var x :| x in stale;
      forall id | id in approved ensures id in listed {
        if id !in stale {
          YoungBeforeStale(m, t, 100, listing, x, id);
        }
      }
      SubsetSize(approved, listed);
    }
  }

  lemma AfterScan(m: Reviews, t: int, listing: seq<Id>, n: Reviews) returns (missed: set<Id>)
    requires AfterStaleScan(m, t, listing, n) && "" !in WithStatus(m, Approved)
    ensures Stale(m, t) <= WithStatus(m, Approved) && Stale(n, t) == missed
    ensures missed == set id | id in Stale(m, t) && id !in listing
    ensures WithStatus(n, Approved) - Stale(n, t) == WithStatus(m, Approved) - Stale(m, t)
  {
    missed := set id | id in Stale(m, t) && id !in listing;
  }

  /** After the scan of the newest 100 approvals, the newest 20 that remain are all less than an hour
      old exactly when there were at most 100 approvals or at least 20 young ones. */
  lemma StaleEscapesScan(m: Reviews, t: int, listing: seq<Id>, n: Reviews, window: seq<Id>)
    requires IsWindow(m, Approved, 100, listing) && AfterStaleScan(m, t, listing, n)
    requires "" !in WithStatus(m, Approved) && IsWindow(n, Approved, 20, window)
    ensures (forall id :: id in window ==> t - n[id].updatedAt < 3600) <==>
      |WithStatus(m, Approved)| <= 100 || |WithStatus(m, Approved) - Stale(m, t)| >= 20
  {
    hide IsWindow, AfterStaleScan, Stale, WithStatus;
    var missed := AfterScan(m, t, listing, n);
    WindowOfMixed(n, t, 20, window);
    if |WithStatus(m, Approved)| <= 100 {
      UncutWindowIsAll(m, Approved, 100, listing);
    }
    if missed == {} {
      ScanReachedAll(m, t, listing);
    }
  }

  /** A window is free of stale approvals exactly when there are none or enough fresh ones to fill it. */
  lemma WindowOfMixed(m: Reviews, t: int, limit: nat, window: seq<Id>)
    requires IsWindow(m, Approved, limit, window)
    ensures (forall id :: id in window ==> t - m[id].updatedAt < 3600) <==>
      Stale(m, t) == {} || |WithStatus(m, Approved) - Stale(m, t)| >= limit
  {
    var approved, stale := WithStatus(m, Approved), Stale(m, t);
    var shown := set id | id in window;
    DistinctLength(window, shown);
    if exists id :: id in window && id in stale {
      var id :| id in window && id in stale;
      forall young | young in approved - stale ensures young in shown - {id} {
        YoungBeforeStale(m, t, limit, window, id, young);
      }
      SubsetSize(approved - stale, shown - {id});
    } else {
      assert shown <= approved - stale;
      SubsetSize(shown, approved - stale);
    }
  }
}
