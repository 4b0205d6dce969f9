/** The review auditor (src/fmh/codex_auditor.py): one tick, with other threads and people acting
    between any two of its steps. */
module Scheduler {
  import opened Ordering
  import opened ReviewStore
  import opened SchedulerModel

  class Auditor {
    const store: StateStore
    const maxParallel: int
    const autoDeploy: bool
    /** When set, nothing outside the auditor happens. */
    const quiet: bool
    var pool: seq<Task>
    var futures: map<Id, nat>
    var futureWorkers: map<Id, string>
    var clock: int

    function Snap(): State reads this, store {
      State(store.reviews, pool, futures, futureWorkers, clock)
    }

    ghost predicate Valid() reads this, store {
      store.Valid() && maxParallel >= 1 && Inv(Snap(), maxParallel)
    }

    /** A freshly started process over whatever the store holds. */
    constructor (store: StateStore, configuredParallel: int, autoDeploy: bool, quiet: bool, clock: int)
      requires store.Valid()
      ensures Valid() && this.store == store && pool == [] && futures == map[]
      ensures maxParallel == if configuredParallel > 1 then configuredParallel else 1
      ensures this.quiet == quiet && this.autoDeploy == autoDeploy
    {
      this.store := store;
      this.maxParallel := if configuredParallel > 1 then configuredParallel else 1;
      this.autoDeploy := autoDeploy;
      this.quiet := quiet;
      this.clock := clock;
      this.pool := [];
      this.futures := map[];
      this.futureWorkers := map[];
      new;
      assert Live(Snap()) == {};
    }

    /** The process dies at any point and starts again: threads and dictionaries are lost. */
    method Restart()
      requires store.Valid() && maxParallel >= 1
      modifies this
      ensures Valid() && store.reviews == old(store.reviews) && RunningIds(Snap()) == {}
    {
      pool, futures, futureWorkers := [], map[], map[];
      assert Live(Snap()) == {};
    }

    function ActiveCount(): (n: nat)
      requires DictionariesAgree(Snap())
      reads this, store
      ensures n == |Live(Snap())|
    {
      var running := set id | id in futures && !pool[futures[id]].done;
      assert running == Live(Snap());
      |running|
    }

    method Step(e: Event)
      requires Valid() && Enabled(Snap(), e)
      modifies this, store
      ensures Valid() && Snap() == Happen(old(Snap()), e)
      ensures NoNewClaims(old(store.history), store.history)
    {
      hide Inv, Drift;
      ghost var after := Happen(Snap(), e);
      assert Inv(after, maxParallel) by {
        WorkersKnown(Snap(), maxParallel);
        EventDrifts(Snap(), e);
        DriftKeepsInv(Snap(), after, maxParallel);
      }
      match e {
        case ThreadWrite(i, status) => store.DecideReview(pool[i].id, status, clock);
        case Finish(i) => pool := pool[i := pool[i].(done := true)];
        case Human(id, status) => store.DecideReview(id, status, clock);
        case NewReview(id, payload) => store.CreateReview(id, payload, clock);
        case Wait(seconds) => clock := clock + seconds;
      }
      assert Snap() == after;
    }

    /** Other threads and people take any number of steps. */
    method Interfere()
      requires Valid()
      modifies this, store
      ensures Valid() && Drift(old(Snap()), Snap())
      ensures NoNewClaims(old(store.history), store.history)
      ensures quiet ==> Snap() == old(Snap())
    {
      hide Inv, Drift;
      DriftReflexive(Snap());
      var n: nat := *;
      if quiet {
        n := 0;
      }
      while n > 0
        invariant Valid() && Drift(old(Snap()), Snap())
        invariant NoNewClaims(old(store.history), store.history)
        invariant quiet ==> n == 0 && Snap() == old(Snap())
      {
        var e: Event := *;
        if Enabled(Snap(), e) {
          ghost var before, history := Snap(), store.history;
          WorkersKnown(before, maxParallel);
          EventDrifts(before, e);
          Step(e);
          DriftTransitive(old(Snap()), before, Snap());
          NoNewClaimsTransitive(old(store.history), history, store.history);
        }
        n := n - 1;
      }
    }

    static method PopAll<V>(m: map<Id, V>, keys: set<Id>) returns (out: map<Id, V>)
      ensures out == m - keys
    {
      out := m;
      var rest := keys;
      while rest != {}
        invariant rest <= keys && out == m - (keys - rest)
        decreases |rest|
      {
        var id :| id in rest;
        out := out - {id};
        rest := rest - {id};
      }
    }

    /** Forget the futures that are done. */
    method CollectFinished()
      requires Valid()
      modifies this`futures, this`futureWorkers
      ensures Valid() && Snap() == Collected(old(Snap()))
    {
      hide Inv, Collected;
      ghost var before := Snap();
      CollectKeepsInv(before, maxParallel);
      DictionariesKnown(before, maxParallel);
      var finished := set id | id in futures && pool[futures[id]].done;
      futures := PopAll(futures, finished);
      futureWorkers := PopAll(futureWorkers, finished);
      PoppedIsCollected(before, finished);
      assert Snap() == Collected(before);
    }

    /** A decision of the auditor itself that neither claims nor approves. */
    method Requeue(id: Id, status: Status)
      requires Valid() && !InFlight(status) && status != Approved
      modifies store
      ensures Valid() && Drift(old(Snap()), Snap())
      ensures NoNewClaims(old(store.history), store.history)
      ensures store.reviews == Apply(old(store.reviews), Decide(id, status, clock))
    {
      hide Inv, Drift;
      ghost var after := Snap().(reviews := Apply(store.reviews, Decide(id, status, clock)));
      assert Drift(Snap(), after) && Inv(after, maxParallel) by {
        WorkersKnown(Snap(), maxParallel);
        RequeueDrifts(Snap(), id, status);
        DriftKeepsInv(Snap(), after, maxParallel);
      }
      store.DecideReview(id, status, clock);
      assert Snap() == after;
    }

    /** One status of the orphan scan. `cut` tells whether the listing hit its limit of 100. */
    method RequeueOrphans(status: Status, live: set<Id>, ghost running: set<Id>)
      returns (ghost cut: bool, ghost listing: seq<Id>)
      requires Valid() && InFlight(status)
      requires live <= running && RunningIds(Snap()) <= running
      modifies this, store
      ensures Valid() && Drift(old(Snap()), Snap())
      ensures NoNewClaims(old(store.history), store.history)
      ensures cut <==> |WithStatus(old(store.reviews), status)| > 100
      ensures !cut ==> NoOrphans(Snap(), status, running, [])
      ensures IsWindow(old(store.reviews), status, 100, listing)
      ensures quiet ==> Snap() == old(Snap()).(reviews := store.reviews)
      ensures quiet ==> Moved(old(store.reviews), Orphans(listing, live), RetryRequested, clock, store.reviews)
    {
      hide Inv, Drift, IsWindow, NoNewClaims, NoOrphans, Moved, Orphans, WithStatus, Replay, ProperClaims;
      ghost var start, h0 := Snap(), store.history;
      DriftReflexive(start);
      NoNewClaimsReflexive(h0);
      var window := store.ListReviews(100, status);
      listing := window;
      cut := |WithStatus(store.reviews, status)| > 100;
      if !cut {
        UncutWindowIsAll(store.reviews, status, 100, window);
        AllListed(start, status, running, window);
      }
      WindowKnown(store.reviews, status, 100, window);
      ghost var listed := store.reviews;
      NoneMoved(listed, RetryRequested, clock);
      NoOrphansAtFirst(listing, live);
      Interfere();
      if !cut {
        DriftKeepsNoOrphans(start, Snap(), status, running, window[0..]);
      }
      for n := 0 to |window|
        invariant Valid() && Drift(start, Snap()) && NoNewClaims(h0, store.history)
        invariant !cut ==> NoOrphans(Snap(), status, running, window[n..])
        invariant quiet ==> Snap() == start.(reviews := store.reviews)
        invariant quiet ==> Moved(listed, Orphans(listing[..n], live), RetryRequested, start.clock, store.reviews)
      {
        ghost var s1, h1 := Snap(), store.history;
        assert window[n] in window;
        OrphanStep(window, n, live, status, cut, listed, running);
        ghost var s2, h2 := Snap(), store.history;
        DriftTransitive(start, s1, s2);
        NoNewClaimsTransitive(h0, h1, h2);
        DriftShrinks(start, s2);
        Interfere();
        DriftTransitive(start, s2, Snap());
        NoNewClaimsTransitive(h0, h2, store.history);
        if !cut {
          DriftKeepsNoOrphans(s2, Snap(), status, running, window[n + 1..]);
        }
      }
      assert window[..|window|] == window && window[|window|..] == [];
    }

    method OrphanStep(window: seq<Id>, n: nat, live: set<Id>, ghost status: Status, ghost cut: bool,
      ghost listed: Reviews, ghost running: set<Id>)
      requires Valid() && n < |window| && window[n] in listed && live <= running
      requires !cut ==> NoOrphans(Snap(), status, running, window[n..]) && status != RetryRequested
      requires quiet ==> Moved(listed, Orphans(window[..n], live), RetryRequested, clock, store.reviews)
      modifies store
      ensures Valid() && Drift(old(Snap()), Snap()) && NoNewClaims(old(store.history), store.history)
      ensures !cut ==> NoOrphans(Snap(), status, running, window[n + 1..])
      ensures quiet ==> Moved(listed, Orphans(window[..n + 1], live), RetryRequested, clock, store.reviews)
      ensures Snap() == old(Snap()).(reviews := store.reviews)
    {
      hide Inv, Drift, NoNewClaims, Moved, Orphans;
      DriftReflexive(Snap());
      NoNewClaimsReflexive(store.history);
      OrphansOneMore(window, live, n);
      if window[n] != "" && window[n] !in live {
        if quiet {
          MoveOne(listed, Orphans(window[..n], live), RetryRequested, clock, store.reviews, window[n]);
        }
        Requeue(window[n], RetryRequested);
      }
      assert !cut ==> NoOrphans(Snap(), status, running, window[n + 1..]) by {
        assert forall id :: id in window[n..] ==> id == window[n] || id in window[n + 1..];
      }
    }

    /** Put back in the queue every in-flight review no future is working on. `first` and `mid` are the states in which
        the two statuses were listed. */
    method RecoverOrphanedInflight()
      returns (ghost cut: bool, ghost first: State, ghost mid: State, ghost codex: seq<Id>, ghost deploying: seq<Id>)
      requires Valid()
      modifies this, store
      ensures Valid() && Drift(old(Snap()), first) && Drift(first, mid) && Drift(mid, Snap())
      ensures Visited(first, |old(store.history)|, store.history) && Visited(mid, |old(store.history)|, store.history)
      ensures NoNewClaims(old(store.history), store.history)
      ensures cut <==>
        |WithStatus(first.reviews, CodexReviewing)| > 100 || |WithStatus(mid.reviews, Deploying)| > 100
      ensures !cut ==> NoneStranded(Snap(), old(RunningIds(Snap())))
      ensures quiet ==> first == old(Snap()) && Snap() == old(Snap()).(reviews := store.reviews)
      ensures quiet ==> IsWindow(old(store.reviews), CodexReviewing, 100, codex)
      ensures quiet ==> IsWindow(old(store.reviews), Deploying, 100, deploying)
      ensures quiet ==> WithStatus(mid.reviews, Deploying) == WithStatus(old(store.reviews), Deploying)
      ensures quiet ==>
        Moved(old(store.reviews), Orphans(codex + deploying, old(Live(Snap()))), RetryRequested, clock, store.reviews)
    {
      hide Inv, Drift, IsWindow, NoNewClaims, Continues, Moved, Orphans, WithStatus, Visited, SameIn, NoOrphans,
        NoneStranded, Live, RunningIds;
      ghost var start, h0 := Snap(), store.history;
      var live := LiveFutures();
      LiveAreRunning(start);
      Interfere();
      first := Snap();
      ghost var h1 := store.history;
      DriftShrinks(start, first);
      ghost var cut1, cut2;
      cut1, codex := RequeueOrphans(CodexReviewing, live, RunningIds(start));
      mid := Snap();
      ghost var h2 := store.history;
      DriftShrinks(first, mid);
      if quiet {
        WindowKnown(start.reviews, CodexReviewing, 100, codex);
        RequeueKeepsStatus(start.reviews, codex, live, CodexReviewing, clock, mid.reviews, Deploying);
      }
      cut2, deploying := RequeueOrphans(Deploying, live, RunningIds(start));
      cut := cut1 || cut2;
      BothVisited(first, mid, h0, h1, h2, store.history);
      if quiet {
        SameInWindow(start.reviews, mid.reviews, Deploying, 100, deploying);
        OrphansJoin(start.reviews, codex, deploying, live, clock, mid.reviews, store.reviews);
      }
      if !cut {
        DriftKeepsNoOrphans(mid, Snap(), CodexReviewing, RunningIds(start), []);
        NoneLeft(Snap(), RunningIds(start));
      }
    }

    method LiveFutures() returns (live: set<Id>)
      requires Valid()
      ensures live == Live(Snap()) && DictionariesAgree(Snap())
    {
      DictionariesKnown(Snap(), maxParallel);
      live := set id | id in futures && !pool[futures[id]].done;
    }

    /** Hand approvals an hour old or older back to people. */
    method RecoverStaleApproved() returns (ghost cut: bool, ghost listing: seq<Id>)
      requires Valid()
      modifies this, store
      ensures Valid() && Drift(old(Snap()), Snap())
      ensures NoNewClaims(old(store.history), store.history)
      ensures cut <==> |WithStatus(old(store.reviews), Approved)| > 100
      ensures !cut ==> NoStale(Snap(), old(clock), [])
      ensures IsWindow(old(store.reviews), Approved, 100, listing)
      ensures quiet ==> Snap() == old(Snap()).(reviews := store.reviews)
      ensures quiet ==> AfterStaleScan(old(store.reviews), clock, listing, store.reviews)
    {
      hide Inv, Drift, IsWindow, Moved, StaleListed, NoNewClaims, NoStale, WithStatus, Replay, ProperClaims;
      ghost var start, h0 := Snap(), store.history;
      DriftReflexive(start);
      NoNewClaimsReflexive(h0);
      var window := store.ListReviews(100, Approved);
      listing := window;
      var listed := store.reviews;
      cut := |WithStatus(listed, Approved)| > 100;
      if !cut {
        UncutWindowIsAll(listed, Approved, 100, window);
        NoStaleAtFirst(start, clock, window);
      }
      WindowKnown(listed, Approved, 100, window);
      NoneMoved(listed, NeedsHuman, clock);
      NoStaleListed(listed, clock, window);
      Interfere();
      DriftClock(start, Snap());
      if !cut {
        DriftKeepsNoStale(start, Snap(), start.clock, window[0..]);
      }
      for n := 0 to |window|
        invariant Valid() && Drift(start, Snap()) && start.clock <= clock
        invariant NoNewClaims(h0, store.history)
        invariant !cut ==> NoStale(Snap(), start.clock, window[n..])
        invariant quiet ==> Snap() == start.(reviews := store.reviews)
        invariant quiet ==> Moved(listed, StaleListed(listed, clock, window[..n]), NeedsHuman, clock, store.reviews)
      {
        assert window[n] in window;
        ghost var s1, h1 := Snap(), store.history;
        StaleScanStep(window, n, listed, cut, start);
        ghost var s2, h2 := Snap(), store.history;
        DriftTransitive(start, s1, s2);
        NoNewClaimsTransitive(h0, h1, h2);
        Interfere();
        DriftTransitive(start, s2, Snap());
        DriftClock(s2, Snap());
        NoNewClaimsTransitive(h0, h2, store.history);
        if !cut {
          DriftKeepsNoStale(s2, Snap(), start.clock, window[n + 1..]);
        }
      }
      assert window[|window|..] == [] && window[..|window|] == window;
    }

    /** One entry of the stale scan; its age is read from the listing and the clock of the moment. */
    method StaleScanStep(window: seq<Id>, n: nat, listed: Reviews, ghost cut: bool, ghost start: State)
      requires Valid() && Drift(start, Snap()) && start.reviews == listed && start.clock <= clock
      requires n < |window| && window[n] in listed
      requires !cut ==> NoStale(Snap(), start.clock, window[n..])
      requires quiet ==> Moved(listed, StaleListed(listed, clock, window[..n]), NeedsHuman, clock, store.reviews)
      requires listed[window[n]].status == Approved
      modifies store
      ensures Valid() && Drift(old(Snap()), Snap()) && NoNewClaims(old(store.history), store.history)
      ensures !cut ==> NoStale(Snap(), start.clock, window[n + 1..])
      ensures quiet ==> Moved(listed, StaleListed(listed, clock, window[..n + 1]), NeedsHuman, clock, store.reviews)
      ensures Snap() == old(Snap()).(reviews := store.reviews)
    {
      hide Inv, Drift, Moved, StaleListed, NoNewClaims, NoStale;
      ghost var s0 := Snap();
      var id := window[n];
      DriftReflexive(s0);
      NoNewClaimsReflexive(store.history);
      StaleOneMore(listed, clock, window, n);
      if clock - listed[id].updatedAt >= STALE_APPROVED_SEC && id != "" {
        if quiet {
          MoveOne(listed, StaleListed(listed, clock, window[..n]), NeedsHuman, clock, store.reviews, id);
        }
        Requeue(id, NeedsHuman);
        if !cut {
          DriftKeepsNoStale(s0, Snap(), start.clock, window[n..]);
        }
      } else if id != "" && id in store.reviews && store.reviews[id].status == Approved {
        ScannedIsFresh(start, s0, start.clock, id);
      }
      if !cut {
        ScannedOne(Snap(), start.clock, window, n);
      }
    }

    /** Workers of unfinished futures and of listed in-flight reviews. */
    method ActiveWorkers() returns (active: set<string>)
      requires Valid()
      modifies this, store
      ensures Valid() && Drift(old(Snap()), Snap())
      ensures NoNewClaims(old(store.history), store.history)
      ensures CoversRunning(active, Snap())
      ensures quiet ==> Snap() == old(Snap()) && AllBusy(active, Snap())
      ensures quiet ==> CoversStatus(active, Snap(), CodexReviewing) && CoversStatus(active, Snap(), Deploying)
    {
      hide Inv, Drift, IsWindow, AllBusy, CoversRunning, CoversStatus;
      ghost var start := Snap();
      DriftReflexive(start);
      DictionariesKnown(start, maxParallel);
      active := set id | id in futures && !pool[futures[id]].done && futureWorkers[id] != "" :: futureWorkers[id];
      LiveWorkers(start, active, maxParallel);
      var statuses := [CodexReviewing, Deploying];
      for k := 0 to 2
        invariant Valid() && Drift(start, Snap()) && CoversRunning(active, Snap())
        invariant NoNewClaims(old(store.history), store.history)
        invariant quiet ==> Snap() == start && AllBusy(active, Snap())
        invariant quiet ==> forall j :: 0 <= j < k ==> CoversStatus(active, Snap(), statuses[j])
      {
        ghost var s, history := Snap(), store.history;
        Interfere();
        DriftTransitive(start, s, Snap());
        DriftKeepsCover(active, s, Snap());
        NoNewClaimsTransitive(old(store.history), history, store.history);
        ghost var before := active;
        active := AddListedWorkers(statuses[k], active);
        if quiet {
          forall j | 0 <= j < k ensures CoversStatus(active, Snap(), statuses[j]) {
            MoreCoversStatus(before, active, Snap(), statuses[j]);
          }
        }
      }
      assert statuses[0] == CodexReviewing && statuses[1] == Deploying;
    }

    /** The workers of one in-flight listing, added to those known. */
    method AddListedWorkers(status: Status, known: set<string>) returns (active: set<string>)
      requires Valid() && InFlight(status) && CoversRunning(known, Snap())
      ensures known <= active && CoversStatus(active, Snap(), status) && CoversRunning(active, Snap())
      ensures AllBusy(known, Snap()) ==> AllBusy(active, Snap())
    {
      hide Inv, IsWindow, AllBusy, CoversRunning, WorkerOf;
      active := known;
      var window := store.ListReviews(100, status);
      WindowKnown(store.reviews, status, 100, window);
      for n := 0 to |window|
        invariant known <= active && CoversRunning(active, Snap())
        invariant AllBusy(known, Snap()) ==> AllBusy(active, Snap())
        invariant forall i :: 0 <= i < n ==> WorkerOf(store.reviews[window[i]].payload) in active + {""}
      {
        assert window[n] in window;
        var worker := WorkerOf(store.reviews[window[n]].payload);
        if worker != "" {
          MoreCover(active, worker, Snap(), window[n]);
          active := active + {worker};
        }
      }
      ListedCovers(active, Snap(), status, window);
    }

    /** Others act; what the claiming half of a tick relies on stays. */
    method Pause(ghost active: set<string>, ghost from: nat, ghost t: int)
      requires Valid() && CoversRunning(active, Snap()) && from <= |store.history|
      modifies this, store
      ensures Valid() && PayloadsKept(old(store.reviews), store.reviews)
      ensures ClaimsOn(autoDeploy, old(store.history), store.history)
      ensures from <= |store.history| && TaskIds(Snap()) == old(TaskIds(Snap()))
      ensures Winners(store.history, from) == old(Winners(store.history, from))
      ensures Live(Snap()) <= old(Live(Snap())) && CoversRunning(active, Snap())
      ensures Fresh(old(Snap()), old(store.history), from, t) ==> Fresh(Snap(), store.history, from, t)
      ensures quiet ==> Snap() == old(Snap())
    {
      hide Inv, Drift, CoversRunning, Fresh, Winners, TaskIds, NoNewClaims, Live, Replay, ProperClaims, PayloadsKept;
      ghost var s0, h0 := Snap(), store.history;
      Interfere();
      ghost var s1, h1 := Snap(), store.history;
      NoClaimsOn(autoDeploy, h0, h1);
      NoNewWinners(h0, h1, from);
      DriftKeepsTasks(s0, s1);
      DriftKeepsCover(active, s0, s1);
      DriftKeepsFresh(s0, h0, s1, h1, from, t);
      DriftKeepsPayloads(s0, s1);
      DriftShrinks(s0, s1);
    }

    /** The compare-and-set claim of one review. Others may act first. */
    method TakeReview(id: Id, status: Status, ghost active: set<string>, ghost from: nat, ghost t: int)
      returns (won: bool)
      requires Valid() && status in CLAIMABLE && id != "" && CoversRunning(active, Snap()) && from <= |store.history|
      requires status == Approved ==> autoDeploy
      modifies this, store
      ensures Valid() && PayloadsKept(old(store.reviews), store.reviews)
      ensures ClaimsOn(autoDeploy, old(store.history), store.history)
      ensures from <= |store.history| && TaskIds(Snap()) == old(TaskIds(Snap()))
      ensures Winners(store.history, from) == old(Winners(store.history, from)) + if won then [id] else []
      ensures Live(Snap()) <= old(Live(Snap())) && CoversRunning(active, Snap())
      ensures Fresh(old(Snap()), old(store.history), from, t) ==> Fresh(Snap(), store.history, from, t)
      ensures quiet ==> Snap() == Taken(old(Snap()), id, status, ClaimTarget(status))
      ensures quiet ==> (won <==> id in old(store.reviews) && old(store.reviews)[id].status == status)
    {
      hide Inv, CoversRunning, Fresh, Winners, TaskIds, Live, Replay, ProperClaims, PayloadsKept;
      ghost var s0 := Snap();
      Pause(active, from, t);
      ghost var s1, h1 := Snap(), store.history;
      TakeKeepsInv(s1, id, status, ClaimTarget(status), maxParallel);
      TakeKeepsFresh(s1, h1, id, status, ClaimTarget(status), from, t);
      TakeKeepsCover(active, s1, id, status, ClaimTarget(status));
      TakeKeepsTasks(s1, id, status, ClaimTarget(status));
      ClaimAddsWinner(h1, Claim(id, {status}, ClaimTarget(status), clock), from, s1.reviews);
      ClaimGoesOn(autoDeploy, old(store.history), h1, Claim(id, {status}, ClaimTarget(status), clock));
      won := store.ClaimReview(id, {status}, ClaimTarget(status), clock);
      assert Snap() == Taken(s1, id, status, ClaimTarget(status));
      TakeKeepsPayloads(s0.reviews, s1, id, status, ClaimTarget(status));
    }

    /** Handing a claimed review to the pool. Others may act first. */
    method SubmitReview(id: Id, worker: string, ghost active: set<string>, ghost from: nat, ghost t: int)
      requires Valid() && |Live(Snap())| < maxParallel
      requires id in store.reviews && worker == WorkerOf(store.reviews[id].payload) &&
        (worker != "" ==> worker !in active)
      requires CoversRunning(active, Snap()) && from <= |store.history|
      modifies this, store
      ensures Valid() && PayloadsKept(old(store.reviews), store.reviews)
      ensures ClaimsOn(autoDeploy, old(store.history), store.history)
      ensures from <= |store.history| && Winners(store.history, from) == old(Winners(store.history, from))
      ensures TaskIds(Snap()) == old(TaskIds(Snap())) + [id]
      ensures CoversRunning(if worker == "" then active else active + {worker}, Snap())
      ensures Fresh(old(Snap()), old(store.history), from, t) ==> Fresh(Snap(), store.history, from, t)
      ensures quiet ==> Snap() == Submitted(old(Snap()), id, worker)
    {
      hide Inv, CoversRunning, Fresh, Winners, TaskIds, Live, Replay, ProperClaims, PayloadsKept;
      ghost var s0 := Snap();
      Pause(active, from, t);
      ghost var s1, h1 := Snap(), store.history;
      KeptMember(s0.reviews, s1.reviews, id);
      SubsetSize(Live(s1), Live(s0));
      NotRunning(active, worker, s1);
      SubmitKeepsInv(s1, id, worker, maxParallel);
      SubmitCovers(active, s1, id, worker);
      SubmitKeepsFresh(s1, h1, id, worker, from, t);
      SubmitAddsTask(s1, id, worker);
      pool, futures, futureWorkers := pool + [Task(id, worker, false)], futures[id := |pool|],
        futureWorkers[id := worker];
      assert Snap() == Submitted(s1, id, worker);
    }

    /** Claims one review and, having won it, hands it to the pool. */
    method ClaimOne(id: Id, status: Status, worker: string, ghost active: set<string>, ghost from: nat, ghost t: int)
      returns (won: bool)
      requires Valid() && status in CLAIMABLE && id != "" && |Live(Snap())| < maxParallel
      requires status == Approved ==> autoDeploy
      requires id in store.reviews && worker == WorkerOf(store.reviews[id].payload) &&
        (worker != "" ==> worker !in active)
      requires CoversRunning(active, Snap()) && from <= |store.history|
      modifies this, store
      ensures Valid() && PayloadsKept(old(store.reviews), store.reviews)
      ensures ClaimsOn(autoDeploy, old(store.history), store.history)
      ensures from <= |store.history|
      ensures Winners(store.history, from) == old(Winners(store.history, from)) + if won then [id] else []
      ensures TaskIds(Snap()) == old(TaskIds(Snap())) + if won then [id] else []
      ensures CoversRunning(if won && worker != "" then active + {worker} else active, Snap())
      ensures Fresh(old(Snap()), old(store.history), from, t) ==> Fresh(Snap(), store.history, from, t)
      ensures quiet ==> (won <==> old(store.reviews)[id].status == status)
      ensures quiet && won ==> Snap() == Submitted(Taken(old(Snap()), id, status, ClaimTarget(status)), id, worker)
    {
      hide Inv, Fresh, PayloadsKept, CoversRunning, Submitted, Taken, WorkerOf, Winners, TaskIds, Live, Replay,
        ProperClaims, ClaimsOn;
      ghost var s1, h1 := Snap(), store.history;
      won := TakeReview(id, status, active, from, t);
      if !won {
        return;
      }
      ghost var s2, h2 := Snap(), store.history;
      SubsetSize(Live(s2), Live(s1));
      KeptMember(s1.reviews, store.reviews, id);
      SubmitReview(id, worker, active, from, t);
      ClaimsOnTransitive(autoDeploy, h1, h2, store.history);
      PayloadsKeptTransitive(s1.reviews, s2.reviews, store.reviews);
    }

    /** The inner loop of a tick: claim what one window offers until the pool is full. `scanned` are
        the windows the tick went through before. */
    method ClaimWindow(status: Status, window: seq<Id>, active0: set<string>,
                       ghost scanned: seq<(Status, seq<Id>)>, ghost from: nat, ghost t: int)
      returns (active: set<string>, started: seq<Id>)
      requires Valid() && status in CLAIMABLE && Distinct(window)
      requires status == Approved ==> autoDeploy
      requires forall id :: id in window ==> id in store.reviews
      requires CoversRunning(active0, Snap())
      requires quiet ==> AllBusy(active0, Snap()) && AllExhausted(Snap(), scanned)
      requires quiet ==> forall id :: id in window ==> store.reviews[id].status == status
      requires forall k :: 0 <= k < |scanned| ==> scanned[k].0 in CLAIMABLE
      requires from <= |store.history|
      modifies this, store
      ensures Valid() && ClaimLoop(old(store.reviews), Snap(), active0, active, started)
      ensures ClaimsOn(autoDeploy, old(store.history), store.history)
      ensures from <= |store.history| && Winners(store.history, from) == old(Winners(store.history, from)) + started
      ensures TaskIds(Snap()) == old(TaskIds(Snap())) + started
      ensures Fresh(old(Snap()), old(store.history), from, t) ==> Fresh(Snap(), store.history, from, t)
      ensures quiet ==>
        WindowDone(old(Snap()), Snap(), active, scanned, started, status, window, ActiveCount() >= maxParallel)
    {
      hide Inv, Fresh, ClaimLoop, QuietLoop, PayloadsKept, CoversRunning, StartedFresh, AllBusy, AllExhausted,
        Exhausted, OthersKept, Submitted, Taken, WorkerOf, Distinct, Winners, TaskIds, Live, DictionariesAgree, Replay,
        ProperClaims, OnlyStartedMoved, ClaimsOn;
      ghost var s0, h0 := Snap(), store.history;
      ghost var upto := |window|;
      active, started := active0, [];
      EnterLoop(s0, active0);
      ClaimsOnItself(autoDeploy, h0);
      if quiet {
        EnterQuietLoop(s0, active0, scanned, status, window);
      }
      for n := 0 to |window|
        invariant Valid() && ClaimLoop(s0.reviews, Snap(), active0, active, started)
        invariant Fresh(s0, h0, from, t) ==> Fresh(Snap(), store.history, from, t)
        invariant quiet ==> QuietLoop(s0, Snap(), active, scanned, started, status, window, n)
        invariant upto == |window| && from <= |store.history| && ClaimsOn(autoDeploy, h0, store.history)
        invariant Winners(store.history, from) == Winners(h0, from) + started
        invariant TaskIds(Snap()) == TaskIds(s0) + started
      {
        assert window[n] in window;
        ghost var h1 := store.history;
        var full;
        full, active, started := ClaimRow(window, n, status, active, started, s0, active0, scanned, from, t);
        ClaimsOnTransitive(autoDeploy, h0, h1, store.history);
        if full {
          upto := n;
          break;
        }
      }
      DictionariesKnown(Snap(), maxParallel);
    }

    /** One review of the window, unless the pool is full. */
    method ClaimRow(window: seq<Id>, n: nat, status: Status, active: set<string>, started: seq<Id>,
                    ghost start: State, ghost active0: set<string>, ghost scanned: seq<(Status, seq<Id>)>,
                    ghost from: nat, ghost t: int)
      returns (full: bool, now: set<string>, all: seq<Id>)
      requires Valid() && status in CLAIMABLE && Distinct(window) && n < |window| && window[n] in start.reviews
      requires status == Approved ==> autoDeploy
      requires ClaimLoop(start.reviews, Snap(), active0, active, started) && from <= |store.history|
      requires quiet ==> QuietLoop(start, Snap(), active, scanned, started, status, window, n)
      requires forall k :: 0 <= k < |scanned| ==> scanned[k].0 in CLAIMABLE
      modifies this, store
      ensures Valid() && ClaimLoop(start.reviews, Snap(), active0, now, all)
      ensures full ==> all == started && now == active && DictionariesAgree(Snap()) && ActiveCount() >= maxParallel
      ensures all == started || all == started + [window[n]]
      ensures from <= |store.history| && ClaimsOn(autoDeploy, old(store.history), store.history)
      ensures Winners(store.history, from) == old(Winners(store.history, from)) + all[|started|..]
      ensures TaskIds(Snap()) == old(TaskIds(Snap())) + all[|started|..]
      ensures Fresh(old(Snap()), old(store.history), from, t) ==> Fresh(Snap(), store.history, from, t)
      ensures quiet ==> QuietLoop(start, Snap(), now, scanned, all, status, window, if full then n else n + 1)
    {
      hide Inv, Fresh, ClaimLoop, QuietLoop, PayloadsKept, CoversRunning, StartedFresh, AllBusy, AllExhausted,
        Exhausted, OthersKept, Submitted, Taken, WorkerOf, Distinct, Winners, TaskIds, Live, DictionariesAgree, Replay,
        ProperClaims, OnlyStartedMoved, ClaimsOn;
      full, now, all := false, active, started;
      ghost var before, past := Snap(), store.history;
      LeaveLoop(start.reviews, before, active0, active, started);
      Pause(active, from, t);
      ghost var s1, h1 := Snap(), store.history;
      LostClaimKeepsLoop(start.reviews, before, s1, active0, active, started);
      DictionariesKnown(s1, maxParallel);
      if ActiveCount() >= maxParallel {
        full := true;
        return;
      }
      LeaveLoop(start.reviews, s1, active0, active, started);
      var id := window[n];
      KeptMember(start.reviews, store.reviews, id);
      var worker := WorkerOf(store.reviews[id].payload);
      if (worker != "" && worker in active) || id == "" {
        if quiet {
          SkipKeepsQuiet(start, s1, active, scanned, started, status, window, n);
        }
        return;
      }
      if quiet {
        LeaveQuietLoop(start, s1, active, scanned, started, status, window, n);
        ClaimKeepsQuiet(start, s1, active, scanned, started, status, window, n);
      }
      var won := ClaimOne(id, status, worker, active, from, t);
      ClaimsOnTransitive(autoDeploy, past, h1, store.history);
      if !won {
        LostClaimKeepsLoop(start.reviews, s1, Snap(), active0, active, started);
        return;
      }
      WonClaimKeepsLoop(start.reviews, s1, Snap(), id, active0, active, started);
      if worker != "" {
        now := active + {worker};
      }
      all := started + [id];
    }

    /** The claiming half of a tick, status by status. */
    method ClaimAll(active0: set<string>, ghost from: nat, ghost t: int)
      returns (ghost scanned: seq<(Status, seq<Id>)>, started: seq<Id>)
      requires Valid() && CoversRunning(active0, Snap()) && (quiet ==> AllBusy(active0, Snap())) &&
        from <= |store.history|
      modifies this, store
      ensures Valid() && PayloadsKept(old(store.reviews), store.reviews)
      ensures ClaimsOn(autoDeploy, old(store.history), store.history)
      ensures Winners(store.history, from) == old(Winners(store.history, from)) + started
      ensures TaskIds(Snap()) == old(TaskIds(Snap())) + started
      ensures exists active :: StartedFresh(store.reviews, started, active0, active)
      ensures Fresh(old(Snap()), old(store.history), from, t) ==> Fresh(Snap(), store.history, from, t)
      ensures quiet ==> OnlyStartedMoved(old(store.reviews), store.reviews, started, clock) && clock == old(clock)
      ensures quiet ==> forall k :: 0 <= k < |scanned| ==> IsWindow(old(store.reviews), scanned[k].0, 20, scanned[k].1)
      ensures quiet ==>
        ActiveCount() >= maxParallel || (AllStatuses(scanned, autoDeploy) && AllExhausted(Snap(), scanned))
    {
      hide Inv, Drift, ClaimLoop, QuietScan, CoversRunning, StartedFresh, AllBusy, AllExhausted, IsWindow, PayloadsKept,
        OthersKept, Fresh, Winners, TaskIds, OnlyStartedMoved, ClaimsOn, Distinct, Live, DictionariesAgree, Replay,
        ProperClaims;
      ghost var s0, h0 := Snap(), store.history;
      var active := active0;
      scanned, started := [], [];
      EnterLoop(s0, active0);
      ClaimsOnItself(autoDeploy, h0);
      NoneExhausted(s0);
      var statuses := [Pending, RetryRequested];
      if autoDeploy {
        statuses := statuses + [Approved];
      }
      DifferentStatuses(statuses);
      QuietScanStarts(s0, statuses);
      assert statuses[0..] == statuses;
      for k := 0 to |statuses|
        invariant Valid() && ClaimLoop(s0.reviews, Snap(), active0, active, started)
        invariant ClaimsOn(autoDeploy, h0, store.history)
        invariant Fresh(s0, h0, from, t) ==> Fresh(Snap(), store.history, from, t)
        invariant |scanned| == k && forall j :: 0 <= j < k ==> scanned[j].0 == statuses[j]
        invariant from <= |store.history| && Winners(store.history, from) == Winners(h0, from) + started
        invariant TaskIds(Snap()) == TaskIds(s0) + started
        invariant quiet ==> AllBusy(active, Snap()) && AllExhausted(Snap(), scanned)
        invariant quiet ==> QuietScan(s0, Snap(), scanned, started, statuses[k..])
      {
        ghost var s1, h1, before, scannedBefore := Snap(), store.history, active, scanned;
        LeaveLoop(s0.reviews, s1, active0, before, started);
        var more;
        ghost var window;
        active, more, window := ClaimStatus(statuses[k], active, scanned, from, t);
        LoopsJoin(s0.reviews, s1, Snap(), active0, before, active, started, more);
        ClaimsOnTransitive(autoDeploy, h0, h1, store.history);
        if quiet {
          RestOfStatuses(statuses, k);
          QuietScanStep(s0, s1, Snap(), scanned, started, more, statuses[k..], window);
        }
        started, scanned := started + more, scanned + [(statuses[k], window)];
        DictionariesKnown(Snap(), maxParallel);
        if ActiveCount() >= maxParallel {
          break;
        }
        if quiet {
          ExhaustedOneMore(Snap(), scannedBefore, statuses[k], window);
        }
      }
      LeaveLoop(s0.reviews, Snap(), active0, active, started);
      DictionariesKnown(Snap(), maxParallel);
      if quiet {
        ghost var rest :| QuietScan(s0, Snap(), scanned, started, rest);
        QuietScanMeans(s0, Snap(), scanned, started, rest);
      }
    }

    /** One status of the claiming half: list its newest 20 reviews and claim from them. */
    method ClaimStatus(status: Status, active0: set<string>, ghost scanned: seq<(Status, seq<Id>)>, ghost from: nat,
      ghost t: int)
      returns (active: set<string>, started: seq<Id>, ghost window: seq<Id>)
      requires Valid() && status in CLAIMABLE && CoversRunning(active0, Snap()) && from <= |store.history|
      requires status == Approved ==> autoDeploy
      requires quiet ==> AllBusy(active0, Snap()) && AllExhausted(Snap(), scanned)
      requires forall k :: 0 <= k < |scanned| ==> scanned[k].0 in CLAIMABLE
      modifies this, store
      ensures Valid() && ClaimLoop(old(store.reviews), Snap(), active0, active, started)
      ensures ClaimsOn(autoDeploy, old(store.history), store.history)
      ensures from <= |store.history| && Winners(store.history, from) == old(Winners(store.history, from)) + started
      ensures TaskIds(Snap()) == old(TaskIds(Snap())) + started
      ensures Fresh(old(Snap()), old(store.history), from, t) ==> Fresh(Snap(), store.history, from, t)
      ensures quiet ==> AllBusy(active, Snap()) && AllExhausted(Snap(), scanned)
      ensures quiet ==> IsWindow(old(store.reviews), status, 20, window)
      ensures quiet ==> OthersKept(old(store.reviews), store.reviews, status)
      ensures quiet ==> OnlyStartedMoved(old(store.reviews), store.reviews, started, clock) && clock == old(clock)
      ensures quiet ==> ActiveCount() >= maxParallel || Exhausted(Snap(), status, window, |window|)
    {
      hide Inv, ClaimLoop, WindowDone, CoversRunning, StartedFresh, AllBusy, AllExhausted, Exhausted, IsWindow,
        PayloadsKept, OthersKept, Fresh, Winners, TaskIds, OnlyStartedMoved, ClaimsOn, Live, Replay, ProperClaims;
      ghost var s1, h1 := Snap(), store.history;
      Pause(active0, from, t);
      ghost var s2, h2 := Snap(), store.history;
      var listing := store.ListReviews(20, status);
      window := listing;
      WindowKnown(store.reviews, status, 20, listing);
      active, started := ClaimWindow(status, listing, active0, scanned, from, t);
      ClaimsOnTransitive(autoDeploy, h1, h2, store.history);
      LaterLoop(s1.reviews, s2.reviews, Snap(), active0, active, started);
      DictionariesKnown(Snap(), maxParallel);
      if quiet {
        WindowDoneMeans(s2, Snap(), active, scanned, started, status, listing, ActiveCount() >= maxParallel);
      }
    }

    /** One tick. `tick` holds the states in which the tick listed reviews, `active0` the active workers when claiming
        began, `scanned` the windows that were looked at. */
    method ProcessOnce()
      returns (started: seq<Id>, ghost tick: TickStates, ghost active0: set<string>,
        ghost scanned: seq<(Status, seq<Id>)>)
      requires Valid()
      modifies this, store
      // every claim is of a pending or retried review for the review, or, with automatic deployment, of an approval
      ensures Valid() && ClaimsOn(autoDeploy, old(store.history), store.history)
      ensures IsTick(old(Snap()), old(store.history), tick, store.history)
      ensures CoversRunning(active0, tick.claimAt)
      ensures exists active :: StartedFresh(store.reviews, started, active0, active)
      // every review won in this tick, and no other, was handed to the pool, once per win
      ensures Winners(store.history, |old(store.history)|) == started
      ensures TaskIds(Snap()) == old(TaskIds(Snap())) + started
      // with at most 100 reviews per listing, none is stranded and no stale approval is claimed
      ensures Uncut(tick) ==> NoneStranded(tick.claimAt, old(RunningIds(Snap())))
      ensures Uncut(tick) ==> FreshApprovalsClaimed(store.history, |old(store.history)|, tick.approvedAt.clock)
      // an undisturbed tick: what recovery did, who was active, what was claimed, and why it stopped
      ensures quiet ==> exists l :: Recovered(old(store.reviews), old(Live(Snap())), clock, l, tick.claimAt.reviews)
      ensures quiet ==> tick.claimAt == Collected(old(Snap())).(reviews := tick.claimAt.reviews)
      ensures quiet ==> (Uncut(tick) <==> FitsListings(old(store.reviews)))
      ensures quiet ==> AllBusy(active0, tick.claimAt)
      ensures quiet ==> CoversStatus(active0, tick.claimAt, CodexReviewing)
      ensures quiet ==> CoversStatus(active0, tick.claimAt, Deploying)
      ensures quiet ==> OnlyStartedMoved(tick.claimAt.reviews, store.reviews, started, clock)
      ensures quiet ==> forall k :: 0 <= k < |scanned| ==>
        IsWindow(tick.claimAt.reviews, scanned[k].0, 20, scanned[k].1)
      ensures quiet ==>
        ActiveCount() >= maxParallel || (AllStatuses(scanned, autoDeploy) && AllExhausted(Snap(), scanned))
    {
      hide Inv, Drift, IsTick, CoversRunning, StartedFresh, AllBusy, AllExhausted, IsWindow, PayloadsKept, CoversStatus,
        Fresh, FreshApprovalsClaimed, NoneStranded, Winners, TaskIds, Recovered, Uncut, FitsListings, OnlyStartedMoved,
        ClaimsOn, Collected;
      ghost var start, before := Snap(), store.history;
      var active;
      tick, active := Recover();
      active0 := active;
      ghost var h := store.history;
      NoneBefore(before, |before|);
      NoNewWinners(before, h, |before|);
      NoClaimsOn(autoDeploy, before, h);
      if Uncut(tick) {
        FreshStart(tick.claimAt, before, tick.approvedAt.clock, h);
      }
      scanned, started := ClaimAll(active, |before|, tick.approvedAt.clock);
      ClaimsOnTransitive(autoDeploy, before, h, store.history);
      ClaimsContinue(autoDeploy, h, store.history);
      TickStays(start, before, tick, h, store.history);
      if Uncut(tick) {
        FreshClaims(Snap(), store.history, |before|, tick.approvedAt.clock);
      }
    }

    /** The recovering half of a tick, up to the set of active workers. */
    method Recover() returns (ghost tick: TickStates, active: set<string>)
      requires Valid()
      modifies this, store
      ensures Valid() && NoNewClaims(old(store.history), store.history)
      ensures IsTick(old(Snap()), old(store.history), tick, store.history) && tick.claimAt == Snap()
      ensures TaskIds(Snap()) == old(TaskIds(Snap()))
      ensures CoversRunning(active, Snap())
      ensures Uncut(tick) ==> NoneStranded(Snap(), old(RunningIds(Snap())))
      ensures Uncut(tick) ==> NoStale(Snap(), tick.approvedAt.clock, []) && tick.approvedAt.clock <= clock
      ensures quiet ==> Snap() == Collected(old(Snap())).(reviews := store.reviews)
      ensures quiet ==> exists l :: Recovered(old(store.reviews), old(Live(Snap())), clock, l, store.reviews)
      ensures quiet ==> (Uncut(tick) <==> FitsListings(old(store.reviews)))
      ensures quiet ==> AllBusy(active, Snap())
      ensures quiet ==> CoversStatus(active, Snap(), CodexReviewing) && CoversStatus(active, Snap(), Deploying)
    {
      hide Inv, Drift, Collected, CoversRunning, AllBusy, IsWindow, NoStale, NoNewClaims, NoneStranded, TaskIds,
        Moved, Orphans, StaleListed, Recovered, CoversStatus, Visited, Continues, WithStatus, AfterStaleScan;
      ghost var s0, h0 := Snap(), store.history;
      CollectedRunning(s0);
      CollectedTasks(s0);
      CollectKeepsInv(s0, maxParallel);
      CollectFinished();
      ghost var collected := Snap();
      Interfere();
      ghost var s1, h1 := Snap(), store.history;
      ghost var cut, first, mid, codex, deploying, cutStale, approved;
      cut, first, mid, codex, deploying := RecoverOrphanedInflight();
      ghost var s2, h2 := Snap(), store.history;
      cutStale, approved := RecoverStaleApproved();
      ghost var s3, h3 := Snap(), store.history;
      active := ActiveWorkers();
      ghost var s4, h4 := Snap(), store.history;
      tick := TickStates(first, mid, s2, s4);
      NoNewClaimsTransitive(h0, h1, h2);
      NoNewClaimsTransitive(h0, h2, h3);
      NoNewClaimsTransitive(h0, h3, h4);
      DriftTransitive(collected, s1, first);
      DriftTransitive(first, mid, s2);
      DriftTransitive(s2, s3, s4);
      RecoverVisits(tick, h0, h1, h2, h3, h4);
      TickIs(s0, h0, tick, h4);
      DriftKeepsTasks(collected, first);
      DriftKeepsTasks(first, s2);
      DriftKeepsTasks(s2, s4);
      DriftClock(s2, s4);
      DriftShrinks(collected, s1);
      DriftShrinks(s1, first);
      DriftShrinks(first, s2);
      if Uncut(tick) {
        StrandedFewer(s2, RunningIds(s1), RunningIds(s0));
        DriftStrandsNone(s2, s4, RunningIds(s0));
        DriftClock(s2, s3);
        DriftKeepsNoStale(s3, s4, s2.clock, []);
      }
      if quiet {
        QuietRecovery(s0, Live(s0), codex, deploying, approved, tick);
      }
    }

    /** Writes a tick makes, as many of them and in any order: more than any part of a tick does. */
    method PartOfTick()
      requires Valid()
      modifies this, store
      ensures Valid()
    {
      hide Inv, Drift, CoversRunning, Winners, TaskIds, Fresh, PayloadsKept;
      var steps: nat := *;
      while steps > 0
        invariant Valid()
      {
        var id: Id, status: Status, scan: bool, claim: bool := *, *, *, *;
        steps := steps - 1;
        Interfere();
        if scan {
          CollectFinished();
        } else if claim {
          if status in CLAIMABLE && (status != Approved || autoDeploy) && id != "" && id in store.reviews {
            ClaimSomewhere(id, status);
          }
        } else {
          Requeue(id, if status == NeedsHuman then NeedsHuman else RetryRequested);
        }
      }
    }

    /** A claim that may or may not be followed by the hand-over to the pool. */
    method ClaimSomewhere(id: Id, status: Status)
      requires Valid() && status in CLAIMABLE && id != "" && id in store.reviews && (status == Approved ==> autoDeploy)
      modifies this, store
      ensures Valid()
    {
      hide Inv, CoversRunning, Winners, TaskIds, Fresh, PayloadsKept, WorkerOf, Taken, Submitted, ClaimsOn, Replay;
      var active := set i | 0 <= i < |pool| && !pool[i].done :: pool[i].worker;
      RunningCovered(Snap(), active);
      var worker := WorkerOf(store.reviews[id].payload);
      DictionariesKnown(Snap(), maxParallel);
      var handOver: bool := *;
      if handOver && ActiveCount() < maxParallel && (worker == "" || worker !in active) {
        var won := ClaimOne(id, status, worker, active, 0, 0);
      } else {
        var won := TakeReview(id, status, active, 0, 0);
      }
    }

    /** Any run of the process: ticks, other people's steps and crashes in any order, in the middle of a tick as
        well. */
    method Run(schedule: seq<Action>)
      requires Valid()
      modifies this, store
      ensures Valid()
    {
      hide Inv;
      for k := 0 to |schedule|
        invariant Valid()
      {
        match schedule[k] {
          case Tick =>
            var started, tick, active0, scanned := ProcessOnce();
          case Outside => Interfere();
          case Crash => Restart();
          case CrashInTick =>
            PartOfTick();
            Restart();
        }
      }
    }
  }

  datatype Action = Tick | Outside | Crash | CrashInTick
}
