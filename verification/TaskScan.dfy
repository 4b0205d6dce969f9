/** Scanning the subtasks of a task for models to deploy (src/fmh/poller.py): one review per item key, each on a
    row of its own, and a retry later when no row is free. */
module TaskScan {
  import opened Ordering
  import opened Paths
  import opened Placement
  import opened Wrappers
  import opened DeployedTable
  import opened ReviewStore

  type Key = string

  datatype ItemStatus =
    | ReviewPending | ItemCodexReviewing | ItemApproved | ItemDeploying
    | RetryWaiting
    | ItemDeployed | ItemDeployFailed | ItemNeedsHuman | FailedReview | TaskUnavailable | Submitted

  datatype ItemState = ItemState(status: ItemStatus, requestId: Id)

  type Items = map<Key, ItemState>

  /** An entry is waiting for its review to finish. */
  predicate Active(s: ItemState) { s.status in {ReviewPending, ItemCodexReviewing, ItemApproved, ItemDeploying} }

  /** Nothing is ever done again for such an entry. */
  predicate Settled(items: Items, key: Key) { key in items && !items[key].status.RetryWaiting? }

  /** A line of a subtask that names a model. */
  datatype Entry = Entry(key: Key, path: string, modelId: string)

  /** What the outside answers while one entry is processed: the table as it then is, unless it cannot be read, and
      the id of the review made for it. */
  datatype Answer = Answer(table: Option<Grid>, reviewId: Id)

  /** Creations, postponements and failures, with the table rows and the excluded rows they were decided on. */
  datatype Event =
    | Created(key: Key, reviewId: Id, row: Row, rows: seq<Row>, excluded: set<int>, at: int)
    | Postponed(key: Key, rows: seq<Row>, excluded: set<int>, due: int)
    | Failed(key: Key, excluded: set<int>)

  // ---------------------------------------------------------------- rows held by other reviews

  predicate Reserving(r: Review) {
    r.status in {Pending, CodexReviewing, Approved, Deploying} && r.payload.reuseStage
  }

  function RowOf(m: Reviews, id: Id): set<int> {
    if id in m && m[id].payload.planRowIndex != 0 then {m[id].payload.planRowIndex} else {}
  }

  /** Rows held by the reviews of entries still waiting for their review, and by the reuse reviews of the window that
      are pending, under review, approved or being deployed. */
  ghost predicate IsReserved(m: Reviews, states: Items, window: seq<Id>, row: int) {
    HeldForEntries(m, states, states.Keys, row) || HeldByReviews(m, window, row)
  }

  ghost predicate HeldForEntries(m: Reviews, states: Items, keys: set<Key>, row: int) {
    exists k :: k in keys && k in states && HoldsForEntry(m, states[k], row)
  }

  ghost predicate HeldByReviews(m: Reviews, window: seq<Id>, row: int) {
    exists id :: id in window && id in m && HoldsRow(m[id], row)
  }

  ghost predicate HoldsForEntry(m: Reviews, s: ItemState, row: int) {
    && s.status in {ReviewPending, ItemCodexReviewing, ItemApproved, ItemDeploying}
    && s.requestId != "" && s.requestId in m && m[s.requestId].payload.planRowIndex == row && row != 0
  }

  ghost predicate HoldsRow(r: Review, row: int) {
    && r.status in {Pending, CodexReviewing, Approved, Deploying} && r.payload.reuseStage
    && r.payload.planRowIndex == row && row != 0
  }

  const RESERVATION_WINDOW := 500

  method ReservedReusableRows(m: Reviews, states: Items, window: seq<Id>) returns (reserved: set<int>)
    requires forall id :: id in window ==> id in m
    ensures forall row :: row in reserved <==> IsReserved(m, states, window, row)
  {
    hide HeldForEntries, HeldByReviews, Active, Reserving, RowOf;
    reserved := {};
    var keys := states.Keys;
    NoneHeld(m, states);
    while keys != {}
      invariant keys <= states.Keys
      invariant forall row :: row in reserved <==> HeldForEntries(m, states, states.Keys - keys, row)
      decreases |keys|
    {
      var k :| k in keys;
      EntryHolds(m, states, states.Keys - keys, k);
      assert states.Keys - (keys - {k}) == states.Keys - keys + {k};
      keys := keys - {k};
      if Active(states[k]) && states[k].requestId != "" {
        reserved := reserved + RowOf(m, states[k].requestId);
      }
    }
    assert states.Keys - keys == states.Keys;
    for i := 0 to |window|
      invariant forall row ::
        row in reserved <==> HeldForEntries(m, states, states.Keys, row) || HeldByReviews(m, window[..i], row)
    {
      var id := window[i];
      assert window[..i + 1] == window[..i] + [id];
      ReviewHolds(m, window[..i], id);
      if Reserving(m[id]) {
        reserved := reserved + RowOf(m, id);
      }
    }
    assert window[..|window|] == window;
  }

  lemma NoneHeld(m: Reviews, states: Items)
    ensures forall row :: !HeldForEntries(m, states, {}, row) && !HeldByReviews(m, [], row)
    ensures states.Keys - states.Keys == {}
  {
  }

  lemma EntryHolds(m: Reviews, states: Items, keys: set<Key>, k: Key)
    requires k in states
    ensures forall row :: HeldForEntries(m, states, keys + {k}, row) <==>
      || HeldForEntries(m, states, keys, row)
      || (Active(states[k]) && states[k].requestId != "" && row in RowOf(m, states[k].requestId))
  {
    forall row
      ensures HoldsForEntry(m, states[k], row) <==>
        Active(states[k]) && states[k].requestId != "" && row in RowOf(m, states[k].requestId)
    {
    }
    hide HoldsForEntry, Active, RowOf;
  }

  lemma ReviewHolds(m: Reviews, window: seq<Id>, id: Id)
    requires id in m
    ensures forall row :: HeldByReviews(m, window + [id], row) <==>
      HeldByReviews(m, window, row) || (Reserving(m[id]) && row in RowOf(m, id))
  {
    forall row ensures HoldsRow(m[id], row) <==> Reserving(m[id]) && row in RowOf(m, id) {
    }
    hide HoldsRow, Reserving, RowOf;
  }

  /** While there are at most 500 reviews, no row is missed of a reuse review that is pending, under review, approved or
      being deployed. */
  lemma NoReviewIsMissed(m: Reviews, states: Items, window: seq<Id>, id: Id)
    requires IsListing(m, m.Keys, 500, window) && |m| <= 500
    requires id in m && m[id].payload.reuseStage && m[id].payload.planRowIndex != 0
    requires m[id].status in {Pending, CodexReviewing, Approved, Deploying}
    ensures IsReserved(m, states, window, m[id].payload.planRowIndex)
  {
    assert |m.Keys| == |m|;
    UncutListingIsAll(m, m.Keys, 500, window);
    assert HoldsRow(m[id], m[id].payload.planRowIndex);
  }

  // ---------------------------------------------------------------- what a log promises

  ghost predicate OncePerKey(log: seq<Event>) {
    forall i, j :: 0 <= i < j < |log| && log[i].Created? && log[j].Created? ==> log[i].key != log[j].key
  }

  /** No creation before the time any earlier postponement of its key was put off to. */
  ghost predicate NeverEarly(log: seq<Event>) {
    forall i, j :: 0 <= i < j < |log| && log[i].Postponed? && log[j].Created? && log[i].key == log[j].key ==>
      log[i].due <= log[j].at
  }

  /** A creation takes a least eligible row; a postponement happens only when no row is eligible. */
  ghost predicate WellChosen(c: Config, e: Event) {
    match e
    case Created(_, _, row, rows, excluded, _) => row in rows && IsLeast(c, rows, 0, excluded, row)
    case Failed(_, _) => true
    case Postponed(_, rows, excluded, _) => forall row :: row in rows ==> !IsFree(c, row, 0, excluded)
  }

  function TakenBy(e: Event): set<int> { if e.Created? then {e.row.rowIndex} else {} }

  function Taken(log: seq<Event>): set<int> {
    if log == [] then {} else Taken(log[..|log| - 1]) + TakenBy(log[|log| - 1])
  }

  /** One scan: every decision is well chosen, and excludes the rows reserved at the start and those taken by the
      creations before it in the scan. */
  ghost predicate IsScan(c: Config, reserved: set<int>, log: seq<Event>) {
    forall i :: 0 <= i < |log| ==> WellChosen(c, log[i]) && log[i].excluded == reserved + Taken(log[..i])
  }

  lemma {:induction false} TakenHolds(log: seq<Event>, i: nat)
    requires i < |log| && log[i].Created?
    ensures log[i].row.rowIndex in Taken(log)
  {
    if i < |log| - 1 {
      TakenHolds(log[..|log| - 1], i);
    }
  }

  /** The reviews one scan creates are on different rows, none of them reserved at the start. */
  lemma ScanRowsAreDistinct(c: Config, reserved: set<int>, log: seq<Event>)
    requires IsScan(c, reserved, log)
    ensures forall j :: 0 <= j < |log| && log[j].Created? ==> log[j].row.rowIndex !in reserved
    ensures forall i, j :: 0 <= i < j < |log| && log[i].Created? && log[j].Created? ==>
      log[i].row.rowIndex != log[j].row.rowIndex
  {
    forall i, j | 0 <= i < j < |log| && log[i].Created? && log[j].Created?
      ensures log[i].row.rowIndex != log[j].row.rowIndex
    {
      TakenHolds(log[..j], i);
    }
  }

  lemma ScanGrows(c: Config, reserved: set<int>, log: seq<Event>, e: Event)
    requires IsScan(c, reserved, log) && WellChosen(c, e) && e.excluded == reserved + Taken(log)
    ensures IsScan(c, reserved, log + [e]) && Taken(log + [e]) == Taken(log) + TakenBy(e)
  {
    hide WellChosen;
    var more := log + [e];
    assert more[..|log|] == log;
    forall i | 0 <= i < |more| ensures WellChosen(c, more[i]) && more[i].excluded == reserved + Taken(more[..i]) {
      assert more[..i] == if i < |log| then log[..i] else log;
    }
  }

  ghost predicate HasReview(log: seq<Event>, key: Key) {
    exists i :: 0 <= i < |log| && log[i].Created? && log[i].key == key
  }

  /** Nothing was created for the key, and it is not settled or put off beyond `clock`. */
  ghost predicate MayCreate(log: seq<Event>, clock: int, items: Items, key: Key) {
    && !HasReview(log, key) && !Settled(items, key)
    && forall i :: 0 <= i < |log| && log[i].Postponed? && log[i].key == key ==> log[i].due <= clock
  }

  lemma HasReviewStep(log: seq<Event>, e: Event)
    ensures forall k :: HasReview(log + [e], k) <==> HasReview(log, k) || (e.Created? && e.key == k)
  {
    var more := log + [e];
    forall k ensures HasReview(more, k) <==> HasReview(log, k) || (e.Created? && e.key == k) {
      assert more[|log|] == e;
      if HasReview(log, k) {
        var i :| 0 <= i < |log| && log[i].Created? && log[i].key == k;
        assert more[i] == log[i];
      }
    }
  }

  /** The latest postponement of a key is the one on record. */
  ghost predicate OnRecord(e: Event, items: Items, retryAt: map<Key, int>, limit: int)
    requires e.Postponed?
  {
    e.due <= limit && e.key in retryAt && e.due <= retryAt[e.key] && e.key in items
  }

  /** Once per key, never early, created entries settled but the open one, postponements on record up to `limit`. */
  ghost predicate InOrder(log: seq<Event>, items: Items, retryAt: map<Key, int>, limit: int, open: Option<Key>) {
    && OncePerKey(log) && NeverEarly(log)
    && (forall i :: 0 <= i < |log| && log[i].Created? && Some(log[i].key) != open ==> Settled(items, log[i].key))
    && (forall i :: 0 <= i < |log| && log[i].Postponed? ==> OnRecord(log[i], items, retryAt, limit))
  }

  lemma LaterInOrder(log: seq<Event>, items: Items, retryAt: map<Key, int>, limit: int, later: int, open: Option<Key>)
    requires InOrder(log, items, retryAt, limit, open) && limit <= later
    ensures InOrder(log, items, retryAt, later, open)
  {
    hide OncePerKey, NeverEarly, Settled;
  }

  lemma SettledInOrder(log: seq<Event>, items: Items, retryAt: map<Key, int>, limit: int, open: Option<Key>,
                       key: Key, state: ItemState, now: Option<Key>)
    requires InOrder(log, items, retryAt, limit, open) && !state.status.RetryWaiting?
    requires now == open || (open == Some(key) && now == None)
    ensures InOrder(log, items[key := state], retryAt, limit, now)
  {
    hide OncePerKey, NeverEarly;
  }

  lemma PostponedInOrder(log: seq<Event>, items: Items, retryAt: map<Key, int>, clock: int, due: int, key: Key)
    requires InOrder(log, items, retryAt, due, None) && MayCreate(log, clock, items, key) && clock <= due
    ensures var after := items[key := ItemState(RetryWaiting, "")];
      InOrder(log, after, retryAt[key := due], due, None) && MayCreate(log, clock, after, key)
  {
    hide OncePerKey, NeverEarly;
  }

  lemma MoreInOrder(log: seq<Event>, items: Items, retryAt: map<Key, int>, clock: int, limit: int, open: Option<Key>,
                    e: Event)
    requires InOrder(log, items, retryAt, limit, open) && MayCreate(log, clock, items, e.key)
    requires e.Created? ==> open == Some(e.key) && e.at == clock
    requires e.Postponed? ==> OnRecord(e, items, retryAt, limit)
    ensures InOrder(log + [e], items, retryAt, limit, open)
  {
    hide Settled;
  }

  lemma SettledForward(items: Items, key: Key, state: ItemState)
    requires !state.status.RetryWaiting?
    ensures forall k :: Settled(items, k) ==> Settled(items[key := state], k)
  {
  }

  lemma OpensNothing(log: seq<Event>, items: Items, retryAt: map<Key, int>, limit: int, open: Option<Key>)
    requires InOrder(log, items, retryAt, limit, None)
    ensures InOrder(log, items, retryAt, limit, open)
  {
  }

  predicate SameAt(a: Items, b: Items, key: Key) {
    (key in a <==> key in b) && (key in a ==> a[key] == b[key])
  }

  // ---------------------------------------------------------------- reviews filed in the store

  /** The reuse reviews created in the store, each with its row, in order. */
  ghost function Filed(history: seq<Op>): seq<(Id, nat)> {
    if history == [] then []
    else
      var last := history[|history| - 1];
      Filed(history[..|history| - 1]) +
        if last.Create? && last.payload.reuseStage then [(last.id, last.payload.planRowIndex)] else []
  }

  /** The reviews the poller has logged as created. */
  ghost function Recorded(log: seq<Event>): seq<(Id, nat)> {
    if log == [] then []
    else
      var last := log[|log| - 1];
      Recorded(log[..|log| - 1]) + if last.Created? then [(last.reviewId, last.row.rowIndex)] else []
  }

  lemma FiledAfter(history: seq<Op>, op: Op)
    ensures Filed(history + [op]) ==
      Filed(history) + if op.Create? && op.payload.reuseStage then [(op.id, op.payload.planRowIndex)] else []
  {
    assert (history + [op])[..|history|] == history;
  }

  lemma RecordedAfter(log: seq<Event>, e: Event)
    ensures Recorded(log + [e]) == Recorded(log) + if e.Created? then [(e.reviewId, e.row.rowIndex)] else []
  {
    assert (log + [e])[..|log|] == log;
  }

  // ---------------------------------------------------------------- the poller

  const MIN_RETRY_DELAY := 60

  class TaskPoller {
    const c: Config
    const store: StateStore
    const retryDelay: int
    var items: Items
    var retryAt: map<Key, int>
    var clock: int
    var log: seq<Event>
    /** The reuse reviews the store held before. */
    ghost const filedBefore: seq<(Id, nat)>

    constructor (c: Config, store: StateStore, retryDelay: int, clock: int)
      requires store.Valid()
      ensures Valid() && log == [] && items == map[]
      ensures this.c == c && this.store == store && this.retryDelay == retryDelay && this.clock == clock
    {
      this.c, this.store, this.retryDelay, this.clock := c, store, retryDelay, clock;
      items, retryAt, log := map[], map[], [];
      filedBefore := Filed(store.history);
    }

    function Delay(): int { Max(MIN_RETRY_DELAY, retryDelay) }

    /** The reuse reviews in the store are those of the log, one creation for one event. */
    ghost predicate LogIsFiled()
      reads this`log, store
    {
      Filed(store.history) == filedBefore + Recorded(log)
    }

    /** Everything but that the entry being processed is settled once its review exists. */
    ghost predicate ValidBut(open: Option<Key>)
      reads this, store
    {
      LogIsFiled() && Sequenced(open)
    }

    /** All of it but the tie between log and store. */
    ghost predicate Sequenced(open: Option<Key>)
      reads this, store
    {
      store.Valid() && InOrder(log, items, retryAt, clock + Delay(), open)
    }

    ghost predicate Valid()
      reads this, store
    {
      ValidBut(None)
    }

    /** What every step keeps: the log and the clock go forward, and what is settled stays settled. */
    twostate predicate Forward()
      reads this
    {
      && old(log) <= log && old(clock) <= clock
      && (forall k :: k in old(items) ==> k in items)
      && (forall k :: Settled(old(items), k) ==> Settled(items, k))
    }

    /** Only entries that have a review were touched. */
    twostate predicate OthersUntouched()
      reads this
    {
      && log == old(log) && retryAt == old(retryAt)
      && forall k :: !HasReview(log, k) ==> SameAt(old(items), items, k)
    }

    /** Other actors between two steps: the executor marks entries whose review exists, the auditor and people
        decide reviews, time passes. */
    method Others(ghost open: Option<Key>)
      requires ValidBut(open)
      modifies this`items, this`clock, store
      ensures ValidBut(open) && Forward() && OthersUntouched()
      ensures forall k :: old(CanCreate(k)) ==> CanCreate(k)
    {
      hide ValidBut, MayCreate, HasReview;
      var steps: nat := *;
      while steps > 0
        invariant ValidBut(open) && Forward() && OthersUntouched()
      {
        var key: Key, mark: ItemStatus, id: Id := *, *, *;
        DecideElsewhere(open);
        if mark in {ItemDeploying, ItemDeployed, ItemDeployFailed, ItemNeedsHuman} {
          Mark(key, ItemState(mark, id), open);
        }
        steps := steps - 1;
      }
      OthersKeepDue(log, old(clock), clock, old(items), items);
    }

    /** Time passes and somebody decides a review. */
    method DecideElsewhere(ghost open: Option<Key>)
      requires ValidBut(open)
      modifies this`clock, store
      ensures ValidBut(open) && clock >= old(clock)
    {
      hide InOrder, Filed, Recorded;
      var passed: nat, id: Id, status: Status := *, *, *;
      LaterInOrder(log, items, retryAt, clock + Delay(), clock + passed + Delay(), open);
      clock := clock + passed;
      FiledAfter(store.history, Decide(id, status, clock));
      store.DecideReview(id, status, clock);
    }

    /** The upsert of an entry into a state that settles it. */
    method SetState(key: Key, state: ItemState, ghost open: Option<Key>, ghost now: Option<Key>)
      requires ValidBut(open) && !state.status.RetryWaiting?
      requires now == open || (open == Some(key) && now == None)
      modifies this`items
      ensures ValidBut(now) && Forward() && items == old(items)[key := state]
    {
      hide InOrder, LogIsFiled, Settled;
      SettledInOrder(log, items, retryAt, clock + Delay(), open, key, state, now);
      SettledForward(items, key, state);
      items := items[key := state];
    }

    /** The executor's upsert for the entry of a review. */
    method Mark(key: Key, state: ItemState, ghost open: Option<Key>)
      requires ValidBut(open) && state.status != RetryWaiting
      modifies this`items
      ensures ValidBut(open) && Forward() && OthersUntouched()
    {
      var found := false;
      for i := 0 to |log|
        invariant found ==> HasReview(log, key)
      {
        found := found || (log[i].Created? && log[i].key == key);
      }
      if found {
        SetState(key, state, open, open);
      }
    }

    // ------------------------------------------------------------ one entry

    ghost predicate CanCreate(key: Key)
      reads this
    {
      MayCreate(log, clock, items, key)
    }

    method Append(e: Event, ghost open: Option<Key>)
      requires Sequenced(open) && CanCreate(e.key) && Filed(store.history) == filedBefore + Recorded(log + [e])
      requires e.Created? ==> open == Some(e.key) && e.at == clock
      requires e.Postponed? ==> OnRecord(e, items, retryAt, clock + Delay())
      modifies this`log
      ensures ValidBut(open) && Forward() && log == old(log) + [e]
    {
      hide InOrder, Filed, Recorded, OnRecord, MayCreate, Settled;
      MoreInOrder(log, items, retryAt, clock, clock + Delay(), open, e);
      log := log + [e];
    }

    method CreateReuseReview(entry: Entry, row: Row, rows: seq<Row>, reserved: set<int>, reviewId: Id)
      requires Valid() && CanCreate(entry.key)
      modifies this`log, store
      ensures ValidBut(Some(entry.key)) && Forward()
      ensures log == old(log) + [Created(entry.key, reviewId, row, rows, reserved, clock)]
      ensures reviewId in store.reviews && store.reviews[reviewId].status == Pending
      ensures Reserving(store.reviews[reviewId]) && store.reviews[reviewId].payload.planRowIndex == row.rowIndex
      ensures store.reviews[reviewId].payload == ReviewStore.Payload(true, row.ip, row.rowIndex, row.ip,
        row.ip + ":" + if entry.modelId != "" then entry.modelId else Normalize(c.prefixes, entry.path).modelId)
    {
      hide InOrder, Filed, Recorded, MayCreate, Settled, Normalize, BuildPlan;
      OpensNothing(log, items, retryAt, clock + Delay(), Some(entry.key));
      var path := Normalize(c.prefixes, entry.path);
      var modelId := if entry.modelId != "" then entry.modelId else path.modelId;
      var plan := BuildPlan(c, path.(modelId := modelId), row);
      PlansItsRow(c, path.(modelId := modelId), row);
      var payload := ReviewStore.Payload(true, plan.row.ip, plan.row.rowIndex, row.ip, row.ip + ":" + modelId);
      FiledAfter(store.history, Create(reviewId, payload, clock));
      RecordedAfter(log, Created(entry.key, reviewId, row, rows, reserved, clock));
      store.CreateReview(reviewId, payload, clock);
      Append(Created(entry.key, reviewId, row, rows, reserved, clock), Some(entry.key));
    }

    method SchedulePlanRetry(key: Key, rows: seq<Row>, reserved: set<int>)
      requires Valid() && CanCreate(key)
      modifies this`log, this`items, this`retryAt
      ensures Valid() && Forward() && clock == old(clock)
      ensures log == old(log) + [Postponed(key, rows, reserved, clock + Delay())]
      ensures retryAt == old(retryAt)[key := clock + if retryDelay > 60 then retryDelay else 60]
      ensures retryAt == old(retryAt)[key := clock + Delay()] && items == old(items)[key := ItemState(RetryWaiting, "")]
    {
      hide ValidBut, Filed, Recorded, CanCreate;
      var due := clock + Delay();
      SetRetry(key, due);
      StillSequenced();
      RecordedAfter(log, Postponed(key, rows, reserved, due));
      Append(Postponed(key, rows, reserved, due), None);
    }

    /** The due time goes on record first, then the state. */
    method SetRetry(key: Key, due: int)
      requires Valid() && CanCreate(key) && due == clock + Delay()
      modifies this`items, this`retryAt
      ensures Valid() && Forward() && CanCreate(key)
      ensures retryAt == old(retryAt)[key := due] && items == old(items)[key := ItemState(RetryWaiting, "")]
    {
      hide InOrder, LogIsFiled;
      PostponedInOrder(log, items, retryAt, clock, due, key);
      retryAt := retryAt[key := due];
      items := items[key := ItemState(RetryWaiting, "")];
    }

    lemma StillSequenced()
      requires Valid()
      ensures Sequenced(None) && LogIsFiled()
    {
    }

    /** The review is created first and the entry marked after; the executor may be quicker. */
    method FileReview(entry: Entry, row: Row, rows: seq<Row>, reserved: set<int>, reviewId: Id)
      requires Valid() && CanCreate(entry.key)
      modifies this`log, this`items, this`clock, store
      ensures Valid() && Forward()
      ensures entry.key in items && items[entry.key] == ItemState(ReviewPending, reviewId)
      ensures forall k :: k != entry.key && !HasReview(old(log), k) ==> SameAt(old(items), items, k)
      ensures log == old(log) + [Created(entry.key, reviewId, row, rows, reserved, old(clock))]
    {
      hide CanCreate, ValidBut, HasReview;
      CreateReuseReview(entry, row, rows, reserved, reviewId);
      HasReviewStep(old(log), log[|old(log)|]);
      Others(Some(entry.key));
      SetState(entry.key, ItemState(ReviewPending, reviewId), Some(entry.key), None);
    }

    /** Any other failure leaves a review for people, which reserves nothing, and the entry failed. */
    method FileErrorReview(key: Key, reserved: set<int>, reviewId: Id)
      requires Valid() && CanCreate(key)
      modifies this`log, this`items, store
      ensures Valid() && Forward() && items == old(items)[key := ItemState(FailedReview, "")]
      ensures log == old(log) + [Failed(key, reserved)]
      ensures reviewId in store.reviews && store.reviews[reviewId].status == Pending
      ensures !Reserving(store.reviews[reviewId])
    {
      hide InOrder, Filed, Recorded, CanCreate, Settled;
      var payload := ReviewStore.Payload(false, "", 0, "", key);
      FiledAfter(store.history, Create(reviewId, payload, clock));
      store.CreateReview(reviewId, payload, clock);
      RecordedAfter(log, Failed(key, reserved));
      Append(Failed(key, reserved), None);
      SetState(key, ItemState(FailedReview, ""), None, None);
    }

    /** One pending entry. Other actors act before it and between its writes. */
    method ProcessEntry(entry: Entry, answer: Answer, reserved: set<int>) returns (taken: set<int>)
      requires Valid() && CanCreate(entry.key)
      modifies this`log, this`items, this`retryAt, this`clock, store
      ensures Valid() && Forward() && entry.key in items
      ensures forall k :: k != entry.key && !HasReview(old(log), k) ==> SameAt(old(items), items, k)
      ensures match answer.table
        case None => log == old(log) + [Failed(entry.key, reserved)] && items[entry.key].status == FailedReview
        case Some(g) =>
          match ChooseRow(c, ParseTable(c, g), 0, reserved)
          case Some(row) =>
            log == old(log) + [Created(entry.key, answer.reviewId, row, ParseTable(c, g), reserved, old(clock))]
          case None =>
            && log == old(log) + [Postponed(entry.key, ParseTable(c, g), reserved, old(clock) + Delay())]
            && items[entry.key].status == RetryWaiting
      ensures forall k :: k != entry.key && old(CanCreate(k)) ==> CanCreate(k)
      ensures |log| == |old(log)| + 1 && WellChosen(c, log[|old(log)|]) && log[|old(log)|].excluded == reserved
      ensures log[|old(log)|].key == entry.key && taken == reserved + TakenBy(log[|old(log)|])
    {
      hide ParseTable, ChooseRow, Reserving, IsFree, IsLeast, CanCreate, ValidBut, HasReview, Settled;
      taken := reserved;
      if answer.table.None? {
        FileErrorReview(entry.key, reserved, answer.reviewId);
      } else {
        var rows := ParseTable(c, answer.table.value);
        var choice := ChooseRow(c, rows, 0, reserved);
        ChoiceIsLeast(c, rows, 0, reserved);
        if choice.None? {
          SchedulePlanRetry(entry.key, rows, reserved);
        } else {
          FileReview(entry, choice.value, rows, reserved, answer.reviewId);
          taken := taken + {choice.value.rowIndex};
        }
      }
      StillDue(entry.key);
    }

    /** Handling one entry leaves the others as due as they were. */
    twostate lemma StillDue(key: Key)
      requires old(log) <= log && |log| <= |old(log)| + 1 && old(clock) <= clock
      requires |log| > |old(log)| ==> log[|old(log)|].key == key
      requires forall k :: k != key && !HasReview(old(log), k) ==> SameAt(old(items), items, k)
      ensures forall k :: k != key && old(CanCreate(k)) ==> CanCreate(k)
    {
    }

    // ------------------------------------------------------------ one scan

    function DueAt(key: Key): int
      reads this
    {
      if key in retryAt then retryAt[key] else 0
    }

    predicate ShouldProcess(states: Items, key: Key)
      reads this
    {
      Unsettled(states, key) && (key in states ==> DueAt(key) <= clock)
    }

    /** The stored states of the entries; an entry without one takes the state of an earlier entry for the same
        model. */
    method EntryStates(entries: seq<Entry>, equivalent: Items) returns (states: Items)
      requires Valid() && NeverWaiting(equivalent)
      ensures forall e :: e in entries ==> (e.key in states <==> e.key in items || e.key in equivalent)
      ensures forall k :: k in states ==>
        (if k in items then states[k] == items[k] else k in equivalent && states[k] == equivalent[k])
      ensures forall e :: e in entries && ShouldProcess(states, e.key) ==> CanCreate(e.key)
    {
      states := map[];
      for i := 0 to |entries|
        invariant forall j :: 0 <= j < i ==>
          (entries[j].key in states <==> entries[j].key in items || entries[j].key in equivalent)
        invariant forall k :: k in states ==>
          (if k in items then states[k] == items[k] else k in equivalent && states[k] == equivalent[k])
      {
        var key := entries[i].key;
        if key in items {
          states := states[key := items[key]];
        } else if key in equivalent {
          states := states[key := equivalent[key]];
        }
      }
      DueCanCreate(entries, equivalent, states);
    }

    lemma DueCanCreate(entries: seq<Entry>, equivalent: Items, states: Items)
      requires Valid() && NeverWaiting(equivalent)
      requires forall e :: e in entries ==> (e.key in states <==> e.key in items || e.key in equivalent)
      requires forall k :: k in states ==>
        (if k in items then states[k] == items[k] else k in equivalent && states[k] == equivalent[k])
      ensures forall e :: e in entries && ShouldProcess(states, e.key) ==> CanCreate(e.key)
    {
      forall e | e in entries && ShouldProcess(states, e.key) ensures CanCreate(e.key) {
        assert !Settled(items, e.key);
      }
    }

    /** Entries whose review has ended take its outcome. */
    method RefreshStates(entries: seq<Entry>, states: Items) returns (refreshed: Items)
      requires Valid()
      modifies this`items
      ensures Valid() && Forward()
      ensures refreshed.Keys == states.Keys
      ensures forall e :: e in entries && e.key in states ==>
        TakesOutcome(store.reviews, states[e.key], refreshed[e.key])
      ensures forall e :: e in entries && e.key in states ==> refreshed[e.key] == Ended(store.reviews, states[e.key])
      ensures forall k :: k in states ==> refreshed[k] in {states[k], Ended(store.reviews, states[k])}
      ensures forall k :: k !in states || Ended(store.reviews, states[k]) == states[k] ==> SameAt(old(items), items, k)
    {
      hide ValidBut, Settled;
      refreshed := states;
      for i := 0 to |entries|
        invariant Valid() && Forward() && refreshed.Keys == states.Keys
        invariant forall j :: 0 <= j < i && entries[j].key in states ==>
          refreshed[entries[j].key] == Ended(store.reviews, states[entries[j].key])
        invariant forall k :: k in states ==> refreshed[k] in {states[k], Ended(store.reviews, states[k])}
        invariant forall k :: k !in states || Ended(store.reviews, states[k]) == states[k] ==>
          SameAt(old(items), items, k)
      {
        var key := entries[i].key;
        if key in states && Ended(store.reviews, states[key]) != states[key] {
          RefreshState(key, states[key]);
          refreshed := refreshed[key := Ended(store.reviews, states[key])];
        }
      }
    }

    method RefreshState(key: Key, state: ItemState)
      requires Valid() && Ended(store.reviews, state) != state
      modifies this`items
      ensures Valid() && Forward() && items == old(items)[key := Ended(store.reviews, state)]
      ensures forall k :: k != key ==> SameAt(old(items), items, k)
    {
      hide ValidBut, Settled;
      SetState(key, Ended(store.reviews, state), None, None);
    }

    /** A whole scan. The table may be another one for every entry. */
    method ProcessTask(entries: seq<Entry>, equivalent: Items, answers: seq<Answer>)
        returns (reserved: set<int>, ghost held: Reviews, ghost states: Items, ghost window: seq<Id>)
      requires Valid() && NeverWaiting(equivalent) && |answers| == |entries|
      requires forall i, j :: 0 <= i < j < |entries| ==> entries[i].key != entries[j].key
      modifies this`log, this`items, this`retryAt, this`clock, store
      ensures Valid() && Forward()
      ensures forall e :: e in entries ==> e.key in items || e.key in equivalent
      ensures held == old(store.reviews) && IsListing(held, held.Keys, 500, window)
      ensures StatesOf(entries, old(items), equivalent, held, states)
      ensures forall row :: row in reserved <==> IsReserved(held, states, window, row)
      ensures IsScan(c, reserved, log[|old(log)|..])
      ensures DecidesThese(c, log[|old(log)|..], entries, answers,
        set e | e in entries && IsDue(old(items), equivalent, old(retryAt), old(clock), e.key))
    {
      hide ValidBut, DecidesThese, StatesOf, IsDue, IsListing, IsReserved, IsScan, MayCreate, SameAt, Ended, Settled;
      var known := EntryStates(entries, equivalent);
      var refreshed := RefreshStates(entries, known);
      states, held := refreshed, store.reviews;
      var newest := store.ListAllReviews(RESERVATION_WINDOW);
      window := newest;
      ListedKnown(store.reviews, newest);
      reserved := ReservedReusableRows(store.reviews, refreshed, newest);
      StatesAre(entries, old(items), equivalent, held, known, refreshed);
      var pending := set e | e in entries && ShouldProcess(refreshed, e.key);
      ghost var due := set e | e in entries && IsDue(old(items), equivalent, old(retryAt), old(clock), e.key);
      RefreshedDue(entries, held, known, refreshed, old(items), items);
      SettledStays(log, clock, old(items), items);
      DueExactly(entries, old(items), equivalent, held, refreshed);
      assert pending == due;
      ProcessPending(entries, pending, answers, reserved);
    }

    lemma DueExactly(entries: seq<Entry>, before: Items, equivalent: Items, m: Reviews, refreshed: Items)
      requires StatesOf(entries, before, equivalent, m, refreshed) && NeverWaiting(equivalent)
      ensures forall e :: e in entries ==>
        (ShouldProcess(refreshed, e.key) <==> IsDue(before, equivalent, retryAt, clock, e.key))
    {
    }

    method ProcessPending(entries: seq<Entry>, pending: set<Entry>, answers: seq<Answer>, reserved: set<int>)
      requires Valid() && |answers| == |entries|
      requires forall i, j :: 0 <= i < j < |entries| ==> entries[i].key != entries[j].key
      requires forall e :: e in pending ==> CanCreate(e.key)
      modifies this`log, this`items, this`retryAt, this`clock, store
      ensures Valid() && Forward()
      requires forall e :: e in pending ==> e in entries
      ensures forall e :: e in pending ==> e.key in items
      ensures DecidesThese(c, log[|old(log)|..], entries, answers, pending)
      ensures IsScan(c, reserved, log[|old(log)|..])
    {
      hide CanCreate, ValidBut, IsScan, SameAt, IsOutcome, AllOutcomes, Decided;
      var taken := reserved;
      assert log[|old(log)|..] == [];
      EmptyScan(c, reserved, entries, answers, pending);
      for i := 0 to |entries|
        invariant Valid() && Forward()
        invariant forall j :: i <= j < |entries| && entries[j] in pending ==> CanCreate(entries[j].key)
        invariant forall j :: 0 <= j < i && entries[j] in pending ==>
          entries[j].key in items && Decided(log[|old(log)|..], entries[j].key)
        invariant AllOutcomes(c, log[|old(log)|..], entries, answers, pending)
        invariant IsScan(c, reserved, log[|old(log)|..]) && taken == reserved + Taken(log[|old(log)|..])
      {
        if entries[i] in pending {
          ghost var before := log;
          taken := ProcessDue(entries[i], answers[i], taken, reserved, |old(log)|);
          DecidedOneMore(before[|old(log)|..], log[|before|]);
          assert log[|old(log)|..] == before[|old(log)|..] + [log[|before|]];
          OneMoreOutcome(c, before[|old(log)|..], log[|before|], entries, answers, pending, i);
        }
      }
    }

    /** One entry of a scan whose log begins at `from`. */
    method ProcessDue(entry: Entry, answer: Answer, taken: set<int>, ghost reserved: set<int>, ghost from: nat)
      returns (now: set<int>)
      requires Valid() && CanCreate(entry.key) && from <= |log|
      requires IsScan(c, reserved, log[from..]) && taken == reserved + Taken(log[from..])
      modifies this`log, this`items, this`retryAt, this`clock, store
      ensures Valid() && Forward() && entry.key in items
      ensures forall k :: k != entry.key && old(CanCreate(k)) ==> CanCreate(k)
      ensures IsScan(c, reserved, log[from..]) && now == reserved + Taken(log[from..])
      ensures |log| == |old(log)| + 1 && log[|old(log)|].key == entry.key
      ensures IsOutcome(c, log[|old(log)|], entry, answer)
    {
      hide CanCreate, WellChosen, ParseTable, ChooseRow, SameAt, HasReview, ValidBut, IsScan;
      Others(None);
      ghost var before := log;
      now := ProcessEntry(entry, answer, taken);
      ScanGrows(c, reserved, before[from..], log[|before|]);
      assert log[from..] == before[from..] + [log[|before|]];
    }

    /** A task that is gone: its postponed entries are given up. */
    method GiveUpRetries(keys: set<Key>)
      requires Valid()
      modifies this`items
      ensures Valid() && Forward()
      ensures items.Keys == old(items).Keys
      ensures forall k :: k in items ==>
        items[k] == GivenUp(old(items)[k], k in keys)
    {
      hide ValidBut;
      var rest := keys * items.Keys;
      while rest != {}
        invariant Valid() && Forward() && items.Keys == old(items).Keys && rest <= keys * items.Keys
        invariant forall k :: k in items ==>
          items[k] == GivenUp(old(items)[k], k in keys - rest)
        decreases |rest|
      {
        var key :| key in rest;
        rest := rest - {key};
        if items[key].status.RetryWaiting? {
          GiveUpRetry(key);
        }
      }
    }

    method GiveUpRetry(key: Key)
      requires Valid() && key in items && items[key].status.RetryWaiting?
      modifies this`items
      ensures Valid() && Forward() && items == old(items)[key := ItemState(TaskUnavailable, "")]
    {
      hide ValidBut, Settled;
      SetState(key, ItemState(TaskUnavailable, ""), None, None);
    }

    /** Any run of the poller, among the other actors. */
    method Run(steps: seq<Step>)
      requires Valid() && forall s :: s in steps ==> IsStep(s)
      modifies this`log, this`items, this`retryAt, this`clock, store
      ensures Valid() && Forward()
      ensures forall key :: Creations(log, key) <= 1 && (Creations(log, key) == 1 ==> Settled(items, key))
      ensures Filed(store.history) == filedBefore + Recorded(log)
    {
      hide ValidBut, SameAt;
      for i := 0 to |steps|
        invariant Valid() && Forward()
      {
        assert steps[i] in steps;
        match steps[i] {
          case Scan(entries, equivalent, answers) =>
            var reserved, held, states, window := ProcessTask(entries, equivalent, answers);
          case Elsewhere => Others(None);
          case GiveUp(keys) => GiveUpRetries(keys);
        }
      }
      AtMostOneEach();
      assert LogIsFiled() by { LogFiled(); }
    }

    lemma LogFiled()
      requires Valid()
      ensures LogIsFiled()
    {
    }

    lemma AtMostOneEach()
      requires Valid()
      ensures forall key :: Creations(log, key) <= 1 && (Creations(log, key) == 1 ==> Settled(items, key))
    {
      forall key ensures Creations(log, key) <= 1 && (Creations(log, key) == 1 ==> Settled(items, key)) {
        CreatedOnce(log, key);
      }
    }
  }

  datatype Step =
    | Scan(entries: seq<Entry>, equivalent: Items, answers: seq<Answer>)
    | Elsewhere
    | GiveUp(keys: set<Key>)

  /** The state of an entry whose task is gone or not. */
  function GivenUp(s: ItemState, gone: bool): ItemState {
    if gone && s.status.RetryWaiting? then ItemState(TaskUnavailable, "") else s
  }

  ghost predicate IsStep(s: Step) {
    s.Scan? ==>
      && NeverWaiting(s.equivalent) && |s.answers| == |s.entries|
      && forall i, j :: 0 <= i < j < |s.entries| ==> s.entries[i].key != s.entries[j].key
  }

  function Creations(log: seq<Event>, key: Key): nat {
    if log == [] then 0
    else Creations(log[..|log| - 1], key) + if log[|log| - 1].Created? && log[|log| - 1].key == key then 1 else 0
  }

  /** A log without two creations of one key is one in which every key is created at most once. */
  lemma AtMostOneReview(log: seq<Event>)
    ensures OncePerKey(log) <==> forall key :: Creations(log, key) <= 1
  {
    if OncePerKey(log) {
      forall key ensures Creations(log, key) <= 1 {
        CreatedOnce(log, key);
      }
    } else {
      var i, j :| 0 <= i < j < |log| && log[i].Created? && log[j].Created? && log[i].key == log[j].key;
      CreatedTwice(log, i, j);
    }
  }

  lemma {:induction false} CreatedOnce(log: seq<Event>, key: Key)
    requires OncePerKey(log)
    ensures Creations(log, key) <= 1 && (Creations(log, key) == 1 <==> HasReview(log, key))
  {
    if log != [] {
      var init, last := log[..|log| - 1], log[|log| - 1];
      assert log == init + [last];
      HasReviewStep(init, last);
      CreatedOnce(init, key);
    }
  }

  lemma {:induction false} CreatedTwice(log: seq<Event>, i: nat, j: nat)
    requires i < j < |log| && log[i].Created? && log[j].Created? && log[i].key == log[j].key
    ensures Creations(log, log[i].key) >= 2
  {
    if j < |log| - 1 {
      CreatedTwice(log[..|log| - 1], i, j);
    } else {
      CreatedAtLeastOnce(log[..j], i);
    }
  }

  lemma {:induction false} CreatedAtLeastOnce(log: seq<Event>, i: nat)
    requires i < |log| && log[i].Created?
    ensures Creations(log, log[i].key) >= 1
  {
    if i < |log| - 1 {
      CreatedAtLeastOnce(log[..|log| - 1], i);
    }
  }

  lemma EmptyScan(c: Config, reserved: set<int>, entries: seq<Entry>, answers: seq<Answer>, pending: set<Entry>)
    requires |answers| == |entries|
    ensures AllOutcomes(c, [], entries, answers, pending)
    ensures IsScan(c, reserved, []) && reserved + Taken([]) == reserved
  {
  }

  /** The event is what the answer gives for the entry: a failure without a table, else a creation under the given id
      or a postponement, on the rows of that table. */
  ghost predicate IsOutcome(c: Config, e: Event, entry: Entry, answer: Answer) {
    && e.key == entry.key
    && match answer.table
       case None => e.Failed?
       case Some(g) =>
         && !e.Failed? && e.rows == ParseTable(c, g)
         && (e.Created? ==> e.reviewId == answer.reviewId)
  }

  /** Every event is the outcome of an entry that was to be decided. */
  ghost predicate AllOutcomes(c: Config, log: seq<Event>, entries: seq<Entry>, answers: seq<Answer>,
                              pending: set<Entry>)
    requires |answers| == |entries|
  {
    forall e :: e in log ==>
      exists i :: 0 <= i < |entries| && entries[i] in pending && IsOutcome(c, e, entries[i], answers[i])
  }

  /** Exactly these entries are decided, each as its answer gives it. */
  ghost predicate DecidesThese(c: Config, log: seq<Event>, entries: seq<Entry>, answers: seq<Answer>,
                               due: set<Entry>)
    requires |answers| == |entries|
  {
    AllOutcomes(c, log, entries, answers, due) && forall e :: e in due ==> Decided(log, e.key)
  }

  lemma OneMoreOutcome(c: Config, log: seq<Event>, e: Event, entries: seq<Entry>, answers: seq<Answer>,
                       pending: set<Entry>, i: nat)
    requires |answers| == |entries| && AllOutcomes(c, log, entries, answers, pending)
    requires i < |entries| && entries[i] in pending && IsOutcome(c, e, entries[i], answers[i])
    ensures AllOutcomes(c, log + [e], entries, answers, pending)
  {
    hide IsOutcome;
  }

  ghost predicate Decided(log: seq<Event>, key: Key) { exists e :: e in log && e.key == key }

  lemma DecidedOneMore(log: seq<Event>, e: Event)
    ensures forall k :: Decided(log, k) || k == e.key ==> Decided(log + [e], k)
  {
    assert e in log + [e];
    forall k | Decided(log, k) ensures Decided(log + [e], k) {
      var x :| x in log && x.key == k;
      assert x in log + [e];
    }
  }

  /** An entry is to be decided now: it was never seen, nor one for the same model, or its retry time has come. */
  ghost predicate IsDue(items: Items, equivalent: Items, retryAt: map<Key, int>, clock: int, key: Key) {
    || (key !in items && key !in equivalent)
    || (key in items && items[key].status == RetryWaiting && (if key in retryAt then retryAt[key] else 0) <= clock)
  }

  predicate Unsettled(states: Items, key: Key) { key !in states || states[key].status.RetryWaiting? }

  /** An entry that is not settled after the states were refreshed was not settled before, and was not touched. */
  lemma RefreshedDue(entries: seq<Entry>, m: Reviews, known: Items, refreshed: Items, before: Items, after: Items)
    requires refreshed.Keys == known.Keys
    requires forall e :: e in entries && e.key in known ==> refreshed[e.key] == Ended(m, known[e.key])
    requires forall k :: k !in known || Ended(m, known[k]) == known[k] ==> SameAt(before, after, k)
    ensures forall e :: e in entries && Unsettled(refreshed, e.key) ==>
      Unsettled(known, e.key) && SameAt(before, after, e.key)
  {
  }

  lemma SettledStays(log: seq<Event>, clock: int, before: Items, after: Items)
    ensures forall k :: SameAt(before, after, k) && MayCreate(log, clock, before, k) ==> MayCreate(log, clock, after, k)
  {
  }

  predicate NeverWaiting(states: Items) { forall k :: k in states ==> !states[k].status.RetryWaiting? }

  /** The state an entry takes from its review. */
  function Ended(m: Reviews, s: ItemState): ItemState {
    if !Active(s) || s.requestId == "" || s.requestId !in m then s
    else
      match m[s.requestId].status
      case Deployed => s.(status := ItemDeployed)
      case DeployFailed => s.(status := ItemDeployFailed)
      case NeedsHuman => s.(status := ItemNeedsHuman)
      case _ => s
  }

  /** The states a scan works on: the stored state of an entry, or that of an earlier entry for the same model, brought
      up to date with its review. */
  ghost predicate StatesOf(entries: seq<Entry>, items: Items, equivalent: Items, m: Reviews, states: Items) {
    forall e :: e in entries ==>
      && (e.key in states <==> e.key in items || e.key in equivalent)
      && (e.key in items ==> TakesOutcome(m, items[e.key], states[e.key]))
      && (e.key !in items && e.key in equivalent ==> TakesOutcome(m, equivalent[e.key], states[e.key]))
  }

  /** An entry waiting for its review takes over that it was deployed, failed to deploy or went to people, and nothing
      else changes. */
  ghost predicate TakesOutcome(m: Reviews, s: ItemState, now: ItemState) {
    && now.requestId == s.requestId
    && (HasEnded(m, s, Deployed) ==> now.status == ItemDeployed)
    && (HasEnded(m, s, DeployFailed) ==> now.status == ItemDeployFailed)
    && (HasEnded(m, s, NeedsHuman) ==> now.status == ItemNeedsHuman)
    && (HasEnded(m, s, Deployed) || HasEnded(m, s, DeployFailed) || HasEnded(m, s, NeedsHuman) || now == s)
  }

  ghost predicate HasEnded(m: Reviews, s: ItemState, outcome: Status) {
    && s.status in {ReviewPending, ItemCodexReviewing, ItemApproved, ItemDeploying}
    && s.requestId != "" && s.requestId in m && m[s.requestId].status == outcome
  }

  lemma StatesAre(entries: seq<Entry>, items: Items, equivalent: Items, m: Reviews, known: Items, states: Items)
    requires forall e :: e in entries ==> (e.key in known <==> e.key in items || e.key in equivalent)
    requires forall k :: k in known ==>
      (if k in items then known[k] == items[k] else k in equivalent && known[k] == equivalent[k])
    requires states.Keys == known.Keys
    requires forall e :: e in entries && e.key in known ==> states[e.key] == Ended(m, known[e.key])
    ensures StatesOf(entries, items, equivalent, m, states)
  {
  }

  lemma PlansItsRow(c: Config, path: PathInfo, row: Row)
    ensures BuildPlan(c, path, row).row == row
  {
  }

  lemma OthersKeepDue(log: seq<Event>, clock: int, later: int, before: Items, after: Items)
    requires clock <= later && forall k :: !HasReview(log, k) ==> SameAt(before, after, k)
    ensures forall k :: MayCreate(log, clock, before, k) ==> MayCreate(log, later, after, k)
  {
  }

  lemma ListedKnown(m: Reviews, window: seq<Id>)
    requires IsListing(m, m.Keys, 500, window)
    ensures forall id :: id in window ==> id in m
  {
  }
}
