/** The operator-review table of the state store (src/fmh/store.py). */
module ReviewStore {
  import opened Ordering

  type Id = string

  datatype Status =
    | Pending | RetryRequested | Approved        // waiting for the auditor
    | CodexReviewing | Deploying                 // in flight
    | NeedsHuman | Blocked | Deployed | DeployFailed

  const CLAIMABLE := {Pending, RetryRequested, Approved}

  predicate InFlight(s: Status) { s in {CodexReviewing, Deploying} }

  /** The parts of a review payload the control logic looks at. An absent field is "" or 0. */
  datatype Payload = Payload(reuseStage: bool, planIp: string, planRowIndex: nat, selectedIp: string, subject: string)

  datatype Review = Review(payload: Payload, status: Status, updatedAt: int)

  type Reviews = map<Id, Review>

  /** Text before the first colon, or "" when there is none. */
  function BeforeColon(s: string): string {
    if s == [] then ""
    else if s[0] == ':' then ""
    else if ':' in s then [s[0]] + BeforeColon(s[1..]) else ""
  }

  /** The worker a review will touch; "" when it names none. */
  function WorkerOf(p: Payload): string {
    if p.planIp != "" then p.planIp
    else if p.selectedIp != "" then p.selectedIp
    else BeforeColon(p.subject)
  }

  lemma {:induction false} BeforeColonSplits(ip: string, rest: string)
    requires ':' !in ip
    ensures BeforeColon(ip + ":" + rest) == ip
  {
    var s := ip + ":" + rest;
    assert s[|ip|] == ':';
    if ip != "" {
      assert s[1..] == ip[1..] + ":" + rest;
      BeforeColonSplits(ip[1..], rest);
    }
  }

  /** The plan's worker counts first, then the selected one, then what the subject says before its colon. */
  lemma WorkerIs(p: Payload)
    ensures p.planIp != "" ==> WorkerOf(p) == p.planIp
    ensures p.planIp == "" && p.selectedIp != "" ==> WorkerOf(p) == p.selectedIp
    ensures p.planIp == "" && p.selectedIp == "" ==>
      if ':' in p.subject then ':' !in WorkerOf(p) && WorkerOf(p) + ":" <= p.subject else WorkerOf(p) == ""
  {
    ColonFollows(p.subject);
  }

  lemma {:induction false} ColonFollows(s: string)
    ensures if ':' in s then ':' !in BeforeColon(s) && BeforeColon(s) + ":" <= s else BeforeColon(s) == ""
  {
    if ':' in s && s[0] != ':' {
      ColonFollows(s[1..]);
      assert BeforeColon(s) + ":" == [s[0]] + (BeforeColon(s[1..]) + ":");
    }
  }

  /** The three places a reuse review names its worker agree, so losing the plan row, or the plan
      row and the selected row, does not change the worker the review is serialised on. */
  lemma WorkerSurvivesLostRows(ip: string, modelId: string, stage: bool, index: nat)
    requires ':' !in ip
    ensures var subject := ip + ":" + modelId;
            && WorkerOf(Payload(stage, ip, index, ip, subject)) == ip
            && WorkerOf(Payload(stage, "", 0, ip, subject)) == ip
            && WorkerOf(Payload(stage, "", 0, "", subject)) == ip
  {
    BeforeColonSplits(ip, modelId);
    assert ip + ":" + modelId == ip + (":" + modelId);
  }

  // ---------------------------------------------------------------- operations on the table

  datatype Op =
    | Create(id: Id, payload: Payload, at: int)
    | Decide(id: Id, status: Status, at: int)
    | Claim(id: Id, from: set<Status>, to: Status, at: int)

  predicate Wins(m: Reviews, op: Op) {
    op.Claim? && op.id in m && m[op.id].status in op.from
  }

  /** What one write does to the table: an upsert, an unconditional update and a
      compare-and-set update. */
  function Apply(m: Reviews, op: Op): Reviews {
    match op
    case Create(id, payload, at) => m[id := Review(payload, Pending, at)]
    case Decide(id, status, at) =>
      if id in m then m[id := m[id].(status := status, updatedAt := at)] else m
    case Claim(id, from, to, at) =>
      if id in m && m[id].status in from then m[id := m[id].(status := to, updatedAt := at)] else m
  }

  function Replay(m: Reviews, ops: seq<Op>): Reviews {
    if ops == [] then m else Apply(Replay(m, ops[..|ops| - 1]), ops[|ops| - 1])
  }

  /** Successful claims of `id` in a run from `m`. */
  function Claims(m: Reviews, ops: seq<Op>, id: Id): nat {
    if ops == [] then 0
    else
      var init, last := ops[..|ops| - 1], ops[|ops| - 1];
      Claims(m, init, id) + if last.id == id && Wins(Replay(m, init), last) then 1 else 0
  }

  /** A write that puts its review into a claimable status. */
  predicate Grants(op: Op) {
    op.Create? || (op.Decide? && op.status in CLAIMABLE)
  }

  function GrantCount(ops: seq<Op>, id: Id): nat {
    if ops == [] then 0
    else GrantCount(ops[..|ops| - 1], id) + if ops[|ops| - 1].id == id && Grants(ops[|ops| - 1]) then 1 else 0
  }

  function Claimable(m: Reviews, id: Id): nat {
    if id in m && m[id].status in CLAIMABLE then 1 else 0
  }

  /** Every claimer takes a review out of a claimable status into one that is not. */
  ghost predicate ProperClaims(ops: seq<Op>) {
    forall i :: 0 <= i < |ops| && ops[i].Claim? ==> ops[i].from <= CLAIMABLE && ops[i].to !in CLAIMABLE
  }

  /** Claim accounting, for any number of claimers and any run. */
  lemma {:induction false} ClaimAccounting(m: Reviews, ops: seq<Op>, id: Id)
    requires ProperClaims(ops)
    ensures Claims(m, ops, id) + Claimable(Replay(m, ops), id) <= GrantCount(ops, id) + Claimable(m, id)
  {
    if ops != [] {
      ClaimAccounting(m, ops[..|ops| - 1], id);
    }
  }

  lemma {:induction false} ReplayConcat(m: Reviews, a: seq<Op>, b: seq<Op>)
    ensures Replay(m, a + b) == Replay(Replay(m, a), b)
  {
    if b == [] {
      assert a + b == a;
    } else {
      assert (a + b)[..|a + b| - 1] == a + b[..|b| - 1];
      ReplayConcat(m, a, b[..|b| - 1]);
    }
  }

  lemma {:induction false} NoGrantsCountZero(ops: seq<Op>, id: Id)
    requires forall i :: 0 <= i < |ops| && ops[i].id == id ==> !Grants(ops[i])
    ensures GrantCount(ops, id) == 0
  {
    if ops != [] {
      NoGrantsCountZero(ops[..|ops| - 1], id);
    }
  }

  /** Two winners of one review are always separated by a fresh re-queue or approval. */
  lemma WinnersSeparated(m: Reviews, ops: seq<Op>, i: nat, j: nat)
    requires ProperClaims(ops)
    requires i < j < |ops| && ops[i].id == ops[j].id
    requires Wins(Replay(m, ops[..i]), ops[i]) && Wins(Replay(m, ops[..j]), ops[j])
    ensures exists k :: i < k < j && ops[k].id == ops[i].id && Grants(ops[k])
  {
    var id := ops[i].id;
    var between := ops[i + 1..j];
    assert ops[..i + 1][..|ops[..i + 1]| - 1] == ops[..i];
    var start := Replay(m, ops[..i + 1]);
    assert Claimable(start, id) == 0;
    assert ops[..j] == ops[..i + 1] + between;
    ReplayConcat(m, ops[..i + 1], between);
    assert ProperClaims(between) by {
      forall k | 0 <= k < |between| && between[k].Claim?
        ensures between[k].from <= CLAIMABLE && between[k].to !in CLAIMABLE
      { assert between[k] == ops[i + 1 + k]; }
    }
    ClaimAccounting(start, between, id);
    if forall k :: i < k < j && ops[k].id == id ==> !Grants(ops[k]) {
      NoGrantsCountZero(between, id);
      assert false;
    }
  }

  // ---------------------------------------------------------------- newest-first windows

  ghost function WithStatus(m: Reviews, status: Status): set<Id> {
    set id | id in m && m[id].status == status
  }

  /** `w` lists at most `limit` of the matching reviews, newest first. */
  ghost predicate IsListing(m: Reviews, matching: set<Id>, limit: nat, w: seq<Id>) {
    && Distinct(w)
    && (forall id :: id in w ==> id in matching && id in m)
    && |w| == (if |matching| <= limit then |matching| else limit)
    && (forall i, j :: 0 <= i < j < |w| ==> m[w[i]].updatedAt >= m[w[j]].updatedAt)
    && (forall id, i :: id in matching && id in m && id !in w && 0 <= i < |w| ==> m[w[i]].updatedAt >= m[id].updatedAt)
  }

  /** A listing of the reviews in one status. */
  ghost predicate IsWindow(m: Reviews, status: Status, limit: nat, w: seq<Id>) {
    IsListing(m, WithStatus(m, status), limit, w)
  }

  lemma WindowKnown(m: Reviews, status: Status, limit: nat, w: seq<Id>)
    requires IsWindow(m, status, limit, w)
    ensures Distinct(w) && forall id :: id in w ==> id in m && m[id].status == status
  {
  }

  ghost predicate NewestFirstOrder(m: Reviews, rows: seq<Id>) {
    && (forall id :: id in rows ==> id in m)
    && (forall i, j :: 0 <= i < j < |rows| ==> m[rows[i]].updatedAt >= m[rows[j]].updatedAt)
  }

  lemma NewestFirst(m: Reviews, matching: set<Id>, rows: seq<Id>)
    requires matching <= m.Keys && forall id :: id in rows <==> id in matching
    requires Ascending(rows, Age(m))
    ensures NewestFirstOrder(m, rows)
  {
    forall i, j | 0 <= i < j < |rows| ensures m[rows[i]].updatedAt >= m[rows[j]].updatedAt {
      assert rows[i] in rows && rows[j] in rows;
      assert Age(m)(rows[i]) <= Age(m)(rows[j]);
    }
  }

  function Age(m: Reviews): Id -> int {
    id => if id in m then -m[id].updatedAt else 0
  }

  lemma BeyondCut(rows: seq<Id>, limit: nat, j: nat)
    requires j < |rows| && limit <= |rows| && rows[j] !in rows[..limit]
    ensures limit <= j
  {
    assert forall k :: 0 <= k < limit ==> rows[..limit][k] == rows[k];
  }

  lemma CutIsListing(m: Reviews, matching: set<Id>, limit: nat, rows: seq<Id>)
    requires Distinct(rows) && NewestFirstOrder(m, rows)
    requires forall id :: id in rows <==> id in matching
    requires limit < |rows|
    ensures IsListing(m, matching, limit, rows[..limit])
  {
    DistinctLength(rows, matching);
    var w := rows[..limit];
    assert forall id :: id in w ==> id in rows;
    assert Distinct(w) by {
      assert forall i :: 0 <= i < |w| ==> w[i] == rows[i];
    }
    assert forall i, j :: 0 <= i < j < |w| ==> m[w[i]].updatedAt >= m[w[j]].updatedAt by {
      assert forall i :: 0 <= i < |w| ==> w[i] == rows[i];
    }
    forall id, i | id in matching && id !in w && 0 <= i < |w|
      ensures m[w[i]].updatedAt >= m[id].updatedAt
    {
      CutDominates(m, rows, limit, id, i);
    }
  }

  lemma CutDominates(m: Reviews, rows: seq<Id>, limit: nat, id: Id, i: nat)
    requires NewestFirstOrder(m, rows)
    requires i < limit < |rows| && id in rows && id !in rows[..limit]
    ensures m[rows[..limit][i]].updatedAt >= m[id].updatedAt
  {
    var j :| 0 <= j < |rows| && rows[j] == id;
    BeyondCut(rows, limit, j);
    assert rows[..limit][i] == rows[i];
  }

  /** A listing that was not cut short shows every matching review. */
  lemma UncutListingIsAll(m: Reviews, matching: set<Id>, limit: nat, w: seq<Id>)
    requires IsListing(m, matching, limit, w)
    requires |matching| <= limit
    ensures forall id :: id in matching ==> id in w
  {
    var shown := set id | id in w;
    DistinctLength(w, shown);
    assert shown <= matching;
    SameSizeSubset(shown, matching);
  }

  lemma UncutWindowIsAll(m: Reviews, status: Status, limit: nat, w: seq<Id>)
    requires IsWindow(m, status, limit, w)
    requires |WithStatus(m, status)| <= limit
    ensures forall id :: id in WithStatus(m, status) ==> id in w
  {
    UncutListingIsAll(m, WithStatus(m, status), limit, w);
  }

  /** The store. `history` is every write since the database was empty. */
  class StateStore {
    var reviews: Reviews
    ghost var history: seq<Op>

    ghost predicate Valid() reads this {
      reviews == Replay(map[], history) && ProperClaims(history)
    }

    constructor ()
      ensures Valid() && reviews == map[] && history == []
    {
      reviews := map[];
      history := [];
    }

    ghost method Record(op: Op, before: Reviews)
      requires before == Replay(map[], history) && ProperClaims(history)
      requires reviews == Apply(before, op)
      requires op.Claim? ==> op.from <= CLAIMABLE && op.to !in CLAIMABLE
      modifies this`history
      ensures Valid() && history == old(history) + [op]
    {
      history := history + [op];
      assert history[..|history| - 1] == old(history);
    }

    method CreateReview(id: Id, payload: Payload, now: int)
      requires Valid()
      modifies this
      ensures Valid() && reviews == Apply(old(reviews), Create(id, payload, now))
      ensures history == old(history) + [Create(id, payload, now)]
    {
      ghost var before := reviews;
      reviews := reviews[id := Review(payload, Pending, now)];
      Record(Create(id, payload, now), before);
    }

    method DecideReview(id: Id, status: Status, now: int)
      requires Valid()
      modifies this
      ensures Valid() && reviews == Apply(old(reviews), Decide(id, status, now))
      ensures history == old(history) + [Decide(id, status, now)]
    {
      ghost var before := reviews;
      if id in reviews {
        reviews := reviews[id := reviews[id].(status := status, updatedAt := now)];
      }
      Record(Decide(id, status, now), before);
    }

    /** The conditional update; true when exactly one row changed. */
    method ClaimReview(id: Id, from: set<Status>, to: Status, now: int) returns (won: bool)
      requires Valid() && from <= CLAIMABLE && to !in CLAIMABLE
      modifies this
      ensures Valid() && reviews == Apply(old(reviews), Claim(id, from, to, now))
      ensures history == old(history) + [Claim(id, from, to, now)]
      ensures won <==> Wins(old(reviews), Claim(id, from, to, now))
    {
      ghost var before := reviews;
      won := false;
      if id in reviews && reviews[id].status in from {
        reviews := reviews[id := reviews[id].(status := to, updatedAt := now)];
        won := true;
      }
      Record(Claim(id, from, to, now), before);
    }

    method ListReviews(limit: nat, status: Status) returns (w: seq<Id>)
      ensures IsWindow(reviews, status, limit, w)
    {
      var m := reviews;
      var matching := set id | id in m && m[id].status == status;
      assert matching == WithStatus(m, status);
      w := Newest(matching, limit);
    }

    method ListAllReviews(limit: nat) returns (w: seq<Id>)
      ensures IsListing(reviews, reviews.Keys, limit, w)
    {
      w := Newest(reviews.Keys, limit);
    }

    method Newest(matching: set<Id>, limit: nat) returns (w: seq<Id>)
      requires matching <= reviews.Keys
      ensures IsListing(reviews, matching, limit, w)
    {
      var m := reviews;
      var rows := OrderBy(matching, Age(m));
      NewestFirst(m, matching, rows);
      DistinctLength(rows, matching);
      w := rows;
      if limit < |rows| {
        CutIsListing(m, matching, limit, rows);
        w := rows[..limit];
      }
    }

    /** The store of any run obeys the claim accounting. */
    lemma StoreAccounting(id: Id)
      requires Valid()
      ensures Claims(map[], history, id) + Claimable(reviews, id) <= GrantCount(history, id)
    {
      ClaimAccounting(map[], history, id);
    }
  }
}
