/** Launching a request (src/fmh/orchestrator.py over the request table of src/fmh/store.py): any number of
    callers submit one request id, interleaved at every store access and every command. */
module Orchestrator {
  import opened Wrappers

  datatype Status =
    | Pending | LaunchingResource | ResourceReady | ConfiguringEnv | StartingVllm | HealthChecking
    | Serving | DryRunComplete | FailedResource | FailedEnv | FailedVllm | FailedHealthCheck

  predicate Terminal(s: Status) {
    s in {Serving, DryRunComplete, FailedResource, FailedEnv, FailedVllm, FailedHealthCheck}
  }

  /** A line of the event log; `from` is None where the source logs an empty state. */
  datatype Event = Event(from: Option<Status>, to: Status)

  datatype Command = EnsureSession | Rlaunch | Env | Vllm | HealthCheck

  datatype Outcome = Ok | RunnerError | Crash

  /** Which optional steps the plan of the request has. */
  datatype Shape = Shape(rlaunch: bool, setup: bool, dryRun: bool)

  type Caller = nat

  /** Where a caller is. A transition reads the request and then saves it with its event. */
  datatype Pc =
    | Check | Insert | Recheck | Build
    | Read(target: Status) | Save(was: Status, target: Status)
    | Exec(command: Command)
    | Returned(seen: Status) | Raised

  predicate Executing(pc: Pc) { pc.Build? || pc.Read? || pc.Save? || pc.Exec? }

  // ---------------------------------------------------------------- the launch sequence

  function AfterSave(shape: Shape, s: Status): Pc {
    match s
    case LaunchingResource => Exec(EnsureSession)
    case ResourceReady => Read(if shape.setup then ConfiguringEnv else StartingVllm)
    case ConfiguringEnv => Exec(Env)
    case StartingVllm => Exec(Vllm)
    case HealthChecking => Exec(HealthCheck)
    case _ => Returned(s)
  }

  function AfterCommand(shape: Shape, command: Command, outcome: Outcome): Pc {
    if outcome.Crash? then Read(FailedVllm)
    else
      match command
      case EnsureSession =>
        if outcome.RunnerError? then Read(FailedResource)
        else if shape.rlaunch then Exec(Rlaunch) else Read(ResourceReady)
      case Rlaunch => Read(if outcome.RunnerError? then FailedResource else ResourceReady)
      case Env => Read(if outcome.RunnerError? then FailedEnv else StartingVllm)
      case Vllm =>
        if outcome.RunnerError? then Read(FailedVllm)
        else Read(if shape.dryRun then DryRunComplete else HealthChecking)
      case HealthCheck => Read(if outcome.RunnerError? then FailedHealthCheck else Serving)
  }

  // ---------------------------------------------------------------- what the log means

  /** The life of a request, as its statuses are documented. */
  predicate Follows(shape: Shape, a: Status, b: Status) {
    match a
    case Pending => b == LaunchingResource
    case LaunchingResource => b in {ResourceReady, FailedResource, FailedVllm}
    case ResourceReady => b == if shape.setup then ConfiguringEnv else StartingVllm
    case ConfiguringEnv => b in {StartingVllm, FailedEnv, FailedVllm}
    case StartingVllm => b in {if shape.dryRun then DryRunComplete else HealthChecking, FailedVllm}
    case HealthChecking => b in {Serving, FailedHealthCheck, FailedVllm}
    case _ => false
  }

  /** A connected log: from nothing to pending, and on from status to status along the life of a request. */
  ghost predicate Chain(shape: Shape, events: seq<Event>) {
    forall i :: 0 <= i < |events| ==> Linked(shape, events, i)
  }

  ghost predicate Linked(shape: Shape, events: seq<Event>, i: nat)
    requires i < |events|
  {
    if i == 0 then events[0] == Event(None, Pending)
    else events[i].from == Some(events[i - 1].to) && Follows(shape, events[i - 1].to, events[i].to)
  }

  lemma ChainGrows(shape: Shape, events: seq<Event>, e: Event)
    requires Chain(shape, events)
    requires events == [] ==> e == Event(None, Pending)
    requires events != [] ==> e.from == Some(events[|events| - 1].to) && Follows(shape, events[|events| - 1].to, e.to)
    ensures Chain(shape, events + [e])
  {
    hide Follows;
    var more := events + [e];
    forall i | 0 <= i < |more| ensures Linked(shape, more, i) {
      if i < |events| {
        assert Linked(shape, events, i);
      }
    }
  }

  function TerminalEvents(events: seq<Event>): nat {
    if events == [] then 0
    else TerminalEvents(events[..|events| - 1]) + if Terminal(events[|events| - 1].to) then 1 else 0
  }

  /** A terminal status can only be the last: a chain has one terminal event if it ends in one, and none otherwise. */
  lemma {:induction false} TerminalIsLast(shape: Shape, events: seq<Event>)
    requires Chain(shape, events)
    ensures TerminalEvents(events) == if events != [] && Terminal(events[|events| - 1].to) then 1 else 0
  {
    if events != [] {
      var init := events[..|events| - 1];
      assert Chain(shape, init) by {
        forall i | 0 <= i < |init| ensures Linked(shape, init, i) {
          assert Linked(shape, events, i);
        }
      }
      TerminalIsLast(shape, init);
      assert Linked(shape, events, |events| - 1);
    }
  }

  /** The commands of a complete launch. */
  function Launch(shape: Shape): seq<Command> {
    [EnsureSession] + (if shape.rlaunch then [Rlaunch] else []) + (if shape.setup then [Env] else []) + [Vllm] +
    (if shape.dryRun then [] else [HealthCheck])
  }

  datatype Run = Run(caller: Caller, command: Command, outcome: Outcome)

  ghost predicate AllOk(ran: seq<Run>) { forall i :: 0 <= i < |ran| ==> ran[i].outcome == Ok }

  /** The last command ended this way, and all before it went well. */
  ghost predicate EndedAt(ran: seq<Run>, commands: set<Command>, outcome: Outcome) {
    ran != [] && AllOk(ran[..|ran| - 1]) && ran[|ran| - 1].command in commands && ran[|ran| - 1].outcome == outcome
  }

  /** What the commands must have given for a request to get a status. */
  ghost predicate Explains(s: Status, ran: seq<Run>) {
    match s
    case Serving => EndedAt(ran, {HealthCheck}, Ok)
    case DryRunComplete => EndedAt(ran, {Vllm}, Ok)
    case FailedResource => EndedAt(ran, {EnsureSession, Rlaunch}, RunnerError)
    case FailedEnv => EndedAt(ran, {Env}, RunnerError)
    case FailedVllm =>
      || EndedAt(ran, {Vllm}, RunnerError)
      || EndedAt(ran, {EnsureSession, Rlaunch, Env, Vllm, HealthCheck}, Crash)
    case FailedHealthCheck => EndedAt(ran, {HealthCheck}, RunnerError)
    case _ => AllOk(ran)
  }

  /** The status a caller at `pc` is about to save, or has left in the store. */
  ghost function Heading(pc: Pc, status: Status): Status {
    match pc
    case Read(target) => target
    case Save(_, target) => target
    case _ => status
  }

  /** One caller ran everything, along the launch sequence. */
  ghost predicate OneLaunch(shape: Shape, ran: seq<Run>, owner: Option<Caller>) {
    && |ran| <= |Launch(shape)|
    && (forall i :: 0 <= i < |ran| ==> Some(ran[i].caller) == owner && ran[i].command == Launch(shape)[i])
  }

  function Allocating(shape: Shape): nat { if shape.rlaunch then 2 else 1 }

  function Prepared(shape: Shape): nat { Allocating(shape) + if shape.setup then 1 else 0 }

  /** How many commands have been run when a status is saved. */
  predicate Reached(shape: Shape, s: Status, n: nat) {
    match s
    case Pending => n == 0
    case LaunchingResource => n == 0
    case ResourceReady => n == Allocating(shape)
    case ConfiguringEnv => n == Allocating(shape)
    case StartingVllm => n == Prepared(shape)
    case HealthChecking => n == Prepared(shape) + 1
    case DryRunComplete => n == |Launch(shape)|
    case Serving => n == |Launch(shape)|
    case FailedHealthCheck => n == |Launch(shape)|
    case FailedResource => 1 <= n <= Allocating(shape)
    case FailedEnv => n == Prepared(shape)
    case FailedVllm => 1 <= n <= |Launch(shape)|
  }

  /** How many commands have been run when a caller is at `pc`. */
  predicate Ran(shape: Shape, pc: Pc, n: nat) {
    match pc
    case Build => n == 0
    case Read(target) => Reached(shape, target, n)
    case Save(_, target) => Reached(shape, target, n)
    case Exec(EnsureSession) => n == 0
    case Exec(Rlaunch) => n == 1 && shape.rlaunch
    case Exec(Env) => n == Allocating(shape) && shape.setup
    case Exec(Vllm) => n == Prepared(shape)
    case Exec(HealthCheck) => n == Prepared(shape) + 1 && !shape.dryRun
    case Returned(s) => Reached(shape, s, n)
    case _ => true
  }

  /** The status that a caller at `pc` has left in the store. */
  ghost predicate Fits(shape: Shape, pc: Pc, status: Status) {
    match pc
    case Build => status == Pending
    case Read(target) => Follows(shape, status, target)
    case Save(was, target) => was == status && Follows(shape, status, target)
    case Exec(EnsureSession) => status == LaunchingResource
    case Exec(Rlaunch) => status == LaunchingResource
    case Exec(Env) => status == ConfiguringEnv
    case Exec(Vllm) => status == StartingVllm
    case Exec(HealthCheck) => status == HealthChecking
    case _ => true
  }

  // ---------------------------------------------------------------- how long a caller takes

  ghost function StatusRank(s: Status): nat {
    match s
    case Pending => 18
    case LaunchingResource => 18
    case ResourceReady => 14
    case ConfiguringEnv => 12
    case StartingVllm => 9
    case HealthChecking => 6
    case _ => 3
  }

  /** The most steps a caller at `pc` still takes. */
  ghost function Rank(pc: Pc): nat {
    match pc
    case Check => 22
    case Insert => 21
    case Recheck => 20
    case Build => 20
    case Read(target) => StatusRank(target) + 1
    case Save(_, target) => StatusRank(target)
    case Exec(EnsureSession) => 17
    case Exec(Rlaunch) => 16
    case Exec(Env) => 11
    case Exec(Vllm) => 8
    case Exec(HealthCheck) => 5
    case Returned(_) => 0
    case Raised => 0
  }

  ghost function RankIn(pcs: map<Caller, Pc>, k: Caller): nat { if k in pcs then Rank(pcs[k]) else 23 }

  lemma NextIsNearer(shape: Shape, was: Status, s: Status, command: Command, outcome: Outcome)
    requires s != Pending
    ensures Rank(AfterSave(shape, s)) < Rank(Save(was, s))
    ensures Rank(AfterCommand(shape, command, outcome)) < Rank(Exec(command))
  {
  }

  ghost function StepsOf(schedule: seq<(Caller, Outcome)>, k: Caller): nat {
    if schedule == [] then 0
    else StepsOf(schedule[..|schedule| - 1], k) + if schedule[|schedule| - 1].0 == k then 1 else 0
  }

  lemma OneMoreStep(schedule: seq<(Caller, Outcome)>, i: nat)
    requires i < |schedule|
    ensures forall k :: StepsOf(schedule[..i + 1], k) == StepsOf(schedule[..i], k) + if schedule[i].0 == k then 1 else 0
  {
    assert schedule[..i + 1][..i] == schedule[..i];
  }

  lemma Unranked(pcs: map<Caller, Pc>, k: Caller)
    ensures RankIn(pcs, k) <= 23
    ensures RankIn(pcs, k) == 0 ==> k in pcs && (pcs[k].Returned? || pcs[k].Raised?)
  {
  }

  class DeploymentOrchestrator {
    const shape: Shape
    var status: Option<Status>
    var events: seq<Event>
    var pcs: map<Caller, Pc>
    var ran: seq<Run>
    /** The caller whose insert won. */
    ghost var owner: Option<Caller>

    constructor (shape: Shape)
      ensures Valid() && this.shape == shape && status == None && ran == []
    {
      this.shape := shape;
      status, events, pcs, ran, owner := None, [], map[], [], None;
    }

    ghost predicate Valid()
      reads this
    {
      && Chain(shape, events)
      && status == (if events == [] then None else Some(events[|events| - 1].to))
      && OneLaunch(shape, ran, owner)
      && (owner.None? <==> status.None?)
      && (owner.Some? ==> owner.value in pcs)
      && (owner.None? ==> ran == [])
      && (forall k :: k in pcs && Executing(pcs[k]) ==> owner == Some(k))
      && (forall k :: k in pcs && pcs[k].Raised? ==> owner == Some(k))
      && (forall k :: k in pcs && pcs[k].Recheck? ==> status.Some?)
      && (owner.Some? ==> OwnerFits())
    }

    ghost predicate OwnerFits()
      reads this
      requires owner.Some? && owner.value in pcs && status.Some?
    {
      var pc := pcs[owner.value];
      && (Executing(pc) || pc.Returned? || pc.Raised?)
      && Fits(shape, pc, status.value)
      && Ran(shape, pc, |ran|)
      && Explains(Heading(pc, status.value), ran)
      && (pc.Returned? ==> Terminal(status.value) && pc.seen == status.value)
      && (pc.Build? || pc.Raised? ==> status == Some(Pending) && ran == [])
    }

    /** What a step never undoes. */
    twostate predicate Forward()
      reads this
    {
      && old(events) <= events && old(ran) <= ran
      && (old(owner).Some? ==> owner == old(owner))
    }

    /** One caller takes its next step; `outcome` is what the command, or building the plan, gives. */
    method Step(caller: Caller, outcome: Outcome)
      requires Valid()
      modifies this
      ensures Valid() && Forward()
      ensures RankIn(pcs, caller) <= if RankIn(old(pcs), caller) > 0 then RankIn(old(pcs), caller) - 1 else 0
      ensures forall k :: k != caller ==> RankIn(pcs, k) == RankIn(old(pcs), k)
    {
      hide Valid, Follows, Reached, Fits, Ran, Explains, AfterSave, AfterCommand;
      if caller !in pcs {
        Enter(caller);
        return;
      }
      match pcs[caller] {
        case Check => Look(caller);
        case Insert => CreateRequest(caller);
        case Recheck => Look(caller);
        case Build => BuildPlan(caller, outcome);
        case Read(target) => ReadRequest(caller, target);
        case Save(was, target) =>
          Transition(caller, was, target);
          NextIsNearer(shape, was, target, EnsureSession, outcome);
        case Exec(command) =>
          Execute(caller, command, outcome);
          NextIsNearer(shape, Pending, Serving, command, outcome);
        case _ =>
      }
    }

    method Enter(caller: Caller)
      requires Valid() && caller !in pcs
      modifies this`pcs
      ensures Valid() && pcs == old(pcs)[caller := Check]
    {
      hide Chain, OneLaunch, Follows, Reached, Fits, Ran, Explains;
      pcs := pcs[caller := Check];
    }

    /** A request that is there is returned as it stands; after a failed insert its absence is an error. */
    method Look(caller: Caller)
      requires Valid() && caller in pcs && (pcs[caller].Check? || pcs[caller].Recheck?)
      modifies this`pcs
      ensures Valid()
      ensures pcs == old(pcs)[caller :=
        if status.Some? then Returned(status.value) else if old(pcs)[caller].Check? then Insert else Raised]
    {
      hide Chain, OneLaunch, Follows, Reached, Fits, Ran, Explains;
      if status.Some? {
        pcs := pcs[caller := Returned(status.value)];
      } else {
        pcs := pcs[caller := if pcs[caller].Check? then Insert else Raised];
      }
    }

    /** A plan that cannot be built ends the call, with the request still pending. */
    method BuildPlan(caller: Caller, outcome: Outcome)
      requires Valid() && caller in pcs && pcs[caller] == Build
      modifies this`pcs
      ensures Valid() && pcs == old(pcs)[caller := if outcome.Ok? then Read(LaunchingResource) else Raised]
    {
      hide Chain, OneLaunch, EndedAt;
      pcs := pcs[caller := if outcome.Ok? then Read(LaunchingResource) else Raised];
    }

    method ReadRequest(caller: Caller, target: Status)
      requires Valid() && caller in pcs && pcs[caller] == Read(target)
      modifies this`pcs
      ensures Valid() && status.Some? && pcs == old(pcs)[caller := Save(status.value, target)]
    {
      hide Chain, OneLaunch, Follows, Reached, Explains;
      pcs := pcs[caller := Save(status.value, target)];
    }

    /** The insert fails if the request is there. */
    method CreateRequest(caller: Caller)
      requires Valid() && caller in pcs && pcs[caller] == Insert
      modifies this
      ensures Valid() && Forward()
      ensures old(status).None? ==>
        events == [Event(None, Pending)] && owner == Some(caller) && pcs == old(pcs)[caller := Build]
      ensures old(status).Some? ==> events == old(events) && pcs == old(pcs)[caller := Recheck]
    {
      if status.Some? {
        pcs := pcs[caller := Recheck];
      } else {
        ChainGrows(shape, events, Event(None, Pending));
        status, events := Some(Pending), events + [Event(None, Pending)];
        pcs := pcs[caller := Build];
        owner := Some(caller);
      }
    }

    method Transition(caller: Caller, was: Status, target: Status)
      requires Valid() && caller in pcs && pcs[caller] == Save(was, target)
      modifies this
      ensures Valid() && Forward()
      ensures events == old(events) + [Event(Some(was), target)] && status == Some(target)
      ensures target != Pending && pcs == old(pcs)[caller := AfterSave(shape, target)]
    {
      hide Chain, OneLaunch, Fits, Ran, AfterSave, Reached, Explains;
      StatusExplains(shape, target, ran);
      SavedFits(shape, was, target, status.value, |ran|);
      ChainGrows(shape, events, Event(Some(was), target));
      StatusLeadsOn(shape, target, |ran|);
      status, events := Some(target), events + [Event(Some(was), target)];
      pcs := pcs[caller := AfterSave(shape, target)];
    }

    method Execute(caller: Caller, command: Command, outcome: Outcome)
      requires Valid() && caller in pcs && pcs[caller] == Exec(command)
      modifies this
      ensures Valid() && Forward()
      ensures ran == old(ran) + [Run(caller, command, outcome)] && events == old(events)
      ensures pcs == old(pcs)[caller := AfterCommand(shape, command, outcome)]
    {
      hide Follows, Chain, OneLaunch, Fits, Ran, AfterCommand, Explains;
      CommandLeadsOn(shape, command, outcome, status.value, |ran|);
      OutcomeExplains(shape, status.value, ran, Run(caller, command, outcome));
      LaunchGrows(shape, ran, owner, Run(caller, command, outcome));
      ran := ran + [Run(caller, command, outcome)];
      pcs := pcs[caller := AfterCommand(shape, command, outcome)];
    }

    /** Any interleaving. A caller that takes 23 steps has returned or raised, whatever the others do. */
    method Interleave(schedule: seq<(Caller, Outcome)>)
      requires Valid()
      modifies this
      ensures Valid() && Forward()
      ensures forall k :: StepsOf(schedule, k) >= 23 ==> k in pcs && (pcs[k].Returned? || pcs[k].Raised?)
    {
      hide Chain, OneLaunch, Fits, Ran, Explains, RankIn;
      forall k ensures RankIn(pcs, k) <= 23 {
        Unranked(pcs, k);
      }
      for i := 0 to |schedule|
        invariant Valid() && Forward()
        invariant forall k :: RankIn(pcs, k) == 0 || RankIn(pcs, k) + StepsOf(schedule[..i], k) <= 23
      {
        OneMoreStep(schedule, i);
        Step(schedule[i].0, schedule[i].1);
      }
      assert schedule[..|schedule|] == schedule;
      forall k | StepsOf(schedule, k) >= 23 ensures k in pcs && (pcs[k].Returned? || pcs[k].Raised?) {
        Unranked(pcs, k);
      }
    }

    /** While the launching caller is at work the log holds no terminal event; when it has returned the log holds
        exactly one, the last; and only a plan that cannot be built leaves a request pending with nothing run. */
    lemma OneTerminalEvent()
      requires Valid() && owner.Some?
      ensures var pc := pcs[owner.value];
        && (Executing(pc) ==> TerminalEvents(events) == 0)
        && (pc.Returned? ==> TerminalEvents(events) == 1)
        && (pc.Returned? ==> Terminal(events[|events| - 1].to) && pc.seen == events[|events| - 1].to)
        && (pc.Raised? ==> events == [Event(None, Pending)] && ran == [])
    {
      TerminalIsLast(shape, events);
      if pcs[owner.value].Raised? {
        PendingIsFirst(shape, events);
      }
    }

    /** A returned request serves exactly if its last command was a health check that went well, has completed a dry run
        exactly if it was the server command that went well, and failed exactly in the way of its last command: a
        crash, or an error, which counts for the resources, the environment, the server or the health check. */
    lemma OutcomeDecides()
      requires Valid() && owner.Some? && pcs[owner.value].Returned?
      ensures ran != [] && AllOk(ran[..|ran| - 1])
      ensures var s, last := status.value, ran[|ran| - 1];
        && (s == Serving <==> last.command == HealthCheck && last.outcome == Ok)
        && (s == DryRunComplete <==> last.command == Vllm && last.outcome == Ok)
        && (s == FailedResource <==> last.command in {EnsureSession, Rlaunch} && last.outcome == RunnerError)
        && (s == FailedEnv <==> last.command == Env && last.outcome == RunnerError)
        && (s == FailedHealthCheck <==> last.command == HealthCheck && last.outcome == RunnerError)
        && (s == FailedVllm <==> last.outcome == Crash || (last.command == Vllm && last.outcome == RunnerError))
    {
      hide Chain, OneLaunch, Fits, Ran;
    }

    /** Every command of every interleaving was run by the one caller, the i-th being the i-th of the launch sequence; a
        request that serves, or has completed a dry run, went through all of it. */
    lemma OneCallerLaunches()
      requires Valid()
      ensures |ran| <= |Launch(shape)|
      ensures forall i :: 0 <= i < |ran| ==> Some(ran[i].caller) == owner && ran[i].command == Launch(shape)[i]
      ensures status.Some? && status.value in {Serving, DryRunComplete} ==> |ran| == |Launch(shape)|
    {
      hide Follows, Chain;
      if status.Some? && Terminal(status.value) {
        FinalStatusLeads(shape, pcs[owner.value], status.value);
      }
    }
  }

  /** The caller heads for a status that the outcome explains. */
  lemma OutcomeExplains(shape: Shape, status: Status, ran: seq<Run>, r: Run)
    requires Explains(status, ran) && Fits(shape, Exec(r.command), status)
    ensures Explains(Heading(AfterCommand(shape, r.command, r.outcome), status), ran + [r])
  {
    assert (ran + [r])[..|ran|] == ran && (ran + [r])[|ran|] == r;
  }

  lemma StatusExplains(shape: Shape, status: Status, ran: seq<Run>)
    requires Explains(status, ran)
    ensures Explains(Heading(AfterSave(shape, status), status), ran)
  {
  }

  /** A terminal status is only ever left by a caller that has returned. */
  lemma FinalStatusLeads(shape: Shape, pc: Pc, status: Status)
    requires Terminal(status) && Fits(shape, pc, status)
    ensures !Executing(pc)
  {
  }

  /** From every command the caller goes on to the next one, or to a status that may follow. */
  lemma CommandLeadsOn(shape: Shape, command: Command, outcome: Outcome, status: Status, n: nat)
    requires Fits(shape, Exec(command), status) && Ran(shape, Exec(command), n)
    ensures var next := AfterCommand(shape, command, outcome);
      Executing(next) && !next.Build? && Fits(shape, next, status) && Ran(shape, next, n + 1)
  {
  }

  lemma SavedFits(shape: Shape, was: Status, target: Status, status: Status, n: nat)
    requires Fits(shape, Save(was, target), status) && Ran(shape, Save(was, target), n)
    ensures was == status && Follows(shape, status, target) && Reached(shape, target, n) && target != Pending
    ensures target == ConfiguringEnv ==> shape.setup
    ensures target == HealthChecking ==> !shape.dryRun
  {
  }

  /** From every saved status the caller goes on to a command, to a status that may follow, or out. */
  lemma StatusLeadsOn(shape: Shape, status: Status, n: nat)
    requires Reached(shape, status, n) && status != Pending && (status == ConfiguringEnv ==> shape.setup)
    requires status == HealthChecking ==> !shape.dryRun
    ensures var next := AfterSave(shape, status);
      && !next.Build? && !next.Raised? && (Executing(next) || next == Returned(status))
      && Fits(shape, next, status) && Ran(shape, next, n) && (next.Returned? <==> Terminal(status))
  {
  }

  lemma LaunchGrows(shape: Shape, ran: seq<Run>, owner: Option<Caller>, r: Run)
    requires OneLaunch(shape, ran, owner) && Some(r.caller) == owner && Ran(shape, Exec(r.command), |ran|)
    ensures OneLaunch(shape, ran + [r], owner)
  {
    NextCommand(shape, r.command, |ran|);
  }

  lemma NextCommand(shape: Shape, command: Command, n: nat)
    requires Ran(shape, Exec(command), n)
    ensures n < |Launch(shape)| && Launch(shape)[n] == command
  {
  }

  lemma PendingIsFirst(shape: Shape, events: seq<Event>)
    requires Chain(shape, events) && events != [] && events[|events| - 1].to == Pending
    ensures events == [Event(None, Pending)]
  {
    assert Linked(shape, events, |events| - 1);
    if |events| == 1 {
      assert events[0] == Event(None, Pending);
    }
  }
}
