/** Reading one chat (src/fmh/poller.py): a cursor with a five-second overlap, a set of processed
    message ids, and a command message whose handling polls the same chat again. */
module ChatPoller {
  import opened Ordering
  import opened Wrappers

  const OVERLAP_SEC := 5

  datatype Kind = ManualPollCommand | Other

  /** A message, the second it was created and the second from which a listing shows it. */
  datatype Message = Message(id: string, createTime: nat, visibleAt: int, kind: Kind)

  class ChatPollingWorker {
    /** Everything that is ever posted to the chat, seen or still to come. */
    const messages: set<Message>
    const manualLookback: nat
    const initialLookback: nat
    const processExistingOnFirstRun: bool
    var cursor: Option<int>
    var processed: set<string>
    var clock: int
    /** The messages handled so far, in order. */
    ghost var handled: seq<Message>

    constructor (messages: set<Message>, manualLookback: nat, initialLookback: nat, processExisting: bool, clock: nat)
      ensures Valid() && cursor == None && processed == {} && this.clock == clock && this.messages == messages
    {
      this.messages := messages;
      this.manualLookback := manualLookback;
      this.initialLookback := initialLookback;
      this.processExistingOnFirstRun := processExisting;
      this.cursor := None;
      this.processed := {};
      this.clock := clock;
      this.handled := [];
    }

    /** No message was ever handled twice, and the cursor is never ahead of the clock. */
    ghost predicate Valid() reads this {
      && clock >= 0
      && (cursor.Some? ==> 0 <= cursor.value <= clock)
      && (forall i, j :: 0 <= i < j < |handled| ==> handled[i].id != handled[j].id)
      && (forall m :: m in handled ==> m in messages && m.id in processed)
    }

    ghost function Unprocessed(): set<string> reads this {
      set m | m in messages && m.id !in processed :: m.id
    }

    /** The earliest create time a poll at time `now` asks for. */
    function StartTime(lookback: Option<nat>, seen: Option<int>, now: int): int {
      match lookback
      case Some(sec) => Max(0, now - sec)
      case None => if seen.None? then Max(0, now - initialLookback) else Max(0, seen.value - OVERLAP_SEC)
    }

    predicate InRange(m: Message, start: int, end: int) {
      m in messages && m.id != "" && start <= m.createTime <= end
    }

    ghost predicate AllProcessed(start: int, end: int) reads this {
      forall m :: InRange(m, start, end) && m.visibleAt <= end ==> m.id in processed
    }

    ghost predicate NothingElse(start: int, end: int, before: set<string>, after: set<string>) {
      forall id :: id in after && id !in before ==> exists m :: InRange(m, start, end) && m.id == id
    }

    /** Every message of the range that is shown is processed and not newer than the cursor; without manual commands
        nothing else is processed, and what is, oldest first. */
    twostate predicate Covered(start: int, end: int)
      reads this
    {
      && AllProcessed(start, end)
      && (cursor.Some? && forall m :: InRange(m, start, end) && m.visibleAt <= end ==> m.createTime <= cursor.value)
      && (NoCommands() ==> NothingElse(start, end, old(processed), processed))
      && (NoCommands() && |old(handled)| <= |handled| ==> OldestFirst(handled[|old(handled)|..]))
    }

    ghost predicate OldestFirst(log: seq<Message>) {
      forall i, j :: 0 <= i < j < |log| ==> log[i].createTime <= log[j].createTime
    }

    function CreateTime(m: Message): int { m.createTime }

    ghost predicate NoCommands() {
      forall m :: m in messages ==> m.kind == Other
    }

    method Elapse()
      modifies this`clock
      ensures clock >= old(clock)
    {
      var seconds :| seconds >= 0;
      clock := clock + seconds;
    }

    /** Only the processed set and the handled log grow, and they grow by the same ids. */
    twostate predicate Progress()
      reads this
    {
      && old(clock) <= clock && old(processed) <= processed && old(handled) <= handled
      && Grew(old(handled), old(processed), old(clock), handled, processed, clock)
    }

    ghost predicate Grew(h: seq<Message>, p: set<string>, c: int, h': seq<Message>, p': set<string>, c': int) {
      && c <= c' && p <= p' && h <= h'
      && (forall i :: |h| <= i < |h'| ==> h'[i].id !in p)
      && (forall id :: id in p' && id !in p ==> Handled(h'[|h|..], id))
      && CommandsRan(h'[|h|..], c, c', p')
    }

    ghost predicate Handled(log: seq<Message>, id: string) {
      exists m :: m in log && m.id == id
    }

    /** If there is a command in the log, there was a poll over the manual lookback at a time from `since` to
        `until`. */
    ghost predicate CommandsRan(log: seq<Message>, since: int, until: int, done: set<string>) {
      (exists m :: m in log && m.kind == ManualPollCommand) ==> exists t :: since <= t <= until && LookedBack(t, done)
    }

    /** What was created in the `manualLookback` seconds up to `t`, and is shown by then, is processed. */
    ghost predicate LookedBack(t: int, done: set<string>) {
      forall m :: m in messages && m.id != "" && t - manualLookback <= m.createTime <= t && m.visibleAt <= t ==>
        m.id in done
    }

    lemma GrewNothing(h: seq<Message>, p: set<string>, c: int, c': int)
      requires c <= c'
      ensures Grew(h, p, c, h, p, c')
    {
    }

    lemma GrewTransitive(h: seq<Message>, p: set<string>, c: int, h1: seq<Message>, p1: set<string>, c1: int,
                         h2: seq<Message>, p2: set<string>, c2: int)
      requires Grew(h, p, c, h1, p1, c1) && Grew(h1, p1, c1, h2, p2, c2)
      ensures Grew(h, p, c, h2, p2, c2) && p <= p2 && h <= h2
    {
      hide CommandsRan, Handled;
      assert h2[|h|..] == h1[|h|..] + h2[|h1|..];
      CommandsRanOn(h1[|h|..], h2[|h1|..], c, c1, c2, p1, p2);
      HandledOn(h1[|h|..], h2[|h1|..]);
    }

    lemma HandledOn(a: seq<Message>, b: seq<Message>)
      ensures forall id :: Handled(a, id) || Handled(b, id) ==> Handled(a + b, id)
    {
    }

    lemma CommandsRanOn(a: seq<Message>, b: seq<Message>, c: int, c1: int, c2: int, p1: set<string>, p2: set<string>)
      requires CommandsRan(a, c, c1, p1) && CommandsRan(b, c1, c2, p2) && c <= c1 <= c2 && p1 <= p2
      ensures CommandsRan(a + b, c, c2, p2)
    {
      if m :| m in a && m.kind == ManualPollCommand {
        var t :| c <= t <= c1 && LookedBack(t, p1);
        assert LookedBack(t, p2);
      } else if m :| m in b && m.kind == ManualPollCommand {
        var t :| c1 <= t <= c2 && LookedBack(t, p2);
      }
    }

    /** One message handled, and, if it is a command, what its poll handled. */
    lemma GrewByOne(h: seq<Message>, p: set<string>, c: int, item: Message)
      requires item.id !in p && item.kind == Other
      ensures Grew(h, p, c, h + [item], p + {item.id}, c)
    {
      assert (h + [item])[|h|..] == [item];
      assert item in [item];
    }

    lemma GrewByCommand(h: seq<Message>, p: set<string>, c: int, item: Message,
                        h': seq<Message>, p': set<string>, c': int)
      requires item.id !in p && Grew(h + [item], p + {item.id}, c, h', p', c') && LookedBack(c, p')
      ensures Grew(h, p, c, h', p', c')
    {
      var one, rest := [item], h'[|h| + 1..];
      assert (h + [item])[|h|..] == one && h'[|h|..] == one + rest;
      assert item in one && Handled(one, item.id);
      HandledOn(one, rest);
      assert forall i :: |h| < i < |h'| ==> h'[i].id !in p + {item.id};
      assert h' == h + [item] + rest;
    }

    /** One poll of the chat. It re-enters itself through a manual command, yet terminates: before every
        re-entry one more id of the chat is processed. */
    method PollChat(lookback: Option<nat>)
      requires Valid()
      modifies this
      ensures Valid() && Progress()
      ensures cursor.Some? && cursor.value <= old(clock) && (old(cursor).Some? ==> old(cursor).value <= cursor.value)
      // a first regular poll only sets the cursor, unless existing messages are wanted
      ensures lookback.None? && old(cursor).None? && !processExistingOnFirstRun ==>
        cursor == Some(old(clock)) && processed == old(processed) && handled == old(handled)
      // otherwise the poll covers the lookback, the overlap before the cursor, or the initial lookback
      ensures lookback.Some? ==> Covered(old(clock) - lookback.value, old(clock))
      ensures lookback.None? && old(cursor).Some? ==> Covered(old(cursor).value - 5, old(clock))
      ensures lookback.None? && old(cursor).None? && processExistingOnFirstRun ==>
        Covered(old(clock) - initialLookback, old(clock))
      // the cursor is not moved but to the time of a message, or, from nowhere or zero, to the poll time
      ensures old(cursor).Some? && old(cursor).value != 0 ==> cursor == old(cursor) || IsTimeOf(cursor.value, processed)
      decreases |Unprocessed()|, 3
    {
      hide Grew, Covered;
      var now := clock;
      var seen := cursor;
      GrewNothing(handled, processed, clock, clock);
      if lookback.None? && seen.None? && !processExistingOnFirstRun {
        cursor := Some(now);
        return;
      }
      var start := StartTime(lookback, seen, now);
      ghost var wanted :=
        if lookback.Some? then now - lookback.value else if seen.Some? then seen.value - 5 else now - initialLookback;
      PollFrom(start, if seen.Some? then seen.value else now, wanted);
    }

    ghost predicate IsTimeOf(t: int, done: set<string>) {
      exists m :: m in messages && m.id in done && m.createTime == t
    }

    /** Lists what was created from `start` on, handles it and sets the cursor. */
    method PollFrom(start: int, newest: int, ghost wanted: int)
      requires Valid() && 0 <= newest <= clock && start == Max(0, wanted)
      modifies this
      ensures Valid() && Progress() && Covered(wanted, old(clock))
      ensures cursor.Some? && newest <= cursor.value <= old(clock)
      ensures newest != 0 ==> cursor.value == newest || IsTimeOf(cursor.value, processed)
      decreases |Unprocessed()|, 2
    {
      hide Grew, OldestFirst;
      var now := clock;
      Elapse();
      GrewNothing(handled, processed, now, clock);
      ghost var c1 := clock;
      var listed := set m | m in messages && start <= m.createTime <= now && m.visibleAt <= clock;
      var ordered := OrderBy(listed, CreateTime);
      var maxSeen := HandleListed(ordered, newest, start, now);
      GrewTransitive(old(handled), old(processed), now, old(handled), old(processed), c1, handled, processed, clock);
      cursor := Some(if maxSeen != 0 then maxSeen else now);
      forall m | InRange(m, wanted, now) && m.visibleAt <= now
        ensures m.id in processed && m.createTime <= cursor.value
      {
        assert m in listed && m in ordered;
      }
    }

    /** The messages of one listing, in order. The result is the newest create time among them and `newest`. */
    method HandleListed(ordered: seq<Message>, newest: int, ghost start: int, ghost now: int) returns (maxSeen: int)
      requires Valid() && newest <= now <= clock
      requires forall m :: m in ordered ==> m in messages && start <= m.createTime <= now
      requires Ascending(ordered, CreateTime)
      modifies this
      ensures Valid() && Progress() && newest <= maxSeen <= now
      ensures forall m :: m in ordered && m.id != "" ==> m.id in processed && m.createTime <= maxSeen
      ensures maxSeen == newest || IsTimeOf(maxSeen, processed)
      ensures NoCommands() ==> NothingElse(start, now, old(processed), processed)
      ensures NoCommands() ==> OldestFirst(handled[|old(handled)|..])
      decreases |Unprocessed()|, 1
    {
      hide Grew, IsTimeOf, NothingElse, OldestFirst, NewerThanAll;
      maxSeen := newest;
      ghost var h0, p0, c0 := handled, processed, clock;
      GrewNothing(h0, p0, c0, c0);
      NothingYet(ordered, start, now);
      for i := 0 to |ordered|
        invariant Valid() && Grew(h0, p0, c0, handled, processed, clock)
        invariant c0 <= clock && p0 <= processed && h0 <= handled
        invariant newest <= maxSeen <= now && (maxSeen == newest || IsTimeOf(maxSeen, processed))
        invariant forall j :: 0 <= j < i && ordered[j].id != "" ==>
          ordered[j].id in processed && ordered[j].createTime <= maxSeen
        invariant NoCommands() ==> NothingElse(start, now, p0, processed) && OldestFirst(handled[|h0|..])
        invariant NoCommands() ==> forall j :: i <= j < |ordered| ==> NewerThanAll(handled[|h0|..], ordered[j])
      {
        var item := ordered[i];
        assert item in ordered;
        if item.id == "" {
          continue;
        }
        ghost var h1, p1, c1 := handled, processed, clock;
        if item.id !in processed {
          UnprocessedShrinks();
          HandleMessageItem(item);
          GrewTransitive(h0, p0, c0, h1, p1, c1, handled, processed, clock);
          OneMoreInOrder(h0, h1, p0, p1, item, start, now, ordered, i);
        }
        SeenTime(p1, item, maxSeen);
        maxSeen := Max(maxSeen, item.createTime);
      }
    }

    ghost predicate NewerThanAll(log: seq<Message>, item: Message) {
      forall m :: m in log ==> m.createTime <= item.createTime
    }

    lemma NothingYet(ordered: seq<Message>, start: int, now: int)
      ensures NothingElse(start, now, processed, processed) && OldestFirst([]) && handled[|handled|..] == []
      ensures forall j :: 0 <= j < |ordered| ==> NewerThanAll([], ordered[j])
    {
    }

    /** What was a time of a message stays one, and the time of the item is. */
    lemma SeenTime(before: set<string>, item: Message, t: int)
      requires before <= processed && item in messages && item.id in processed
      ensures IsTimeOf(item.createTime, processed) && (IsTimeOf(t, before) ==> IsTimeOf(t, processed))
    {
    }

    lemma OneMoreInOrder(h0: seq<Message>, h1: seq<Message>, p0: set<string>, p1: set<string>, item: Message,
                         start: int, now: int, ordered: seq<Message>, i: nat)
      requires h0 <= h1 && i < |ordered| && item == ordered[i] && InRange(item, start, now)
      requires Ascending(ordered, CreateTime)
      requires NoCommands() ==> handled == h1 + [item] && processed == p1 + {item.id}
      requires NoCommands() ==> OldestFirst(h1[|h0|..]) && NewerThanAll(h1[|h0|..], item)
      requires NoCommands() ==> NothingElse(start, now, p0, p1)
      requires NoCommands() ==> forall j :: i <= j < |ordered| ==> NewerThanAll(h1[|h0|..], ordered[j])
      ensures NoCommands() ==> NothingElse(start, now, p0, processed) && OldestFirst(handled[|h0|..])
      ensures NoCommands() ==> forall j :: i < j < |ordered| ==> NewerThanAll(handled[|h0|..], ordered[j])
    {
      if NoCommands() {
        assert handled[|h0|..] == h1[|h0|..] + [item];
      }
    }

    twostate lemma UnprocessedShrinks()
      requires old(processed) <= processed
      ensures Unprocessed() <= old(Unprocessed()) && |Unprocessed()| <= old(|Unprocessed()|)
    {
      SubsetSize(Unprocessed(), old(Unprocessed()));
    }

    /** Handling marks the message processed; a manual command then polls with the configured lookback. */
    method HandleMessageItem(item: Message)
      requires Valid() && item in messages && item.id !in processed
      modifies this
      ensures Valid() && Progress() && item.id in processed
      // before anything a nested poll handles
      ensures |handled| > |old(handled)| && handled[|old(handled)|] == item
      ensures item.kind == Other ==>
        processed == old(processed) + {item.id} && clock == old(clock) && handled == old(handled) + [item]
      // a command polls back from the moment it is handled
      ensures item.kind == ManualPollCommand ==> LookedBack(old(clock), processed)
      decreases |Unprocessed()|, 0
    {
      hide Grew;
      label before:
      ghost var h, p, c := handled, processed, clock;
      handled := handled + [item];
      processed := processed + {item.id};
      StrictlyFewer@before(item);
      if item.kind == ManualPollCommand {
        PollChat(Some(manualLookback));
        CoveredBack(c - manualLookback, c);
        GrewMore(h + [item], p + {item.id}, c);
        GrewByCommand(h, p, c, item, handled, processed, clock);
      } else {
        GrewByOne(h, p, c, item);
      }
    }

    lemma GrewMore(h: seq<Message>, p: set<string>, c: int)
      requires Grew(h, p, c, handled, processed, clock)
      ensures h <= handled && p <= processed
    {
    }

    lemma CoveredBack(start: int, now: int)
      requires AllProcessed(start, now) && start == now - manualLookback
      ensures LookedBack(now, processed)
    {
    }

    twostate lemma StrictlyFewer(item: Message)
      requires item in messages && item.id !in old(processed)
      requires processed == old(processed) + {item.id}
      ensures |Unprocessed()| < old(|Unprocessed()|)
    {
      assert item.id in old(Unprocessed());
      SubsetSize(Unprocessed(), old(Unprocessed()) - {item.id});
    }

    // -------------------------------------------------------------- runs of regular polls

    /** Shown no later than the overlap allows. On a clock of whole seconds that is one second more than
        the overlap itself. */
    predicate OnTime(m: Message) {
      m.createTime <= m.visibleAt <= m.createTime + 6
    }

    /** Everything that showed up on time after `since` and by time `t` is processed. */
    ghost predicate CaughtUp(since: int, t: int) reads this {
      forall m :: m in messages && m.id != "" && since < m.visibleAt <= t && OnTime(m) ==> m.id in processed
    }

    /** Already older than the overlap reaches, and not processed under any message of the same id. */
    ghost predicate OutOfReach(id: string) reads this {
      && cursor.Some? && id !in processed
      && forall m :: m in messages && m.id == id ==> m.createTime < cursor.value - 5
    }

    /** The bound is tight: one second later, and the poll of the second before has moved the cursor past it. */
    lemma OverlapIsTight(m: Message)
      requires m in messages && m.id !in processed
      requires forall other :: other in messages && other.id == m.id ==> other == m
      requires m.visibleAt == m.createTime + 7
      requires cursor == Some(m.visibleAt - 1)
      ensures !OnTime(m) && OutOfReach(m.id)
    {
    }

    /** Any number of regular polls, with any time in between. Once the cursor is set, a message that
        shows up on time is processed by the first poll at or after that moment; one that a
        poll could no longer reach is, without manual commands, never processed. */
    method PollRegularly(polls: nat) returns (ghost last: int)
      requires Valid() && cursor.Some?
      modifies this
      ensures Valid() && Progress() && cursor.Some? && cursor.value <= last <= clock
      ensures CaughtUp(old(clock), last)
      ensures NoCommands() ==> forall id :: old(OutOfReach(id)) ==> OutOfReach(id)
    {
      hide Grew;
      last := clock;
      GrewNothing(handled, processed, clock, clock);
      for k := 0 to polls
        invariant Valid() && Progress() && cursor.Some? && cursor.value <= last <= clock
        invariant old(clock) <= last && CaughtUp(old(clock), last)
        invariant NoCommands() ==> forall id :: old(OutOfReach(id)) ==> OutOfReach(id)
      {
        ghost var h, c := handled, clock;
        Elapse();
        GrewNothing(h, processed, c, clock);
        ghost var reached, seen, before, c1 := last, cursor, processed, clock;
        last := clock;
        PollChat(None);
        GrewTransitive(old(handled), old(processed), old(clock), h, before, c, h, before, c1);
        GrewTransitive(old(handled), old(processed), old(clock), h, before, c1, handled, processed, clock);
        forall m | m in messages && m.id != "" && old(clock) < m.visibleAt <= last && OnTime(m)
          ensures m.id in processed
        {
          if m.visibleAt <= reached {
            assert m.id in before;
          } else {
            assert InRange(m, seen.value - 5, last);
          }
        }
      }
    }
  }
}
