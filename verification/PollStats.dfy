/** Totals of a poll and the summaries merged with them (src/fmh/poller.py). */
module Stats {
  import opened Ordering
  import opened Text

  const SUMMARY_LIMIT := 6

  /** The summaries so far and one more line: stripped, new, and only while there is room. */
  function Push(merged: seq<string>, item: string): seq<string> {
    var line := Strip(item);
    if |merged| < SUMMARY_LIMIT && line != "" && line !in merged then merged + [line] else merged
  }

  function Collect(merged: seq<string>, items: seq<string>): seq<string> {
    if items == [] then merged else Push(Collect(merged, items[..|items| - 1]), items[|items| - 1])
  }

  /** The merge loop, which stops as soon as the limit is reached. */
  method MergeUnique(first: seq<string>, second: seq<string>) returns (merged: seq<string>)
    ensures merged == Merged(first, second)
  {
    hide Strip;
    var items := first + second;
    merged := [];
    var i := 0;
    while i < |items|
      invariant 0 <= i <= |items| && merged == Collect([], items[..i])
    {
      var item := Strip(items[i]);
      assert items[..i + 1][..i] == items[..i];
      CollectKeepsLimit([], items[..i]);
      if item != "" && item !in merged && |merged| < SUMMARY_LIMIT {
        merged := merged + [item];
      }
      i := i + 1;
      if |merged| >= SUMMARY_LIMIT {
        CollectConcat([], items[..i], items[i..]);
        assert items == items[..i] + items[i..];
        FullStays(merged, items[i..]);
        return;
      }
    }
    assert items[..i] == items;
  }

  function Merged(first: seq<string>, second: seq<string>): seq<string> {
    Collect([], first + second)
  }

  datatype PollStats = PollStats(scanned: int, submitted: int, ignored: int, failed: int, manualPolls: int,
    taskSummaries: seq<string>)

  const ZERO := PollStats(0, 0, 0, 0, 0, [])

  function Add(a: PollStats, b: PollStats): PollStats {
    PollStats(a.scanned + b.scanned, a.submitted + b.submitted, a.ignored + b.ignored, a.failed + b.failed,
              a.manualPolls + b.manualPolls, Merged(a.taskSummaries, b.taskSummaries))
  }

  /** Summaries as every merge leaves them. */
  ghost predicate Normal(s: seq<string>) {
    Distinct(s) && |s| <= SUMMARY_LIMIT && forall i :: 0 <= i < |s| ==> s[i] != "" && Strip(s[i]) == s[i]
  }

  lemma {:induction false} CollectConcat(m: seq<string>, a: seq<string>, b: seq<string>)
    ensures Collect(m, a + b) == Collect(Collect(m, a), b)
  {
    if b == [] {
      assert a + b == a;
    } else {
      assert (a + b)[..|a + b| - 1] == a + b[..|b| - 1];
      CollectConcat(m, a, b[..|b| - 1]);
    }
  }

  lemma {:induction false} CollectKeepsLimit(m: seq<string>, items: seq<string>)
    requires |m| <= SUMMARY_LIMIT
    ensures |Collect(m, items)| <= SUMMARY_LIMIT
  {
    if items != [] {
      CollectKeepsLimit(m, items[..|items| - 1]);
    }
  }

  lemma {:induction false} FullStays(m: seq<string>, items: seq<string>)
    requires |m| >= SUMMARY_LIMIT
    ensures Collect(m, items) == m
  {
    if items != [] {
      FullStays(m, items[..|items| - 1]);
    }
  }

  lemma {:induction false} CollectIsNormal(m: seq<string>, items: seq<string>)
    requires Normal(m)
    ensures Normal(Collect(m, items))
  {
    if items != [] {
      CollectIsNormal(m, items[..|items| - 1]);
      TrimIdempotent(items[|items| - 1], IsSpace);
    }
  }

  /** Every line offered is in the result, or the result is full. */
  lemma {:induction false} OfferedOrFull(m: seq<string>, items: seq<string>, line: string)
    requires line in items && Strip(line) == line && line != ""
    ensures line in Collect(m, items) || |Collect(m, items)| >= SUMMARY_LIMIT
  {
    var init := items[..|items| - 1];
    assert items == init + [items[|items| - 1]];
    if line in init {
      OfferedOrFull(m, init, line);
    }
  }

  /** Offering as many different lines as there is room fills the result, wherever it started. */
  lemma PigeonholeFills(m: seq<string>, lines: seq<string>)
    requires Normal(lines) && |lines| == SUMMARY_LIMIT
    ensures |Collect(m, lines)| >= SUMMARY_LIMIT
  {
    var result := Collect(m, lines);
    forall line | line in lines && |result| < SUMMARY_LIMIT ensures line in result {
      OfferedOrFull(m, lines, line);
    }
    if |result| < SUMMARY_LIMIT {
      var all, kept := set x | x in lines, set x | x in result;
      DistinctLength(lines, all);
      SubsetSize(all, kept);
      SetOfSeq(result);
    }
  }

  lemma {:induction false} SetOfSeq<T>(s: seq<T>)
    ensures |set x | x in s| <= |s|
  {
    if s != [] {
      SetOfSeq(s[1..]);
      assert (set x | x in s) <= {s[0]} + set x | x in s[1..];
      SubsetSize(set x | x in s, {s[0]} + set x | x in s[1..]);
    }
  }

  /** Cutting the second list to six before the merge loses nothing the merge would have kept. */
  lemma {:induction false} CutFirst(m: seq<string>, items: seq<string>)
    ensures Collect(m, Collect([], items)) == Collect(m, items)
  {
    if items != [] {
      var init, last := items[..|items| - 1], items[|items| - 1];
      var cut, line := Collect([], init), Strip(last);
      CutFirst(m, init);
      CollectIsNormal([], init);
      if Push(cut, last) == cut + [line] {
        TrimIdempotent(last, IsSpace);
        assert (cut + [line])[..|cut|] == cut;
      } else if line in cut {
        OfferedOrFull(m, cut, line);
      } else if line != "" {
        PigeonholeFills(m, cut);
      }
    }
  }

  lemma AddIsAssociative(a: PollStats, b: PollStats, c: PollStats)
    ensures Add(Add(a, b), c) == Add(a, Add(b, c))
  {
    hide Merged;
    MergeIsAssociative(a.taskSummaries, b.taskSummaries, c.taskSummaries);
  }

  lemma MergeIsAssociative(x: seq<string>, y: seq<string>, z: seq<string>)
    ensures Merged(Merged(x, y), z) == Merged(x, Merged(y, z))
  {
    hide Collect;
    calc {
      Merged(Merged(x, y), z);
      { CollectConcat([], Merged(x, y), z); }
      Collect(Collect([], Merged(x, y)), z);
      { CutFirst([], x + y); }
      Collect(Collect([], x + y), z);
      { CollectConcat([], x + y, z); assert x + y + z == x + (y + z); }
      Collect([], x + (y + z));
      { CollectConcat([], x, y + z); }
      Collect(Collect([], x), y + z);
      { CutFirst(Collect([], x), y + z); }
      Collect(Collect([], x), Merged(y, z));
      { CollectConcat([], x, Merged(y, z)); }
      Merged(x, Merged(y, z));
    }
  }

  lemma {:induction false} NormalCollectsToItself(s: seq<string>)
    requires Normal(s)
    ensures Collect([], s) == s
  {
    hide Strip, Normal, Push;
    if s != [] {
      LastIsPushed(s);
      NormalCollectsToItself(s[..|s| - 1]);
    }
  }

  lemma LastIsPushed(s: seq<string>)
    requires Normal(s) && s != []
    ensures Normal(s[..|s| - 1]) && Push(s[..|s| - 1], s[|s| - 1]) == s
  {
    hide Strip;
    var init, last := s[..|s| - 1], s[|s| - 1];
    assert s == init + [last];
    forall i | 0 <= i < |init| ensures init[i] == s[i] {
    }
  }

  /** The empty totals are a unit exactly for totals whose summaries are normal, and every sum is. */
  lemma AddHasUnit(a: PollStats, b: PollStats)
    ensures Add(ZERO, a) == Add(a, ZERO)
    ensures Add(ZERO, a) == a <==> Normal(a.taskSummaries)
    ensures Normal(Add(a, b).taskSummaries)
  {
    hide Collect, Normal;
    assert [] + a.taskSummaries == a.taskSummaries + [] == a.taskSummaries;
    assert Normal([]) by { EmptyIsNormal(); }
    CollectIsNormal([], a.taskSummaries);
    CollectIsNormal([], a.taskSummaries + b.taskSummaries);
    if Normal(a.taskSummaries) {
      NormalCollectsToItself(a.taskSummaries);
    }
  }

  // ---------------------------------------------------------------- what the totals are

  /** The place where a line is first offered. */
  ghost predicate FirstAt(items: seq<string>, i: nat, line: string) {
    i < |items| && Strip(items[i]) == line && forall j :: 0 <= j < i ==> Strip(items[j]) != line
  }

  ghost predicate Firsts(items: seq<string>, kept: seq<string>, at: seq<nat>) {
    |at| == |kept| && forall k :: 0 <= k < |kept| ==> kept[k] != "" && FirstAt(items, at[k], kept[k])
  }

  ghost predicate Rising(at: seq<nat>) { forall k, l :: 0 <= k < l < |at| ==> at[k] < at[l] }

  /** Every one of the first n lines is kept or blank. */
  ghost predicate AllKept(items: seq<string>, kept: seq<string>, n: nat) {
    forall i :: 0 <= i < n && i < |items| ==> Strip(items[i]) == "" || Strip(items[i]) in kept
  }

  /** The kept lines are those offered first at these places, in this order; nothing but blanks is left out before the
      sixth of them. */
  ghost predicate KeepsFirst(items: seq<string>, kept: seq<string>, at: seq<nat>) {
    && Firsts(items, kept, at) && Rising(at) && |kept| <= 6
    && AllKept(items, kept, if |kept| == 6 then at[5] else |items|)
  }

  /** The merge keeps the first six different lines that are not blank. */
  lemma {:induction false} MergeKeepsFirst(items: seq<string>) returns (at: seq<nat>)
    ensures KeepsFirst(items, Collect([], items), at)
  {
    if items == [] {
      at := [];
    } else {
      var init, last := items[..|items| - 1], items[|items| - 1];
      at := MergeKeepsFirst(init);
      at := KeepOneMore(init, last, Collect([], init), at);
      assert items == init + [last];
    }
  }

  lemma KeepOneMore(init: seq<string>, last: string, kept: seq<string>, at: seq<nat>) returns (more: seq<nat>)
    requires KeepsFirst(init, kept, at)
    ensures KeepsFirst(init + [last], Push(kept, last), more)
  {
    hide Strip, Firsts, Rising, AllKept;
    var items, line := init + [last], Strip(last);
    LaterFirsts(init, last, kept, at);
    if Push(kept, last) == kept + [line] {
      more := at + [|init|];
      KeepAtEnd(init, last, kept, at);
    } else {
      more := at;
      LaterKept(init, last, kept, at);
    }
  }

  lemma LaterFirsts(init: seq<string>, last: string, kept: seq<string>, at: seq<nat>)
    requires Firsts(init, kept, at)
    ensures Firsts(init + [last], kept, at) && |at| == |kept|
    ensures forall k :: 0 <= k < |at| ==> at[k] < |init|
  {
    hide Strip;
    forall k | 0 <= k < |kept| ensures FirstAt(init + [last], at[k], kept[k]) {
      assert FirstAt(init, at[k], kept[k]);
    }
  }

  lemma KeepAtEnd(init: seq<string>, last: string, kept: seq<string>, at: seq<nat>)
    requires KeepsFirst(init, kept, at) && |kept| < 6 && Strip(last) != "" && Strip(last) !in kept
    ensures Firsts(init + [last], kept + [Strip(last)], at + [|init|]) && Rising(at + [|init|])
    ensures AllKept(init + [last], kept + [Strip(last)], |init| + 1)
    ensures AllKept(init + [last], kept + [Strip(last)], |init|)
  {
    hide Strip;
    LaterFirsts(init, last, kept, at);
    var items, line := init + [last], Strip(last);
    assert items[|init|] == last;
    assert FirstAt(items, |init|, line);
    forall i | 0 <= i < |init| ensures items[i] == init[i] {
    }
  }

  lemma LaterKept(init: seq<string>, last: string, kept: seq<string>, at: seq<nat>)
    requires KeepsFirst(init, kept, at) && (|kept| == 6 || Strip(last) == "" || Strip(last) in kept)
    ensures AllKept(init + [last], kept, if |kept| == 6 then at[5] else |init + [last]|)
  {
    hide Strip, Rising;
    var items := init + [last];
    assert |kept| == 6 ==> FirstAt(init, at[5], kept[5]);
    forall i | 0 <= i < |init| ensures items[i] == init[i] {
    }
  }

  /** Totals added up one after the other, as the poll does. */
  function Total(parts: seq<PollStats>): PollStats {
    if parts == [] then ZERO else Add(Total(parts[..|parts| - 1]), parts[|parts| - 1])
  }

  datatype Counter = Scanned | Submitted | Ignored | Failed | ManualPolls

  ghost function Count(p: PollStats, counter: Counter): int {
    match counter
    case Scanned => p.scanned
    case Submitted => p.submitted
    case Ignored => p.ignored
    case Failed => p.failed
    case ManualPolls => p.manualPolls
  }

  ghost function Sum(parts: seq<PollStats>, counter: Counter): int {
    if parts == [] then 0 else Count(parts[0], counter) + Sum(parts[1..], counter)
  }

  ghost function Offered(parts: seq<PollStats>): seq<string> {
    if parts == [] then [] else Offered(parts[..|parts| - 1]) + parts[|parts| - 1].taskSummaries
  }

  /** Each counter of a total is the sum of that counter over the parts, and its summaries are the first six different
      lines of all parts, however often they were cut on the way. */
  lemma TotalIsSum(parts: seq<PollStats>)
    ensures forall counter :: Count(Total(parts), counter) == Sum(parts, counter)
    ensures exists at :: KeepsFirst(Offered(parts), Total(parts).taskSummaries, at)
  {
    hide Collect, KeepsFirst, Offered, Total, Count, Sum;
    TotalCollects(parts);
    var at := MergeKeepsFirst(Offered(parts));
    forall counter ensures Count(Total(parts), counter) == Sum(parts, counter) {
      TotalCounts(parts, counter);
    }
  }

  lemma {:induction false} TotalCounts(parts: seq<PollStats>, counter: Counter)
    ensures Count(Total(parts), counter) == Sum(parts, counter)
  {
    if parts != [] {
      var init, last := parts[..|parts| - 1], parts[|parts| - 1];
      TotalCounts(init, counter);
      SumOfLast(init, last, counter);
      assert parts == init + [last];
    }
  }

  lemma {:induction false} SumOfLast(parts: seq<PollStats>, last: PollStats, counter: Counter)
    ensures Sum(parts + [last], counter) == Sum(parts, counter) + Count(last, counter)
  {
    if parts != [] {
      assert (parts + [last])[1..] == parts[1..] + [last];
      SumOfLast(parts[1..], last, counter);
    }
  }

  lemma {:induction false} TotalCollects(parts: seq<PollStats>)
    ensures Total(parts).taskSummaries == Collect([], Offered(parts))
  {
    if parts != [] {
      var init, last := parts[..|parts| - 1], parts[|parts| - 1].taskSummaries;
      TotalCollects(init);
      CollectConcat([], Collect([], Offered(init)), last);
      CutFirst([], Offered(init));
      CollectConcat([], Offered(init), last);
    }
  }

  lemma EmptyIsNormal()
    ensures Normal([])
  {
  }
}
