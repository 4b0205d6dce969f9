/** The string operations of the source language that the control logic leans on. */
module Text {

  /** White space as `str.strip` and `str.split` see it. */
  predicate IsSpace(c: char) {
    || '\t' <= c <= '\r' || '\U{1c}' <= c <= ' ' || c == '\U{85}' || c == '\U{a0}' || c == '\U{1680}'
    || '\U{2000}' <= c <= '\U{200a}' || c in {'\U{2028}', '\U{2029}', '\U{202f}', '\U{205f}', '\U{3000}'}
  }

  function TrimLeft(s: string, drop: char -> bool): string {
    if s != "" && drop(s[0]) then TrimLeft(s[1..], drop) else s
  }

  function TrimRight(s: string, drop: char -> bool): string {
    if s != "" && drop(s[|s| - 1]) then TrimRight(s[..|s| - 1], drop) else s
  }

  function Trim(s: string, drop: char -> bool): string {
    TrimRight(TrimLeft(s, drop), drop)
  }

  function Strip(s: string): string { Trim(s, IsSpace) }

  ghost predicate Trimmed(s: string, drop: char -> bool) {
    s != "" ==> !drop(s[0]) && !drop(s[|s| - 1])
  }

  lemma {:induction false} TrimRightKeepsHead(s: string, drop: char -> bool)
    ensures var t := TrimRight(s, drop);
      && |t| <= |s| && t == s[..|t|] && (t != "" ==> !drop(t[|t| - 1]))
      && forall k :: |t| <= k < |s| ==> drop(s[k])
  {
    if s != "" && drop(s[|s| - 1]) {
      TrimRightKeepsHead(s[..|s| - 1], drop);
    }
  }

  lemma {:induction false} TrimLeftKeepsTail(s: string, drop: char -> bool)
    ensures var t := TrimLeft(s, drop);
      && |t| <= |s| && t == s[|s| - |t|..] && (t != "" ==> !drop(t[0]))
      && forall k :: 0 <= k < |s| - |t| ==> drop(s[k])
  {
    if s != "" && drop(s[0]) {
      TrimLeftKeepsTail(s[1..], drop);
    }
  }

  lemma TrimTrims(s: string, drop: char -> bool)
    ensures Trimmed(Trim(s, drop), drop)
  {
    TrimLeftKeepsTail(s, drop);
    TrimRightKeepsHead(TrimLeft(s, drop), drop);
  }

  lemma TrimmedUnchanged(s: string, drop: char -> bool)
    requires Trimmed(s, drop)
    ensures Trim(s, drop) == s
  {
  }

  lemma TrimIdempotent(s: string, drop: char -> bool)
    ensures Trim(Trim(s, drop), drop) == Trim(s, drop)
  {
    TrimTrims(s, drop);
    TrimmedUnchanged(Trim(s, drop), drop);
  }

  /** Characters to drop around a trimmed text are dropped. */
  lemma TrimWrapped(before: string, s: string, after: string, drop: char -> bool)
    requires s != "" && Trimmed(s, drop) && forall ch :: ch in before + after ==> drop(ch)
    ensures Trim(before + s + after, drop) == s
  {
    TrimLeftSkips(before, s + after, drop);
    assert before + s + after == before + (s + after);
    TrimRightSkips(s, after, drop);
  }

  lemma {:induction false} TrimLeftSkips(before: string, s: string, drop: char -> bool)
    requires s != "" && !drop(s[0]) && forall ch :: ch in before ==> drop(ch)
    ensures TrimLeft(before + s, drop) == s
  {
    if before == "" {
      assert before + s == s;
    } else {
      assert (before + s)[1..] == before[1..] + s;
      TrimLeftSkips(before[1..], s, drop);
    }
  }

  lemma {:induction false} TrimRightSkips(s: string, after: string, drop: char -> bool)
    requires s != "" && !drop(s[|s| - 1]) && forall ch :: ch in after ==> drop(ch)
    ensures TrimRight(s + after, drop) == s
  {
    if after == "" {
      assert s + after == s;
    } else {
      assert (s + after)[..|s + after| - 1] == s + after[..|after| - 1];
      TrimRightSkips(s, after[..|after| - 1], drop);
    }
  }

  predicate IsDigit(c: char) { '0' <= c <= '9' }

  function Decimal(n: nat): string {
    if n < 10 then [('0' as int + n) as char] else Decimal(n / 10) + [('0' as int + n % 10) as char]
  }

  lemma {:induction false} DecimalShape(n: nat)
    ensures Decimal(n) != "" && forall c :: c in Decimal(n) ==> IsDigit(c)
  {
    if n >= 10 {
      DecimalShape(n / 10);
    }
  }

  /** `sub in s`. */
  predicate Contains(s: string, sub: string) {
    sub <= s || (s != "" && Contains(s[1..], sub))
  }

  lemma {:induction false} ContainsMiddle(a: string, sub: string, b: string)
    ensures Contains(a + sub + b, sub)
  {
    var s := a + sub + b;
    if a == "" {
      assert s == sub + b;
    } else {
      assert s[1..] == a[1..] + sub + b;
      ContainsMiddle(a[1..], sub, b);
    }
  }

  /** What is contained has something before it and something after it. */
  lemma {:induction false} ContainedIsMiddle(s: string, sub: string)
    requires Contains(s, sub)
    ensures exists a, b :: s == a + sub + b
  {
    if sub <= s {
      assert s == "" + sub + s[|sub|..];
    } else {
      ContainedIsMiddle(s[1..], sub);
      var a, b :| s[1..] == a + sub + b;
      assert s == ([s[0]] + a) + sub + b;
    }
  }

  function JoinWith(parts: seq<string>, separator: char): string {
    if parts == [] then ""
    else if |parts| == 1 then parts[0]
    else parts[0] + [separator] + JoinWith(parts[1..], separator)
  }

  /** The text between separators. */
  function Split(s: string, separator: char): (parts: seq<string>)
    ensures |parts| >= 1
  {
    if s == "" then [""]
    else
      var rest := Split(s[1..], separator);
      if s[0] == separator then [""] + rest else [[s[0]] + rest[0]] + rest[1..]
  }

  /** The parts hold no separator and, joined by it, give the text again. */
  lemma {:induction false} SplitJoins(s: string, separator: char)
    ensures JoinWith(Split(s, separator), separator) == s
    ensures forall part :: part in Split(s, separator) ==> separator !in part
  {
    if s != "" {
      SplitJoins(s[1..], separator);
      var parts, rest := Split(s, separator), Split(s[1..], separator);
      assert s == [s[0]] + s[1..];
      if s[0] == separator {
        assert parts[1..] == rest;
      } else {
        assert parts[1..] == rest[1..];
        assert separator !in [s[0]] + rest[0];
      }
    }
  }
}
