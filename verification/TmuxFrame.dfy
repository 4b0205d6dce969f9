/** Reading a command's result back from a captured terminal pane (src/fmh/reusable_executor.py). */
module TmuxFrame {
  import opened Text
  import opened Wrappers

  /** Raises stands for the uncaught IndexError of indexing an empty list of lines. */
  datatype Result = Raises | NotYet | Parsed(returnCode: int, stdout: string, stderr: string)

  predicate IsCrLf(c: char) { c == '\r' || c == '\n' }

  predicate IsLineBreak(c: char) {
    '\n' <= c <= '\r' || '\U{1c}' <= c <= '\U{1e}' || c in {'\U{85}', '\U{2028}', '\U{2029}'}
  }

  /** The last position of `pattern` in `text`, or -1. */
  function LastIndexOf(text: string, pattern: string): int
    decreases |text|
  {
    if |text| < |pattern| then -1
    else if text[|text| - |pattern|..] == pattern then |text| - |pattern|
    else if text == "" then -1
    else LastIndexOf(text[..|text| - 1], pattern)
  }

  function FirstLine(s: string): string {
    if s == "" || IsLineBreak(s[0]) then "" else [s[0]] + FirstLine(s[1..])
  }

  function LeadingWord(s: string): string {
    if s == "" || IsSpace(s[0]) then "" else [s[0]] + LeadingWord(s[1..])
  }

  /** The first item of `s.split()`. */
  function FirstWord(s: string): Option<string> {
    var word := LeadingWord(TrimLeft(s, IsSpace));
    if word == "" then None else Some(word)
  }

  /** Decimal digits, with single underscores allowed between them. */
  function Digits(s: string): Option<nat> {
    if s == "" || !IsDigit(s[|s| - 1]) then None
    else
      var d := s[|s| - 1] as int - '0' as int;
      if |s| == 1 then Some(d)
      else
        var init := s[..|s| - 1];
        match Digits(if init[|init| - 1] == '_' then init[..|init| - 1] else init)
        case None => None
        case Some(n) => Some(10 * n + d)
  }

  function ParseInt(s: string): Option<int> {
    if s != "" && s[0] in {'+', '-'} then
      match Digits(s[1..])
      case None => None
      case Some(n) => if s[0] == '-' then Some(-(n as int)) else Some(n as int)
    else
      match Digits(s)
      case None => None
      case Some(n) => Some(n as int)
  }

  function Slice(s: string, from: nat, upto: int): string {
    if from <= upto <= |s| then s[from..upto] else ""
  }

  /** The number at the start of the line after the end marker, or nothing. */
  function ExitCode(rest: string): Option<int> {
    match FirstWord(Strip(FirstLine(rest)))
    case None => None
    case Some(word) => ParseInt(word)
  }

  /** The two outputs between the markers of `body`, the text before the end marker. */
  function Outputs(body: string, begin: string, err: string, returnCode: int): Result {
    var beginPos, errPos := LastIndexOf(body, begin), LastIndexOf(body, err);
    if beginPos < 0 || errPos < beginPos then NotYet
    else
      Parsed(returnCode,
             Trim(Slice(body, beginPos + |begin|, errPos), IsCrLf),
             Trim(Slice(body, errPos + |err|, |body|), IsCrLf))
  }

  function Parse(text: string, begin: string, err: string, end: string): Result {
    var endPrefix := end + ":";
    var endPos := LastIndexOf(text, endPrefix);
    LastIndexInRange(text, endPrefix);
    if endPos < 0 then NotYet
    else
      var rest := text[endPos + |endPrefix|..];
      if rest == "" then Raises
      else
        match ExitCode(rest)
        case None => NotYet
        case Some(returnCode) => Outputs(text[..endPos], begin, err, returnCode)
  }

  lemma {:induction false} LastIndexInRange(text: string, pattern: string)
    ensures var i := LastIndexOf(text, pattern);
      -1 <= i && (i >= 0 ==> i + |pattern| <= |text| && text[i..i + |pattern|] == pattern)
    decreases |text|
  {
    if |text| >= |pattern| && text[|text| - |pattern|..] != pattern && text != "" {
      LastIndexInRange(text[..|text| - 1], pattern);
    }
  }

  // ---------------------------------------------------------------- what the worker prints

  /** The three markers of one command, made from its token. */
  function Begin(token: string): string { "__" + token + "_BEGIN__" }
  function Err(token: string): string { "__" + token + "_ERR__" }
  function End(token: string): string { "__" + token + "_END__" }

  ghost predicate IsToken(token: string) {
    forall c :: c in token ==> IsDigit(c) || 'a' <= c <= 'z' || 'A' <= c <= 'Z' || c == '_'
  }

  function Printed(token: string, returnCode: nat, stdout: string, stderr: string): string {
    "\n" + Begin(token) + "\n" + stdout + "\n" + Err(token) + "\n" + stderr + "\n" + End(token) + ":" +
      Decimal(returnCode) + "\n"
  }

  ghost predicate At(text: string, pattern: string, i: int) {
    0 <= i <= |text| - |pattern| && forall k :: 0 <= k < |pattern| ==> text[i + k] == pattern[k]
  }

  ghost predicate Occurs(text: string, pattern: string) {
    exists i :: At(text, pattern, i)
  }

  lemma AtIsSlice(text: string, pattern: string, i: int)
    requires 0 <= i <= |text| - |pattern|
    ensures At(text, pattern, i) <==> text[i..i + |pattern|] == pattern
  {
    if text[i..i + |pattern|] == pattern {
      forall k | 0 <= k < |pattern| ensures text[i + k] == pattern[k] {
        assert text[i..i + |pattern|][k] == text[i + k];
      }
    }
  }

  lemma {:induction false} LastIndexIs(text: string, pattern: string, at: nat)
    requires At(text, pattern, at)
    requires forall i :: i > at ==> !At(text, pattern, i)
    ensures LastIndexOf(text, pattern) == at
    decreases |text|
  {
    var i := |text| - |pattern|;
    AtIsSlice(text, pattern, i);
    assert text[i..] == text[i..i + |pattern|];
    if i != at {
      var shorter := text[..|text| - 1];
      forall j | j > at && At(shorter, pattern, j) ensures false {
        assert At(text, pattern, j);
      }
      LastIndexIs(shorter, pattern, at);
    }
  }

  lemma AtChar(text: string, pattern: string, i: int, pos: nat)
    requires At(text, pattern, i)
    ensures i <= pos < i + |pattern| ==> text[pos] == pattern[pos - i] && text[pos] in pattern
  {
  }

  lemma AtMoves(text: string, pattern: string, i: int, part: string, shift: int)
    requires At(text, pattern, i) && shift <= i && i - shift + |pattern| <= |part|
    requires forall k :: 0 <= k < |part| && 0 <= shift + k < |text| ==> part[k] == text[shift + k]
    ensures Occurs(part, pattern)
  {
    forall k | 0 <= k < |pattern| ensures part[i - shift + k] == pattern[k] {
      assert text[i + k] == pattern[k];
      assert shift + (i - shift + k) == i + k;
    }
    assert At(part, pattern, i - shift);
  }

  /** A pattern without line breaks lies within one line. */
  lemma NotAcrossLines(a: string, b: string, pattern: string)
    requires pattern != "" && '\n' !in pattern && !Occurs(a, pattern) && !Occurs(b, pattern)
    ensures !Occurs(a + "\n" + b, pattern)
  {
    hide At;
    var text := a + "\n" + b;
    if i :| At(text, pattern, i) {
      AtInRange(text, pattern, i);
      AtChar(text, pattern, i, |a|);
      if i + |pattern| <= |a| {
        AtMoves(text, pattern, i, a, 0);
      } else {
        AtMoves(text, pattern, i, b, |a| + 1);
      }
    }
  }

  lemma AtInRange(text: string, pattern: string, i: int)
    requires At(text, pattern, i)
    ensures 0 <= i <= |text| - |pattern|
  {
  }

  lemma MiddleAt(pre: string, pattern: string, post: string)
    ensures At(pre + pattern + post, pattern, |pre|)
  {
  }

  /** A marker on its own line is found there when nothing after that line contains it. */
  lemma LastMarker(pre: string, pattern: string, post: string)
    requires pattern != "" && '\n' !in pattern && !Occurs(post, pattern)
    ensures LastIndexOf(pre + pattern + "\n" + post, pattern) == |pre|
  {
    hide At, Occurs, LastIndexOf;
    var text := pre + pattern + "\n" + post;
    assert text == pre + pattern + ("\n" + post);
    MiddleAt(pre, pattern, "\n" + post);
    forall i | i > |pre| ensures !At(text, pattern, i) {
      if At(text, pattern, i) {
        AtInRange(text, pattern, i);
        AtChar(text, pattern, i, |pre| + |pattern|);
        AtMoves(text, pattern, i, post, |pre| + |pattern| + 1);
      }
    }
    LastIndexIs(text, pattern, |pre|);
  }

  /** The end marker with its colon cannot overlap a copy of itself. */
  lemma LastEndMarker(pre: string, end: string, post: string)
    requires ':' !in end && !Occurs(post, end + ":")
    ensures LastIndexOf(pre + (end + ":") + post, end + ":") == |pre|
  {
    var pattern := end + ":";
    var text := pre + pattern + post;
    forall k | 0 <= k < |end| ensures pattern[k] != ':' {
      assert pattern[k] == end[k];
    }
    hide At, Occurs, LastIndexOf;
    MiddleAt(pre, pattern, post);
    forall i | i > |pre| ensures !At(text, pattern, i) {
      if At(text, pattern, i) {
        AtInRange(text, pattern, i);
        AtChar(text, pattern, i, |pre| + |end|);
        AtMoves(text, pattern, i, post, |pre| + |pattern|);
      }
    }
    LastIndexIs(text, pattern, |pre|);
  }

  // ---------------------------------------------------------------- numbers and first lines

  lemma {:induction false} DecimalDigits(n: nat)
    ensures Digits(Decimal(n)) == Some(n)
  {
    if n >= 10 {
      DecimalDigits(n / 10);
      DecimalShape(n / 10);
      var s, init := Decimal(n), Decimal(n / 10);
      assert s[..|s| - 1] == init && init[|init| - 1] in init;
    }
  }

  lemma DecimalParses(n: nat)
    ensures ParseInt(Decimal(n)) == Some(n)
  {
    hide Decimal, Digits;
    DecimalDigits(n);
    DecimalShape(n);
    assert Decimal(n)[0] in Decimal(n);
  }

  lemma {:induction false} FirstLineIs(line: string, rest: string)
    requires forall c :: c in line ==> !IsLineBreak(c)
    ensures FirstLine(line + "\n" + rest) == line
  {
    var s := line + "\n" + rest;
    if line != "" {
      assert line[0] in line;
      assert s[1..] == line[1..] + "\n" + rest;
      FirstLineIs(line[1..], rest);
    }
  }

  lemma {:induction false} OneWord(word: string)
    requires word != "" && forall c :: c in word ==> !IsSpace(c)
    ensures LeadingWord(word) == word && FirstWord(word) == Some(word) && Strip(word) == word
  {
    assert word[0] in word && word[|word| - 1] in word;
    TrimmedUnchanged(word, IsSpace);
    if |word| > 1 {
      assert forall c :: c in word[1..] ==> c in word;
      OneWord(word[1..]);
    }
  }

  /** The exit code printed after the end marker is read back whatever follows its line. */
  lemma CodeReadsBack(n: nat, trailing: string)
    ensures var rest := Decimal(n) + "\n" + trailing;
      && rest != ""
      && ExitCode(rest) == Some(n)
  {
    DecimalShape(n);
    DecimalParses(n);
    FirstLineIs(Decimal(n), trailing);
    OneWord(Decimal(n));
  }

  // ---------------------------------------------------------------- the round trip

  ghost predicate IsMarker(m: string) {
    m != "" && m[0] == '_' && '\n' !in m && ':' !in m
  }

  lemma MarkerShape(token: string)
    requires IsToken(token)
    ensures IsMarker(Begin(token)) && IsMarker(Err(token)) && IsMarker(End(token))
    ensures !Occurs(Err(token), Begin(token))
  {
  }

  lemma NoMarkerInDigits(digits: string, pattern: string)
    requires pattern != "" && !IsDigit(pattern[0]) && forall c :: c in digits ==> IsDigit(c)
    ensures !Occurs(digits, pattern)
  {
  }

  lemma StripsFraming(middle: string)
    ensures Trim("\n" + middle + "\n", IsCrLf) == Trim(middle, IsCrLf)
  {
    var framed := "\n" + middle + "\n";
    assert framed[1..] == middle + "\n";
    TrimWithBreak(middle);
  }

  lemma {:induction false} TrimWithBreak(middle: string)
    ensures Trim(middle + "\n", IsCrLf) == Trim(middle, IsCrLf)
  {
    var s := middle + "\n";
    if middle == "" {
      assert s[1..] == "";
    } else if IsCrLf(middle[0]) {
      assert s[1..] == middle[1..] + "\n";
      TrimWithBreak(middle[1..]);
    } else {
      assert s[..|s| - 1] == middle;
    }
  }

  /** A printed result parses back to its exit code and its trimmed outputs, after any echo and before any
      trailing text free of the end marker. Only what could be mistaken for a later marker is excluded:
      standard output may contain the error and end markers, and error output the end marker. */
  lemma PrintedParsesBack(echo: string, token: string, code: nat, stdout: string, stderr: string, trailing: string)
    requires IsToken(token)
    requires !Occurs(stdout, Begin(token)) && !Occurs(stderr, Begin(token)) && !Occurs(stderr, Err(token))
    requires !Occurs(trailing, End(token) + ":")
    ensures Parse(echo + Printed(token, code, stdout, stderr) + trailing, Begin(token), Err(token), End(token)) ==
      Parsed(code, Trim(stdout, IsCrLf), Trim(stderr, IsCrLf))
  {
    hide Parse, Begin, Err, End, Decimal, LastIndexOf, ExitCode, Trim, Occurs;
    var b, r, e := Begin(token), Err(token), End(token);
    MarkerShape(token);
    var tail := Decimal(code) + "\n" + trailing;
    var text := echo + Printed(token, code, stdout, stderr) + trailing;
    var afterErr := stderr + "\n";
    var afterBegin := stdout + "\n" + r + "\n" + afterErr;
    var toErr := echo + "\n" + b + "\n" + stdout + "\n";
    var body := toErr + r + "\n" + afterErr;
    assert body == (echo + "\n") + b + "\n" + afterBegin;
    assert text == body + (e + ":") + tail;
    // the end marker
    DecimalShape(code);
    assert (e + ":")[0] == e[0];
    NoMarkerInDigits(Decimal(code), e + ":");
    NotAcrossLines(Decimal(code), trailing, e + ":");
    LastEndMarker(body, e, tail);
    CodeReadsBack(code, trailing);
    // the two markers before it
    EmptyHasNone(b);
    EmptyHasNone(r);
    NotAcrossLines(stderr, "", b);
    NotAcrossLines(stderr, "", r);
    assert stderr + "\n" + "" == afterErr;
    NotAcrossLines(r, afterErr, b);
    NotAcrossLines(stdout, r + "\n" + afterErr, b);
    assert stdout + "\n" + (r + "\n" + afterErr) == afterBegin;
    LastMarker(echo + "\n", b, afterBegin);
    LastMarker(toErr, r, afterErr);
    StripsFraming(stdout);
    StripsFraming(stderr);
    ParsedFrom(text, b, r, e, body, tail, code, |echo| + 1, |toErr|);
    assert body[|echo| + 1 + |b|..|toErr|] == "\n" + stdout + "\n";
    assert body[|toErr| + |r|..] == "\n" + stderr + "\n";
  }

  lemma EmptyHasNone(pattern: string)
    requires pattern != ""
    ensures !Occurs("", pattern)
  {
  }

  lemma ParsedFrom(text: string, begin: string, err: string, end: string, body: string, tail: string,
                   code: int, beginPos: nat, errPos: nat)
    requires text == body + (end + ":") + tail && LastIndexOf(text, end + ":") == |body|
    requires tail != "" && ExitCode(tail) == Some(code)
    requires LastIndexOf(body, begin) == beginPos && LastIndexOf(body, err) == errPos
    requires beginPos + |begin| <= errPos && errPos + |err| <= |body|
    ensures Parse(text, begin, err, end) ==
      Parsed(code, Trim(body[beginPos + |begin|..errPos], IsCrLf), Trim(body[errPos + |err|..], IsCrLf))
  {
    hide LastIndexOf, ExitCode, Trim, Outputs, Slice;
    assert text[..|body|] == body;
    assert text[|body| + |end + ":"|..] == tail;
    OutputsBetween(body, begin, err, code, beginPos, errPos);
    SliceIs(body, beginPos + |begin|, errPos);
    SliceIs(body, errPos + |err|, |body|);
  }

  lemma OutputsBetween(body: string, begin: string, err: string, code: int, beginPos: nat, errPos: nat)
    requires LastIndexOf(body, begin) == beginPos && LastIndexOf(body, err) == errPos && beginPos <= errPos
    ensures Outputs(body, begin, err, code) ==
      Parsed(code,
             Trim(Slice(body, beginPos + |begin|, errPos), IsCrLf),
             Trim(Slice(body, errPos + |err|, |body|), IsCrLf))
  {
    hide LastIndexOf, Trim, Slice;
  }

  lemma SliceIs(s: string, from: nat, upto: nat)
    requires from <= upto <= |s|
    ensures Slice(s, from, upto) == s[from..upto] && s[from..|s|] == s[from..]
  {
  }

  /** While only the echoed command, whose end marker is followed by the unexpanded "%s", has been captured,
      the answer is to wait. */
  lemma EchoAloneIsNotYet(echo: string, token: string, rest: string)
    requires IsToken(token) && !Occurs(rest, End(token) + ":")
    ensures Parse(echo + (End(token) + ":") + ("%s" + rest), Begin(token), Err(token), End(token)) == NotYet
  {
    hide Begin, Err, End;
    var e := End(token);
    MarkerShape(token);
    var tail := "%s" + rest;
    assert (e + ":")[0] == '_';
    if i :| At(tail, e + ":", i) {
      AtChar(tail, e + ":", i, i);
      AtMoves(tail, e + ":", i, rest, 2);
    }
    LastEndMarker(echo, e, tail);
    var text := echo + (e + ":") + tail;
    assert text[|echo| + |e + ":"|..] == tail;
    PercentIsNoNumber(tail);
  }

  lemma PercentIsNoNumber(tail: string)
    requires tail != "" && tail[0] == '%'
    ensures ExitCode(tail) == None
  {
    var line := FirstLine(tail);
    assert line[0] == '%';
    TrimRightKeepsHead(line, IsSpace);
    var stripped := Strip(line);
    StartsWithPercent(line);
    assert LeadingWord(stripped)[0] == '%';
    BadFirstDigit(LeadingWord(stripped));
  }

  lemma {:induction false} StartsWithPercent(line: string)
    requires line != "" && line[0] == '%'
    ensures TrimRight(line, IsSpace) != "" && TrimRight(line, IsSpace)[0] == '%'
  {
    if IsSpace(line[|line| - 1]) {
      StartsWithPercent(line[..|line| - 1]);
    }
  }

  lemma {:induction false} BadFirstDigit(s: string)
    requires s != "" && s[0] == '%'
    ensures Digits(s) == None
    decreases |s|
  {
    if |s| > 1 && IsDigit(s[|s| - 1]) {
      var init := s[..|s| - 1];
      BadFirstDigit(if init[|init| - 1] == '_' then init[..|init| - 1] else init);
    }
  }

  // ---------------------------------------------------------------- whatever was captured

  ghost predicate IsLast(text: string, pattern: string, i: int) {
    At(text, pattern, i) && forall j :: j > i ==> !At(text, pattern, j)
  }

  lemma {:induction false} LastIndexFinds(text: string, pattern: string)
    ensures var i := LastIndexOf(text, pattern);
      if i < 0 then i == -1 && !Occurs(text, pattern) else IsLast(text, pattern, i)
    decreases |text|
  {
    var n := |text| - |pattern|;
    if n >= 0 {
      AtIsSlice(text, pattern, n);
      assert text[n..n + |pattern|] == text[n..];
      if text[n..] != pattern && text != "" {
        var shorter := text[..|text| - 1];
        LastIndexFinds(shorter, pattern);
        SameButEnd(text, pattern);
      }
    }
  }

  lemma SameButEnd(text: string, pattern: string)
    requires text != "" && !At(text, pattern, |text| - |pattern|)
    ensures forall i :: At(text, pattern, i) <==> At(text[..|text| - 1], pattern, i)
  {
  }

  /** There is a result exactly if the last end marker is followed by a number, and before it the last begin marker
      comes no later than the last error marker. The outputs are what stands between these three places. */
  ghost predicate Between(text: string, begin: string, err: string, end: string, b: int, r: int, e: int) {
    && IsLast(text, end + ":", e)
    && IsLast(text[..e], begin, b) && IsLast(text[..e], err, r) && b <= r
    && ExitCode(text[e + |end| + 1..]).Some?
  }

  lemma ParsedIffBetween(text: string, begin: string, err: string, end: string)
    ensures Parse(text, begin, err, end).Parsed? <==> exists b, r, e :: Between(text, begin, err, end, b, r, e)
  {
    hide LastIndexOf, ExitCode, Trim, At;
    LastIndexFinds(text, end + ":");
    LastIndexInRange(text, end + ":");
    if Parse(text, begin, err, end).Parsed? {
      var e := LastIndexOf(text, end + ":");
      LastIndexFinds(text[..e], begin);
      LastIndexFinds(text[..e], err);
      assert Between(text, begin, err, end, LastIndexOf(text[..e], begin), LastIndexOf(text[..e], err), e);
    }
    forall b, r, e | Between(text, begin, err, end, b, r, e) ensures Parse(text, begin, err, end).Parsed? {
      ParsesBetween(text, begin, err, end, b, r, e);
    }
  }

  lemma ParsesBetween(text: string, begin: string, err: string, end: string, b: int, r: int, e: int)
    requires Between(text, begin, err, end, b, r, e)
    ensures 0 <= b <= r && 0 <= e && r + |err| <= e && e + |end| < |text|
    ensures Parse(text, begin, err, end) ==
      Parsed(ExitCode(text[e + |end| + 1..]).value,
             Trim(if b + |begin| <= r then text[b + |begin|..r] else "", IsCrLf),
             Trim(text[r + |err|..e], IsCrLf))
  {
    hide LastIndexOf, ExitCode, Trim, At;
    LastIs(text, end + ":", e);
    var body := text[..e];
    LastIs(body, begin, b);
    LastIs(body, err, r);
    NoCodeInNothing();
    assert body[r + |err|..|body|] == text[r + |err|..e];
    assert b + |begin| <= r ==> body[b + |begin|..r] == text[b + |begin|..r];
  }

  lemma LastIs(text: string, pattern: string, i: int)
    requires IsLast(text, pattern, i)
    ensures 0 <= i <= |text| - |pattern| && LastIndexOf(text, pattern) == i
  {
    hide LastIndexOf;
    LastIndexFinds(text, pattern);
  }

  lemma NoCodeInNothing()
    ensures ExitCode("") == None
  {
  }

  /** Only line breaks at the ends of an output are cut off. */
  lemma OutputIsCut(before: string, output: string, after: string)
    requires forall ch :: ch in before + after ==> ch in {'\r', '\n'}
    requires output != "" && output[0] !in {'\r', '\n'} && output[|output| - 1] !in {'\r', '\n'}
    ensures Trim(before + output + after, IsCrLf) == output
  {
    TrimWrapped(before, output, after, IsCrLf);
  }

  /** Digits may have single underscores between them. */
  lemma UnderscoreParses(s: string, digit: char)
    requires IsDigit(digit) && s != ""
    ensures s[|s| - 1] != '_' ==> Digits(s + ['_', digit]) == Digits(s + [digit])
    ensures s[|s| - 1] == '_' ==> Digits(s + ['_', digit]) == None
  {
    hide Digits, IsDigit;
    MoreDigits(s, digit);
    MoreDigits(s + ['_'], digit);
    assert (s + ['_'])[..|s|] == s && s + ['_', digit] == s + ['_'] + [digit];
    if s[|s| - 1] == '_' {
      NotADigit(s);
    }
  }

  lemma {:induction false} MoreDigits(init: string, digit: char)
    requires init != "" && IsDigit(digit)
    ensures var rest := Digits(if init[|init| - 1] == '_' then init[..|init| - 1] else init);
      Digits(init + [digit]) ==
        if rest.None? then None else Some(10 * rest.value + (digit as int - '0' as int))
  {
    var s := init + [digit];
    assert |s| >= 2 && s[|s| - 1] == digit && s[..|s| - 1] == init;
  }

  lemma NotADigit(s: string)
    requires s != "" && s[|s| - 1] == '_'
    ensures Digits(s) == None
  {
  }

  /** A sign counts. */
  lemma SignedParses(n: nat)
    ensures ParseInt("-" + Decimal(n)) == Some(-(n as int)) && ParseInt("+" + Decimal(n)) == Some(n as int)
  {
    hide Decimal, Digits;
    DecimalDigits(n);
    assert ("-" + Decimal(n))[1..] == Decimal(n) && ("+" + Decimal(n))[1..] == Decimal(n);
  }

  /** The call fails outright exactly when the capture stops right after the end marker's colon. */
  lemma RaisesIffCutAtColon(text: string, begin: string, err: string, end: string)
    ensures Parse(text, begin, err, end) == Raises <==>
      |text| > |end| && text[|text| - |end| - 1..] == end + ":"
  {
    LastIndexInRange(text, end + ":");
  }
}
