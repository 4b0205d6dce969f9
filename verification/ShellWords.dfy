/** Command lines as lists of words: quoting and joining them, and splitting the line again. The plan builder joins,
    the executor splits (src/fmh/reusable_workers.py, src/fmh/reusable_executor.py). */
module ShellWords {
  import opened Text
  import opened Wrappers

  predicate IsShellSafe(ch: char) {
    IsDigit(ch) || 'a' <= ch <= 'z' || 'A' <= ch <= 'Z' || ch in {'_', '@', '%', '+', '=', ':', ',', '.', '/', '-'}
  }

  function EscapeQuotes(s: string): string {
    if s == "" then "" else (if s[0] == '\'' then "'\"'\"'" else [s[0]]) + EscapeQuotes(s[1..])
  }

  function Quote(s: string): string {
    if s == "" then "''"
    else if forall ch :: ch in s ==> IsShellSafe(ch) then s
    else "'" + EscapeQuotes(s) + "'"
  }

  function ShellJoin(tokens: seq<string>): string {
    if tokens == [] then ""
    else if |tokens| == 1 then Quote(tokens[0])
    else ShellJoin(tokens[..|tokens| - 1]) + " " + Quote(tokens[|tokens| - 1])
  }

  /** A word stays bare exactly if it has characters and all of them are harmless; any other word is put in quotes. */
  lemma BareIff(w: string)
    ensures Quote(w) == w <==> w != "" && forall ch :: ch in w ==>
      '0' <= ch <= '9' || 'a' <= ch <= 'z' || 'A' <= ch <= 'Z' || ch in "_@%+=:,./-"
    ensures Quote(w) == w || (Quote(w)[0] == '\'' && Quote(w)[|Quote(w)| - 1] == '\'')
  {
    forall ch ensures IsShellSafe(ch) <==>
      '0' <= ch <= '9' || 'a' <= ch <= 'z' || 'A' <= ch <= 'Z' || ch in "_@%+=:,./-" {
    }
    hide IsShellSafe;
    EscapedIsLonger(w);
  }

  lemma {:induction false} EscapedIsLonger(w: string)
    ensures |EscapeQuotes(w)| >= |w|
  {
    if w != "" {
      EscapedIsLonger(w[1..]);
    }
  }

  // ---------------------------------------------------------------- splitting

  datatype Mode = Plain | Single | Double

  predicate IsBlank(ch: char) { ch in {' ', '\t', '\r', '\n'} }

  /** The words of the rest of a line, with `word` begun, in one of the quoting modes; None when a quotation is not
      closed or nothing follows an escape. */
  function Words(s: string, word: Option<string>, mode: Mode): Option<seq<string>>
    decreases |s|
  {
    var begun := if word.Some? then word.value else "";
    if s == "" then
      if mode != Plain then None else if word.None? then Some([]) else Some([begun])
    else
      var ch, rest := s[0], s[1..];
      match mode
      case Single => if ch == '\'' then Words(rest, Some(begun), Plain) else Words(rest, Some(begun + [ch]), Single)
      case Double =>
        if ch == '"' then Words(rest, Some(begun), Plain)
        else if ch != '\\' then Words(rest, Some(begun + [ch]), Double)
        else if rest == "" then None
        else if rest[0] in {'"', '\\'} then Words(rest[1..], Some(begun + [rest[0]]), Double)
        else Words(rest[1..], Some(begun + [ch, rest[0]]), Double)
      case Plain =>
        if IsBlank(ch) then
          if word.None? then Words(rest, None, Plain) else Prepend(begun, Words(rest, None, Plain))
        else if ch == '\'' then Words(rest, Some(begun), Single)
        else if ch == '"' then Words(rest, Some(begun), Double)
        else if ch != '\\' then Words(rest, Some(begun + [ch]), Plain)
        else if rest == "" then None
        else Words(rest[1..], Some(begun + [rest[0]]), Plain)
  }

  function Prepend(word: string, words: Option<seq<string>>): Option<seq<string>> {
    if words.None? then None else Some([word] + words.value)
  }

  function PrependAll(before: seq<string>, words: Option<seq<string>>): Option<seq<string>> {
    if words.None? then None else Some(before + words.value)
  }

  function ShellSplit(line: string): Option<seq<string>> { Words(line, None, Plain) }

  // ---------------------------------------------------------------- the round trip

  lemma {:induction false} SafeText(w: string, rest: string, begun: string)
    requires forall ch :: ch in w ==> IsShellSafe(ch)
    ensures Words(w + rest, Some(begun), Plain) == Words(rest, Some(begun + w), Plain)
  {
    if w == "" {
      assert w + rest == rest && begun + w == begun;
    } else {
      assert IsShellSafe(w[0]) && (w + rest)[1..] == w[1..] + rest;
      assert begun + w == begun + [w[0]] + w[1..];
      SafeText(w[1..], rest, begun + [w[0]]);
    }
  }

  lemma {:induction false} QuotedText(w: string, rest: string, begun: string)
    ensures Words(EscapeQuotes(w) + ("'" + rest), Some(begun), Single) == Words(rest, Some(begun + w), Plain)
  {
    hide Words, EscapeQuotes;
    EscapeStep(w);
    if w == "" {
      QuotationEnds(rest, begun);
      assert "" + ("'" + rest) == "'" + rest && begun + w == begun;
    } else {
      var tail := EscapeQuotes(w[1..]) + ("'" + rest);
      assert begun + w == begun + [w[0]] + w[1..];
      QuotedText(w[1..], rest, begun + [w[0]]);
      if w[0] == '\'' {
        assert EscapeQuotes(w) + ("'" + rest) == "'\"'\"'" + tail;
        QuotedQuote(tail, begun);
        assert begun + "'" == begun + [w[0]];
      } else {
        assert EscapeQuotes(w) + ("'" + rest) == [w[0]] + tail;
        QuotedChar(w[0], tail, begun);
      }
    }
  }

  lemma EscapeStep(w: string)
    ensures EscapeQuotes(w) ==
      if w == "" then "" else (if w[0] == '\'' then "'\"'\"'" else [w[0]]) + EscapeQuotes(w[1..])
  {
  }

  lemma QuotationEnds(rest: string, begun: string)
    ensures Words("'" + rest, Some(begun), Single) == Words(rest, Some(begun), Plain)
  {
    assert ("'" + rest)[1..] == rest;
  }

  lemma QuotedChar(ch: char, tail: string, begun: string)
    requires ch != '\''
    ensures Words([ch] + tail, Some(begun), Single) == Words(tail, Some(begun + [ch]), Single)
  {
    assert ([ch] + tail)[1..] == tail;
  }

  /** A quote inside a quotation leaves it, is quoted by itself and enters it again. */
  lemma QuotedQuote(tail: string, begun: string)
    ensures Words("'\"'\"'" + tail, Some(begun), Single) == Words(tail, Some(begun + "'"), Single)
  {
    var s4 := "'" + tail;
    var s3 := "\"" + s4;
    var s2 := "'" + s3;
    var s1 := "\"" + s2;
    assert "'\"'\"'" + tail == "'" + s1;
    assert ("'" + s1)[1..] == s1 && s1[1..] == s2 && s2[1..] == s3 && s3[1..] == s4 && s4[1..] == tail;
    assert Words("'" + s1, Some(begun), Single) == Words(s1, Some(begun), Plain);
    assert Words(s1, Some(begun), Plain) == Words(s2, Some(begun), Double);
    assert Words(s2, Some(begun), Double) == Words(s3, Some(begun + ['\'']), Double);
    assert Words(s3, Some(begun + ['\'']), Double) == Words(s4, Some(begun + ['\'']), Plain);
    assert Words(s4, Some(begun + ['\'']), Plain) == Words(tail, Some(begun + ['\'']), Single);
    assert begun + ['\''] == begun + "'";
  }

  lemma QuotedWord(w: string, rest: string)
    ensures Words(Quote(w) + rest, None, Plain) == Words(rest, Some(w), Plain)
  {
    hide IsShellSafe;
    if w != "" && forall ch :: ch in w ==> IsShellSafe(ch) {
      FirstSafe(w[0]);
      assert (w + rest)[1..] == w[1..] + rest;
      SafeText(w[1..], rest, [w[0]]);
      assert [w[0]] + w[1..] == w && "" + [w[0]] == [w[0]];
    } else {
      assert EscapeQuotes("") == "";
      assert Quote(w) + rest == "'" + (EscapeQuotes(w) + ("'" + rest));
      assert (Quote(w) + rest)[1..] == EscapeQuotes(w) + ("'" + rest);
      QuotedText(w, rest, "");
      assert "" + w == w;
    }
  }

  lemma FirstSafe(ch: char)
    requires IsShellSafe(ch)
    ensures !IsBlank(ch) && ch !in {'\'', '"', '\\'}
  {
  }

  lemma {:induction false} JoinedWords(tokens: seq<string>, rest: string)
    requires tokens != []
    ensures var n := |tokens| - 1;
      Words(ShellJoin(tokens) + rest, None, Plain) == PrependAll(tokens[..n], Words(rest, Some(tokens[n]), Plain))
  {
    hide Quote, Words;
    var n := |tokens| - 1;
    QuotedWord(tokens[n], rest);
    if n == 0 {
      PrependNothing(Words(rest, Some(tokens[0]), Plain));
    } else {
      var init, more := tokens[..n], Quote(tokens[n]) + rest;
      assert ShellJoin(tokens) + rest == ShellJoin(init) + (" " + more);
      JoinedWords(init, " " + more);
      BlankEnds(init[n - 1], more);
      assert init[..n - 1] + [init[n - 1]] == init;
      PrependTwice(init[..n - 1], init[n - 1], Words(more, None, Plain));
    }
  }

  lemma PrependNothing(words: Option<seq<string>>)
    ensures PrependAll([], words) == words
  {
    if words.Some? {
      assert [] + words.value == words.value;
    }
  }

  lemma PrependTwice(before: seq<string>, word: string, words: Option<seq<string>>)
    ensures PrependAll(before, Prepend(word, words)) == PrependAll(before + [word], words)
  {
    if words.Some? {
      assert before + ([word] + words.value) == before + [word] + words.value;
    }
  }

  lemma BlankEnds(word: string, rest: string)
    ensures Words(" " + rest, Some(word), Plain) == Prepend(word, Words(rest, None, Plain))
  {
    assert (" " + rest)[1..] == rest;
  }

  /** Splitting a joined line gives back its words, whatever is in them. */
  lemma SplitUndoesJoin(tokens: seq<string>)
    ensures ShellSplit(ShellJoin(tokens)) == Some(tokens)
  {
    if tokens != [] {
      var n := |tokens| - 1;
      JoinedWords(tokens, "");
      assert ShellJoin(tokens) + "" == ShellJoin(tokens);
      assert tokens[..n] + [tokens[n]] == tokens;
    }
  }
}
