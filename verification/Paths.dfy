/** Model paths as tasks spell them and as workers see them (src/fmh/reusable_workers.py and the alias
    sets of src/fmh/poller.py). */
module Paths {
  import opened Text

  datatype Prefixes = Prefixes(source: string, worker: string, table: string) {
    function Source(): string { TrimRight(source, IsSlash) }
    function Worker(): string { TrimRight(worker, IsSlash) }
    function Table(): string { TrimRight(table, IsSlash) }
  }

  datatype PathInfo = PathInfo(originalPath: string, workerPath: string, tablePath: string, modelId: string)

  predicate IsSlash(c: char) { c == '/' }

  predicate IsQuote(c: char) { c in {'`', '\'', '"', '，', ','} }

  function Unquote(raw: string): string { Trim(Strip(raw), IsQuote) }

  function LastSegment(s: string): string {
    if '/' in s then LastSegment(s[1..]) else s
  }

  function WorkerPath(p: Prefixes, original: string): string {
    if p.Source() + "/" <= original then p.Worker() + original[|p.Source()|..]
    else if p.Worker() + "/" <= original then original
    else if "/" <= original then original
    else p.Worker() + "/" + TrimLeft(original, IsSlash)
  }

  function TablePath(p: Prefixes, workerPath: string): string {
    if p.Table() + "/" <= workerPath then workerPath[|p.Table()| + 1..] else TrimLeft(workerPath, IsSlash)
  }

  function ModelIdOf(tablePath: string): string {
    var last := LastSegment(TrimRight(tablePath, IsSlash));
    if last != "" then last else "model"
  }

  function Normalize(p: Prefixes, raw: string): PathInfo {
    var original := Unquote(raw);
    var worker := WorkerPath(p, original);
    var table := TablePath(p, worker);
    PathInfo(original, worker, table, ModelIdOf(table))
  }

  /** The model id is the text after the last slash of the table path, trailing slashes aside; without any it is
      "model". */
  lemma ModelIdIsLastPart(p: Prefixes, raw: string)
    ensures var n := Normalize(p, raw);
      var trimmed := TrimRight(n.tablePath, IsSlash);
      if trimmed == "" then n.modelId == "model"
      else
        && '/' !in n.modelId && n.modelId != ""
        && exists head :: EndsInSlash(head) && trimmed == head + n.modelId
  {
    hide TrimRight, WorkerPath, TablePath, Unquote;
    var n := Normalize(p, raw);
    var trimmed := TrimRight(n.tablePath, IsSlash);
    TrimRightKeepsHead(n.tablePath, IsSlash);
    var head := LastSegmentIs(trimmed);
    assert LastSegment(trimmed) == "" ==> trimmed == head;
  }

  predicate EndsInSlash(head: string) { head == "" || head[|head| - 1] == '/' }

  lemma {:induction false} LastSegmentIs(s: string) returns (head: string)
    ensures s == head + LastSegment(s) && '/' !in LastSegment(s) && EndsInSlash(head)
    ensures '/' in s ==> head != ""
  {
    if '/' in s {
      var rest := LastSegmentIs(s[1..]);
      head := [s[0]] + rest;
      var last := LastSegment(s[1..]);
      assert s == [s[0]] + (rest + last) == head + last;
      assert LastSegment(s) == last;
      if rest == "" {
        assert rest + last == last;
        assert s[0] == '/';
      } else {
        assert head[|head| - 1] == rest[|rest| - 1];
      }
    } else {
      head := "";
      assert head + s == s;
    }
  }

  /** Space, then quotes of any kind, then the path, and the same behind: the path comes out. */
  lemma UnquoteUnwraps(before: string, open: string, path: string, close: string, after: string)
    requires path != "" && Trimmed(path, IsSpace) && Trimmed(path, IsQuote)
    requires forall ch :: ch in before + after ==> ch in {' ', '\t', '\n', '\r'}
    requires forall ch :: ch in open + close ==> ch in {'`', '\'', '"', '，', ','}
    ensures Unquote(before + open + path + close + after) == path
  {
    hide TrimLeft, TrimRight;
    var inner := open + path + close;
    assert before + open + path + close + after == before + inner + after;
    assert inner[0] in open + path && inner[|inner| - 1] in path + close;
    InnerTrimmed(open, path, close);
    TrimWrapped(before, inner, after, IsSpace);
    TrimWrapped(open, path, close, IsQuote);
  }

  lemma InnerTrimmed(open: string, path: string, close: string)
    requires path != "" && Trimmed(path, IsSpace)
    requires forall ch :: ch in open + close ==> ch in {'`', '\'', '"', '，', ','}
    ensures Trimmed(open + path + close, IsSpace)
  {
    var s := open + path + close;
    if open != "" {
      assert s[0] == open[0] && open[0] in open + close;
    } else {
      assert s[0] == path[0];
    }
    if close != "" {
      assert s[|s| - 1] == close[|close| - 1] && close[|close| - 1] in open + close;
    } else {
      assert s[|s| - 1] == path[|path| - 1];
    }
  }

  function Cleaned(path: string): string { TrimRight(Unquote(path), IsSlash) }

  function NoTrailingSlash(values: set<string>): set<string> {
    set v | v in values :: TrimRight(v, IsSlash)
  }

  /** A cleaned path, its normalised forms and its translation between the two prefixes. */
  function Spellings(p: Prefixes, cleaned: string): set<string> {
    var n := Normalize(p, cleaned);
    var s, w := p.Source(), p.Worker();
    var toWorker := if s != "" && w != "" && s + "/" <= cleaned then {w + cleaned[|s|..]} else {};
    var toSource := if s != "" && w != "" && w + "/" <= cleaned then {s + cleaned[|w|..]} else {};
    {n.originalPath, n.workerPath, n.tablePath} + toWorker + toSource
  }

  /** Every spelling under which a path is recognised as one already handled. */
  function Aliases(p: Prefixes, path: string): set<string> {
    var cleaned := Cleaned(path);
    if cleaned == "" then {} else ({cleaned} + NoTrailingSlash(Spellings(p, cleaned))) - {""}
  }

  // ---------------------------------------------------------------- the forms of a path

  ghost predicate Separate(p: Prefixes) {
    && "/" <= p.Source() && "/" <= p.Worker() && p.Table() == p.Worker()
    && !(p.Source() + "/" <= p.Worker() + "/") && !(p.Worker() + "/" <= p.Source() + "/")
  }

  ghost predicate IsClean(path: string) { path != "" && Cleaned(path) == path }

  /** Under one of the two prefixes, relative, or absolute under neither. */
  datatype Form = Under | Relative | Elsewhere

  function FormOf(p: Prefixes, path: string): Form {
    if p.Source() + "/" <= path || p.Worker() + "/" <= path then Under
    else if "/" <= path then Elsewhere else Relative
  }

  /** What is left without the prefix and its slash, or without leading slashes. */
  function Tail(p: Prefixes, path: string): string {
    if p.Source() + "/" <= path then path[|p.Source()| + 1..]
    else if p.Worker() + "/" <= path then path[|p.Worker()| + 1..]
    else TrimLeft(path, IsSlash)
  }

  function AsSource(p: Prefixes, path: string): string { p.Source() + "/" + Tail(p, path) }

  function AsWorker(p: Prefixes, path: string): string { p.Worker() + "/" + Tail(p, path) }

  lemma CleanedEnds(raw: string)
    ensures Cleaned(raw) == raw ==> Unquote(raw) == raw && Trimmed(raw, IsSpace) && Trimmed(raw, IsQuote)
    ensures Cleaned(raw) == raw && raw != "" ==> !IsSlash(raw[|raw| - 1])
  {
    hide TrimLeft, TrimRight;
    var a := TrimLeft(raw, IsSpace);
    var b := TrimRight(a, IsSpace);
    var c := TrimLeft(b, IsQuote);
    var d := TrimRight(c, IsQuote);
    TrimLeftKeepsTail(raw, IsSpace);
    TrimRightKeepsHead(a, IsSpace);
    TrimLeftKeepsTail(b, IsQuote);
    TrimRightKeepsHead(c, IsQuote);
    TrimRightKeepsHead(d, IsSlash);
  }

  /** Neither prefix reaches into paths under the other. */
  lemma NotUnder(a: string, b: string, tail: string)
    requires !(a + "/" <= b + "/") && !(b + "/" <= a + "/")
    ensures !(a + "/" <= b + "/" + tail)
  {
  }

  lemma SameTail(prefix: string, x: string, y: string)
    ensures prefix + "/" + x == prefix + "/" + y ==> x == y
  {
    assert (prefix + "/" + x)[|prefix| + 1..] == x;
    assert (prefix + "/" + y)[|prefix| + 1..] == y;
  }

  lemma NoSlashAtEnd(s: string)
    requires s != "" && !IsSlash(s[|s| - 1])
    ensures TrimRight(s, IsSlash) == s
  {
  }

  /** The tail of a cleaned path, form by form. */
  lemma TailShape(p: Prefixes, path: string)
    requires Separate(p) && IsClean(path)
    ensures Tail(p, path) != "" && Tail(p, path)[|Tail(p, path)| - 1] == path[|path| - 1] && !IsSlash(path[|path| - 1])
    ensures FormOf(p, path).Under? ==> path in {AsSource(p, path), AsWorker(p, path)}
    ensures FormOf(p, path).Relative? ==> path == Tail(p, path)
    ensures !FormOf(p, path).Under? ==> Tail(p, path)[0] != '/'
  {
    hide TrimLeft, Cleaned;
    CleanedEnds(path);
    TrimLeftKeepsTail(path, IsSlash);
    LastStays(path);
    FirstStays(path);
    Translated(p, path);
  }

  /** A path under one prefix, put under the other. */
  lemma Translated(p: Prefixes, path: string)
    requires Separate(p)
    ensures p.Source() + "/" <= path ==>
      path == AsSource(p, path) && p.Worker() + path[|p.Source()|..] == AsWorker(p, path)
    ensures p.Worker() + "/" <= path ==>
      path == AsWorker(p, path) && p.Source() + path[|p.Worker()|..] == AsSource(p, path)
  {
    hide TrimLeft, TrimRight;
    var s, w := p.Source(), p.Worker();
    if w + "/" <= path {
      assert path == w + "/" + path[|w| + 1..];
      NotUnder(s, w, path[|w| + 1..]);
      assert s + path[|w|..] == s + "/" + path[|w| + 1..];
    }
    if s + "/" <= path {
      assert path == s + "/" + path[|s| + 1..];
      assert w + path[|s|..] == w + "/" + path[|s| + 1..];
    }
  }

  lemma {:induction false} LastStays(path: string)
    requires path != "" && !IsSlash(path[|path| - 1])
    ensures TrimLeft(path, IsSlash) != ""
  {
    if IsSlash(path[0]) {
      LastStays(path[1..]);
    }
  }

  lemma FirstStays(path: string)
    ensures !("/" <= path) ==> TrimLeft(path, IsSlash) == path
  {
  }

  /** What normalising makes of a cleaned path. */
  lemma NormalisedForm(p: Prefixes, path: string)
    requires Separate(p) && IsClean(path)
    ensures var n := Normalize(p, path);
      && n.originalPath == path && n.tablePath == Tail(p, path)
      && n.workerPath == if FormOf(p, path).Elsewhere? then path else AsWorker(p, path)
  {
    hide TrimLeft, TrimRight, Unquote;
    CleanedEnds(path);
    TailShape(p, path);
    WorkerForm(p, path);
    if !FormOf(p, path).Elsewhere? {
      TableOfWorker(p, Tail(p, path));
    }
  }

  lemma WorkerForm(p: Prefixes, path: string)
    requires Separate(p)
    ensures WorkerPath(p, path) == if FormOf(p, path).Elsewhere? then path else AsWorker(p, path)
  {
    hide TrimLeft, TrimRight, Tail;
    Translated(p, path);
    RelativeTail(p, path);
  }

  lemma RelativeTail(p: Prefixes, path: string)
    ensures !FormOf(p, path).Under? ==> Tail(p, path) == TrimLeft(path, IsSlash)
  {
    hide TrimLeft, TrimRight;
  }

  lemma TableOfWorker(p: Prefixes, tail: string)
    requires Separate(p)
    ensures TablePath(p, p.Worker() + "/" + tail) == tail
  {
    hide TrimLeft, TrimRight;
  }

  // ---------------------------------------------------------------- the alias set of a path

  /** The aliases of a path from its form, itself, its tail and the tail under the two prefixes. */
  function AliasesFrom(form: Form, path: string, tail: string, asWorker: string, asSource: string): set<string> {
    match form
    case Under => {tail, asWorker, asSource}
    case Relative => {tail, asWorker}
    case Elsewhere => {tail, path}
  }

  function AliasSet(p: Prefixes, path: string): set<string> {
    AliasesFrom(FormOf(p, path), path, Tail(p, path), AsWorker(p, path), AsSource(p, path))
  }

  lemma AliasesAre(p: Prefixes, path: string)
    requires Separate(p) && IsClean(path)
    ensures Aliases(p, path) == AliasSet(p, path)
  {
    hide Spellings, FormOf, Tail, TrimRight, Unquote;
    TailShape(p, path);
    SpellingsAre(p, path);
    var all := AliasSet(p, path);
    forall v | v in all ensures v != "" && TrimRight(v, IsSlash) == v {
      NoSlashAtEnd(v);
    }
    SlashFree(all);
  }

  lemma SpellingsAre(p: Prefixes, path: string)
    requires Separate(p) && IsClean(path)
    ensures {path} + Spellings(p, path) == AliasSet(p, path) == Spellings(p, path)
  {
    hide Normalize, TrimRight, Tail, IsClean, AsWorker, AsSource, Separate;
    NormalisedForm(p, path);
    TailShape(p, path);
    Translated(p, path);
    OnePrefix(p, path);
    var s, w := p.Source(), p.Worker();
    if s + "/" <= path {
      assert Spellings(p, path) == {path, AsWorker(p, path), Tail(p, path)};
    } else if w + "/" <= path {
      assert Spellings(p, path) == {path, Tail(p, path), AsSource(p, path)};
    }
  }

  lemma OnePrefix(p: Prefixes, path: string)
    requires Separate(p)
    ensures p.Source() != "" && p.Worker() != ""
    ensures !(p.Source() + "/" <= path && p.Worker() + "/" <= path)
  {
    hide TrimRight;
  }

  lemma SlashFree(values: set<string>)
    requires forall v :: v in values ==> TrimRight(v, IsSlash) == v
    ensures NoTrailingSlash(values) == values
  {
  }

  // ---------------------------------------------------------------- when two paths are taken for one another

  /** What tells the spellings of two paths apart. */
  ghost predicate Apart(formA: Form, a: string, t: string, wt: string, st: string,
                        formB: Form, b: string, u: string, wu: string, su: string) {
    && (st == su <==> t == u) && (wt == wu <==> t == u) && st != wu
    && t != wt && t != st
    && (formB.Elsewhere? ==> st != b && wt != b && b != u)
    && (!formB.Under? ==> st != u && wt != u)
    && (formA.Elsewhere? && formB.Elsewhere? ==> a != u)
    && (formA.Relative? && formB.Elsewhere? ==> t != b)
    && (a == b ==> t == u && formA == formB)
  }

  lemma PathsApart(p: Prefixes, a: string, b: string)
    requires Separate(p) && IsClean(a) && IsClean(b)
    ensures Apart(FormOf(p, a), a, Tail(p, a), AsWorker(p, a), AsSource(p, a),
                  FormOf(p, b), b, Tail(p, b), AsWorker(p, b), AsSource(p, b))
  {
    hide IsClean, TrimLeft, TrimRight, Tail;
    var s, w, t, u := p.Source(), p.Worker(), Tail(p, a), Tail(p, b);
    TailShape(p, a);
    TailShape(p, b);
    SameTail(s, t, u);
    SameTail(w, t, u);
    NotUnder(s, w, u);
    assert s + "/" <= s + "/" + t && w + "/" <= w + "/" + t;
    assert (s + "/" + t)[0] == '/' && (w + "/" + t)[0] == '/';
    assert |s + "/" + t| > |t| && |w + "/" + t| > |t|;
  }

  /** Two alias sets meet exactly when one of the two tails is an alias of the other path. */
  lemma AliasesMeetIff(p: Prefixes, a: string, b: string)
    requires Separate(p) && IsClean(a) && IsClean(b)
    ensures Aliases(p, a) * Aliases(p, b) != {} <==> Tail(p, a) in AliasSet(p, b) || Tail(p, b) in AliasSet(p, a)
  {
    hide Aliases, FormOf, Tail, AsSource, AsWorker, Apart, IsClean, Separate;
    AliasesAre(p, a);
    AliasesAre(p, b);
    PathsApart(p, a, b);
    PathsApart(p, b, a);
    MeetIff(FormOf(p, a), a, Tail(p, a), AsWorker(p, a), AsSource(p, a),
            FormOf(p, b), b, Tail(p, b), AsWorker(p, b), AsSource(p, b));
  }

  lemma MeetIff(formA: Form, a: string, t: string, wt: string, st: string,
                formB: Form, b: string, u: string, wu: string, su: string)
    requires Apart(formA, a, t, wt, st, formB, b, u, wu, su) && Apart(formB, b, u, wu, su, formA, a, t, wt, st)
    ensures var x, y := AliasesFrom(formA, a, t, wt, st), AliasesFrom(formB, b, u, wu, su);
      x * y != {} <==> t in y || u in x
  {
    var x, y := AliasesFrom(formA, a, t, wt, st), AliasesFrom(formB, b, u, wu, su);
    if v :| v in x * y {
      assert v in x && v in y;
    }
    if t in y {
      assert t in x * y;
    }
    if u in x {
      assert u in x * y;
    }
  }

  /** The absolute spellings the alias set of a path holds. */
  function AbsoluteFrom(form: Form, path: string, asWorker: string, asSource: string): set<string> {
    match form
    case Under => {asWorker, asSource}
    case Relative => {asWorker}
    case Elsewhere => {path}
  }

  /** `a` is taken for `b` wrongly: `b` is absolute under neither prefix and `a` is another path of the same tail, or
      `a` is a prefix and a slash before an absolute spelling of `b`. */
  predicate Confused(p: Prefixes, a: string, b: string) {
    || (FormOf(p, b).Elsewhere? && Tail(p, a) == Tail(p, b) && a != b)
    || (FormOf(p, a).Under? && Tail(p, a) in AbsoluteFrom(FormOf(p, b), b, AsWorker(p, b), AsSource(p, b)))
  }

  /** For all cleaned paths, the alias test tells whether two paths mean the same worker path, unless one of them is
      taken for the other wrongly. */
  lemma AliasTestIsRightIff(p: Prefixes, a: string, b: string)
    requires Separate(p) && IsClean(a) && IsClean(b)
    ensures (Aliases(p, a) * Aliases(p, b) != {} <==> Normalize(p, a).workerPath == Normalize(p, b).workerPath) <==>
      !Confused(p, a, b) && !Confused(p, b, a)
  {
    hide Aliases, Normalize, FormOf, Tail, AsSource, AsWorker, Apart, IsClean, Separate;
    AliasesAre(p, a);
    AliasesAre(p, b);
    NormalisedForm(p, a);
    NormalisedForm(p, b);
    PathsApart(p, a, b);
    PathsApart(p, b, a);
    RightIff(FormOf(p, a), a, Tail(p, a), AsWorker(p, a), AsSource(p, a),
             FormOf(p, b), b, Tail(p, b), AsWorker(p, b), AsSource(p, b));
  }

  ghost predicate ConfusedFrom(formA: Form, a: string, t: string,
                               formB: Form, b: string, u: string, wu: string, su: string) {
    (formB.Elsewhere? && t == u && a != b) || (formA.Under? && t in AbsoluteFrom(formB, b, wu, su))
  }

  lemma RightIff(formA: Form, a: string, t: string, wt: string, st: string,
                 formB: Form, b: string, u: string, wu: string, su: string)
    requires Apart(formA, a, t, wt, st, formB, b, u, wu, su) && Apart(formB, b, u, wu, su, formA, a, t, wt, st)
    ensures var meet := AliasesFrom(formA, a, t, wt, st) * AliasesFrom(formB, b, u, wu, su) != {};
      var same := (if formA.Elsewhere? then a else wt) == (if formB.Elsewhere? then b else wu);
      (meet <==> same) <==>
        !ConfusedFrom(formA, a, t, formB, b, u, wu, su) && !ConfusedFrom(formB, b, u, formA, a, t, wt, st)
  {
    MeetIff(formA, a, t, wt, st, formB, b, u, wu, su);
  }

  /** Of paths whose tails do not begin with a slash the alias sets meet exactly when the tails agree. */
  lemma AliasesMeetIffSameTail(p: Prefixes, a: string, b: string)
    requires Separate(p) && IsClean(a) && IsClean(b)
    requires !("/" <= Tail(p, a)) && !("/" <= Tail(p, b))
    ensures Aliases(p, a) * Aliases(p, b) != {} <==> Tail(p, a) == Tail(p, b)
  {
    hide Aliases, FormOf, Tail, IsClean;
    AliasesMeetIff(p, a, b);
    AbsoluteAliases(p, a);
    AbsoluteAliases(p, b);
  }

  /** Every alias but the tail begins with a slash. */
  lemma AbsoluteAliases(p: Prefixes, path: string)
    requires Separate(p) && IsClean(path)
    ensures Tail(p, path) in AliasSet(p, path)
    ensures forall v :: v in AliasSet(p, path) && v != Tail(p, path) ==> "/" <= v
  {
    hide Tail, Cleaned;
    TailShape(p, path);
  }

  // ---------------------------------------------------------------- spelled paths

  /** A cleaned path that spells `tail` under the source prefix, under the worker prefix or relatively. */
  ghost predicate Spells(p: Prefixes, path: string, tail: string) {
    && path != "" && Cleaned(path) == path
    && tail != "" && tail[0] != '/'
    && (path == p.Source() + "/" + tail || path == p.Worker() + "/" + tail || path == tail)
  }

  lemma SpelledForm(p: Prefixes, path: string, tail: string)
    requires Separate(p) && Spells(p, path, tail)
    ensures IsClean(path) && Tail(p, path) == tail && !FormOf(p, path).Elsewhere? && !("/" <= tail)
  {
    hide TrimLeft, TrimRight, Cleaned;
    var s, w := p.Source(), p.Worker();
    FirstStays(path);
    if path == w + "/" + tail {
      NotUnder(s, w, tail);
    }
  }

  lemma Normalised(p: Prefixes, path: string, tail: string)
    requires Separate(p) && Spells(p, path, tail)
    ensures var n := Normalize(p, path);
      n.originalPath == path && n.workerPath == p.Worker() + "/" + tail && n.tablePath == tail
  {
    hide Normalize, Spells, FormOf, Tail, Separate, IsClean;
    SpelledForm(p, path, tail);
    NormalisedForm(p, path);
  }

  /** The alias set of a spelled path: its tail, its worker path, and nothing beyond its source path. */
  lemma AliasBounds(p: Prefixes, path: string, tail: string)
    requires Separate(p) && Spells(p, path, tail)
    ensures {tail, p.Worker() + "/" + tail} <= Aliases(p, path)
    ensures Aliases(p, path) <= {tail, p.Worker() + "/" + tail, p.Source() + "/" + tail}
  {
    hide Aliases, Spells, FormOf, Tail, Separate, IsClean;
    SpelledForm(p, path, tail);
    AliasesAre(p, path);
  }

  /** Two spelled paths are recognised as the same exactly when they mean the same worker path. */
  lemma AliasesMeetIffSameModel(p: Prefixes, a: string, x: string, b: string, y: string)
    requires Separate(p) && Spells(p, a, x) && Spells(p, b, y)
    ensures Aliases(p, a) * Aliases(p, b) != {} <==> Normalize(p, a).workerPath == Normalize(p, b).workerPath
  {
    hide Aliases, Normalize, Spells, FormOf, Tail, Separate, IsClean;
    SpelledForm(p, a, x);
    SpelledForm(p, b, y);
    AliasesMeetIffSameTail(p, a, b);
    NormalisedForm(p, a);
    NormalisedForm(p, b);
    SameTail(p.Worker(), x, y);
  }

  // ---------------------------------------------------------------- the wrong pairs exist

  /** A cleaned path stays clean behind a slash and an absolute prefix. */
  lemma CleanBehind(path: string, prefix: string)
    requires IsClean(path) && (prefix == "" || "/" <= prefix)
    ensures IsClean(prefix + "/" + path)
  {
    hide TrimLeft, TrimRight;
    var moved := prefix + "/" + path;
    CleanedEnds(path);
    assert moved[0] == '/' && moved[|moved| - 1] == path[|path| - 1];
    BareIf(moved);
    NoSlashAtEnd(moved);
  }

  /** A wrong pair shares an alias and means two worker paths. */
  lemma ConfusedCollide(p: Prefixes, a: string, b: string)
    requires Separate(p) && IsClean(a) && IsClean(b) && Confused(p, a, b)
    ensures Tail(p, a) in Aliases(p, a) * Aliases(p, b)
    ensures Normalize(p, a).workerPath != Normalize(p, b).workerPath
  {
    hide Aliases, Normalize, FormOf, Tail, IsClean, Separate, AsSource, AsWorker, Apart;
    AliasesAre(p, a);
    AliasesAre(p, b);
    AliasTestIsRightIff(p, a, b);
  }

  /** An absolute path under neither prefix collides with the relative path of its tail. */
  lemma AbsoluteElsewhereCollides(p: Prefixes, tail: string)
    requires Separate(p) && Spells(p, tail, tail)
    requires !(p.Source() + "/" <= "/" + tail) && !(p.Worker() + "/" <= "/" + tail)
    ensures tail in Aliases(p, "/" + tail) * Aliases(p, tail)
    ensures Normalize(p, "/" + tail).workerPath != Normalize(p, tail).workerPath
  {
    hide Aliases, Normalize, Cleaned;
    SpelledForm(p, tail, tail);
    CleanBehind(tail, "");
    assert "" + "/" + tail == "/" + tail;
    OneSlashLess(p, tail);
    ConfusedCollide(p, tail, "/" + tail);
  }

  /** It also collides with itself behind one more slash, as `/x` and `//x` do. */
  lemma SlashesElsewhereCollide(p: Prefixes, path: string)
    requires Separate(p) && IsClean(path) && FormOf(p, path).Elsewhere? && FormOf(p, "/" + path).Elsewhere?
    ensures Tail(p, path) in Aliases(p, "/" + path) * Aliases(p, path)
    ensures Normalize(p, "/" + path).workerPath != Normalize(p, path).workerPath
  {
    hide Aliases, Normalize, IsClean, Separate;
    CleanBehind(path, "");
    assert "" + "/" + path == "/" + path;
    OneSlashLess(p, path);
    ConfusedCollide(p, path, "/" + path);
  }

  lemma OneSlashLess(p: Prefixes, path: string)
    ensures TrimLeft("/" + path, IsSlash) == TrimLeft(path, IsSlash)
  {
    assert ("/" + path)[1..] == path;
  }

  /** Behind the source prefix and a slash, an absolute spelling of a path collides with the path. */
  lemma DoubledSlashCollides(p: Prefixes, path: string, spelled: string)
    requires Separate(p) && IsClean(path) && IsClean(spelled)
    requires spelled in AbsoluteFrom(FormOf(p, path), path, AsWorker(p, path), AsSource(p, path))
    ensures var doubled := p.Source() + "/" + spelled;
      && spelled in Aliases(p, doubled) * Aliases(p, path)
      && Normalize(p, doubled).workerPath != Normalize(p, path).workerPath
  {
    hide Aliases, Normalize, IsClean;
    var doubled := p.Source() + "/" + spelled;
    CleanBehind(spelled, p.Source());
    assert p.Source() + "/" <= doubled && doubled[|p.Source()| + 1..] == spelled;
    ConfusedCollide(p, doubled, path);
  }

  // ---------------------------------------------------------------- idempotence

  /** Normalising a normalised worker path changes nothing, for every path free of outer quotes and space. */
  lemma NormalizeIdempotent(p: Prefixes, path: string)
    requires "/" <= p.Worker() && !(p.Source() + "/" <= p.Worker() + "/") && !(p.Worker() + "/" <= p.Source() + "/")
    requires Unquote(path) == path
    ensures var n := Normalize(p, path);
      var again := Normalize(p, n.workerPath);
      again.workerPath == n.workerPath && again.tablePath == n.tablePath && again.modelId == n.modelId
  {
    hide Unquote, TablePath, ModelIdOf, TrimRight;
    var worker := WorkerPath(p, path);
    WorkerIsBare(p, path);
    if p.Worker() + "/" <= worker {
      NotUnder(p.Source(), p.Worker(), worker[|p.Worker()| + 1..]);
      assert worker == p.Worker() + "/" + worker[|p.Worker()| + 1..];
    } else {
      UnderWorkerOrAsIs(p, path);
    }
  }

  lemma UnderWorkerOrAsIs(p: Prefixes, path: string)
    ensures var worker := WorkerPath(p, path);
      p.Worker() + "/" <= worker || (worker == path && "/" <= path && !(p.Source() + "/" <= path))
  {
    hide TrimRight;
    var s, w := p.Source(), p.Worker();
    if s + "/" <= path {
      assert path[|s|] == '/' && WorkerPath(p, path)[..|w| + 1] == w + "/";
    }
  }

  /** The worker path of a bare path is bare. */
  lemma WorkerIsBare(p: Prefixes, path: string)
    requires Unquote(path) == path && "/" <= p.Worker()
    ensures Unquote(WorkerPath(p, path)) == WorkerPath(p, path)
  {
    hide TrimRight;
    var worker := WorkerPath(p, path);
    BareEnds(path);
    TrimLeftKeepsTail(path, IsSlash);
    UnderWorkerOrAsIs(p, path);
    if worker != path {
      assert worker[0] == '/';
      LastOfWorker(p, path);
      BareIf(worker);
    }
  }

  /** A rebased path ends as it did, or in a slash. */
  lemma LastOfWorker(p: Prefixes, path: string)
    ensures var worker := WorkerPath(p, path);
      worker != "" && worker != path ==>
        IsSlash(worker[|worker| - 1]) || (path != "" && worker[|worker| - 1] == path[|path| - 1])
  {
    hide TrimRight;
    TrimLeftKeepsTail(path, IsSlash);
    var s := p.Source();
    if s + "/" <= path {
      assert path[|s|..][|path| - |s| - 1] == path[|path| - 1];
    }
  }

  lemma BareEnds(path: string)
    requires Unquote(path) == path
    ensures Trimmed(path, IsSpace) && Trimmed(path, IsQuote)
  {
    hide TrimLeft, TrimRight;
    var a := TrimLeft(path, IsSpace);
    var b := TrimRight(a, IsSpace);
    var c := TrimLeft(b, IsQuote);
    TrimLeftKeepsTail(path, IsSpace);
    TrimRightKeepsHead(a, IsSpace);
    TrimLeftKeepsTail(b, IsQuote);
    TrimRightKeepsHead(c, IsQuote);
  }

  lemma BareIf(path: string)
    requires Trimmed(path, IsSpace) && Trimmed(path, IsQuote)
    ensures Unquote(path) == path
  {
    TrimmedUnchanged(path, IsSpace);
    TrimmedUnchanged(path, IsQuote);
  }
}
