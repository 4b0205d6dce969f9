/** The deployed-models table in the shared document: patching one row (src/fmh/deployed_doc.py) and reading
    rows back (src/fmh/reusable_workers.py, src/fmh/reusable_executor.py). */
module DeployedTable {
  import opened Text
  import opened Paths
  import opened Placement
  import opened Wrappers

  /** A child block of a cell. Only text blocks can be patched. */
  datatype Block = Block(isText: bool, content: string)
  type Cell = seq<Block>

  /** The cells of the table in row-major order; row 0 holds the titles. */
  datatype Grid = Grid(columns: nat, rows: nat, cells: seq<Cell>)

  ghost predicate IsTable(g: Grid) { g.columns > 0 && g.rows > 0 && |g.cells| == g.rows * g.columns }

  function CellAt(g: Grid, index: int): Cell {
    if 0 <= index < |g.cells| then g.cells[index] else []
  }

  function Joined(cell: Cell): string {
    if cell == [] then "" else cell[0].content + Joined(cell[1..])
  }

  function CellText(cell: Cell): string { Strip(Joined(cell)) }

  /** A title without any white space. */
  function NormalizeHeader(s: string): string {
    if s == "" then "" else (if IsSpace(s[0]) then "" else [s[0]]) + NormalizeHeader(s[1..])
  }

  /** A cell as the reader sees it. Cleaning also unescapes text and drops blank lines; what follows holds for any
      cleaning. */
  function ReadText(c: Config, cell: Cell): string { c.reader.clean(CellText(cell)) }

  function Titles(c: Config, g: Grid): seq<string> { seq(g.columns, i => ReadText(c, CellAt(g, i))) }

  function WriteTitles(g: Grid): seq<string> { seq(g.columns, i => NormalizeHeader(CellText(CellAt(g, i)))) }

  /** Of several columns with one title the last counts. */
  function LastIndex(titles: seq<string>, name: string): (r: Option<nat>)
    ensures r.Some? ==> r.value < |titles| && titles[r.value] == name
  {
    if titles == [] then None
    else if titles[|titles| - 1] == name then Some(|titles| - 1)
    else LastIndex(titles[..|titles| - 1], name)
  }

  predicate Named(titles: seq<string>, names: seq<string>) {
    forall name :: name in names ==> LastIndex(titles, name).Some?
  }

  predicate Writable(g: Grid) { Named(WriteTitles(g), [COL_MODEL, COL_MODEL_ID, COL_ADDRESS]) }

  predicate Readable(c: Config, g: Grid) { Named(Titles(c, g), [COL_MODEL, COL_MODEL_ID, COL_ADDRESS, COL_TESTED]) }

  // ---------------------------------------------------------------- writing

  predicate HasText(cell: Cell) { exists i :: 0 <= i < |cell| && cell[i].isText }

  /** The first text block replaced. */
  function Patched(cell: Cell, value: string): Cell {
    if cell == [] then []
    else if cell[0].isText then [Block(true, value)] + cell[1..]
    else [cell[0]] + Patched(cell[1..], value)
  }

  type Values = seq<(string, string)>

  /** The last value given for a title. */
  function Given(values: Values, title: string): Option<string> {
    if values == [] then None
    else
      var last := values[|values| - 1];
      if NormalizeHeader(last.0) == title then Some(last.1) else Given(values[..|values| - 1], title)
  }

  function CellAfter(titles: seq<string>, values: Values, column: int, cell: Cell): Cell {
    if 0 <= column < |titles| && LastIndex(titles, titles[column]) == Some(column) &&
      Given(values, titles[column]).Some?
    then Patched(cell, Given(values, titles[column]).value)
    else cell
  }

  /** The table after the given values were written into one row. */
  function AfterWrite(g: Grid, row: int, values: Values): Grid {
    g.(cells := seq(|g.cells|, j => CellAfter(WriteTitles(g), values, j - row * g.columns, CellAt(g, j))))
  }

  /** The cell a value goes to. */
  function Target(g: Grid, row: int, name: string): Option<int> {
    match LastIndex(WriteTitles(g), NormalizeHeader(name))
    case None => None
    case Some(column) => Some(row * g.columns + column)
  }

  ghost predicate Blocked(g: Grid, row: int, name: string) {
    Target(g, row, name).Some? && !HasText(CellAt(g, Target(g, row, name).value))
  }

  function Known(g: Grid, values: Values): seq<string> {
    if values == [] then []
    else
      var name := values[|values| - 1].0;
      Known(g, values[..|values| - 1]) + if LastIndex(WriteTitles(g), NormalizeHeader(name)).Some? then [name] else []
  }

  datatype Outcome = Updated(columns: seq<string>) | TableNotFound | RowOutOfRange | NoTextChild(at: nat)

  lemma InRow(g: Grid, row: int, column: nat)
    requires IsTable(g) && 0 <= row < g.rows && column < g.columns
    ensures 0 <= row * g.columns + column < |g.cells|
  {
    assert row * g.columns + g.columns == (row + 1) * g.columns <= g.rows * g.columns;
  }

  lemma NothingWritten(g: Grid, row: int)
    ensures AfterWrite(g, row, []) == g && Known(g, []) == []
  {
  }

  lemma {:induction false} PatchTwice(cell: Cell, u: string, v: string)
    ensures Patched(Patched(cell, u), v) == Patched(cell, v)
    ensures HasText(Patched(cell, u)) <==> HasText(cell)
  {
    if cell != [] && !cell[0].isText {
      PatchTwice(cell[1..], u, v);
      HasTextFurther(cell);
      HasTextFurther(Patched(cell, u));
      assert Patched(cell, u)[1..] == Patched(cell[1..], u);
    } else if cell != [] {
      assert Patched(cell, u)[0].isText;
    }
  }

  lemma HasTextFurther(cell: Cell)
    requires cell != [] && !cell[0].isText
    ensures HasText(cell) <==> HasText(cell[1..])
  {
    if HasText(cell) {
      var i :| 0 <= i < |cell| && cell[i].isText;
      assert cell[1..][i - 1].isText;
    }
  }

  lemma AnotherValue(titles: seq<string>, values: Values, v: (string, string), column: int, cell: Cell)
    ensures var was, now := CellAfter(titles, values, column, cell), CellAfter(titles, values + [v], column, cell);
      && now == (if LastIndex(titles, NormalizeHeader(v.0)) == Some(column) then Patched(was, v.1) else was)
      && (HasText(was) <==> HasText(cell))
  {
    hide NormalizeHeader, Patched, HasText;
    assert (values + [v])[..|values|] == values;
    if 0 <= column < |titles| && Given(values, titles[column]).Some? {
      PatchTwice(cell, Given(values, titles[column]).value, v.1);
    }
  }

  /** Writing one more value patches the one cell it goes to. */
  lemma WriteStep(g: Grid, row: int, values: Values, v: (string, string))
    requires IsTable(g) && 0 <= row < g.rows
    ensures var before, after, at := AfterWrite(g, row, values), AfterWrite(g, row, values + [v]), Target(g, row, v.0);
      && before.columns == g.columns && before.rows == g.rows && |before.cells| == |g.cells|
      && (at.None? ==> after == before)
      && (at.Some? ==> 0 <= at.value < |g.cells|)
      && (at.Some? ==> after == before.(cells := before.cells[at.value := Patched(before.cells[at.value], v.1)]))
      && (Blocked(g, row, v.0) <==> at.Some? && !HasText(before.cells[at.value]))
    ensures Known(g, values + [v]) == Known(g, values) + if Target(g, row, v.0).Some? then [v.0] else []
  {
    hide CellAfter, NormalizeHeader, Patched, HasText, WriteTitles;
    assert (values + [v])[..|values|] == values;
    var titles := WriteTitles(g);
    TitleCount(g);
    var index := LastIndex(titles, NormalizeHeader(v.0));
    if index.Some? {
      InRow(g, row, index.value);
    }
    forall j | 0 <= j < |g.cells|
      ensures AfterWrite(g, row, values + [v]).cells[j] ==
        if Target(g, row, v.0) == Some(j) then Patched(AfterWrite(g, row, values).cells[j], v.1)
        else AfterWrite(g, row, values).cells[j]
      ensures HasText(AfterWrite(g, row, values).cells[j]) <==> HasText(g.cells[j])
    {
      AnotherValue(titles, values, v, j - row * g.columns, CellAt(g, j));
    }
  }

  lemma NoTitles()
    ensures forall name :: LastIndex([], name).None?
  {
  }

  lemma OneMoreTitle(titles: seq<string>, title: string)
    ensures forall name ::
      LastIndex(titles + [title], name) == if name == title then Some(|titles|) else LastIndex(titles, name)
  {
    assert (titles + [title])[..|titles|] == titles;
  }

  lemma TitleCount(g: Grid)
    ensures |WriteTitles(g)| == g.columns
  {
  }

  /** A row of the table written as a whole: the table it was written to, the row and the values. */
  datatype Write = Write(before: Grid, row: int, values: Values)

  class DeployedDoc {
    var grid: Grid
    /** The updates that wrote all their values, in order. */
    ghost var writes: seq<Write>

    constructor (grid: Grid)
      ensures this.grid == grid && writes == []
    {
      this.grid := grid;
      this.writes := [];
    }

    method ReadHeaders() returns (headers: map<string, nat>)
      ensures forall name :: name in headers <==> LastIndex(WriteTitles(grid), name).Some?
      ensures forall name :: name in headers ==> Some(headers[name]) == LastIndex(WriteTitles(grid), name)
    {
      hide LastIndex, WriteTitles;
      headers := map[];
      var titles := WriteTitles(grid);
      NoTitles();
      for column := 0 to |titles|
        invariant forall name :: name in headers <==> LastIndex(titles[..column], name).Some?
        invariant forall name :: name in headers ==> Some(headers[name]) == LastIndex(titles[..column], name)
      {
        assert titles[..column + 1] == titles[..column] + [titles[column]];
        OneMoreTitle(titles[..column], titles[column]);
        headers := headers[titles[column] := column];
      }
      assert titles[..|titles|] == titles;
    }

    /** Only cells of the one row change, and of those only the named ones. A cell without a text block stops
        the update after the values before it were written. */
    method UpdateRow(rowIndex: int, values: Values) returns (outcome: Outcome)
      requires IsTable(grid)
      modifies this
      ensures IsTable(grid)
      ensures writes == old(writes) + if outcome.Updated? then [Write(old(grid), rowIndex, values)] else []
      ensures outcome.TableNotFound? <==> !Writable(old(grid))
      ensures outcome.RowOutOfRange? <==> Writable(old(grid)) && !(0 < rowIndex < old(grid).rows)
      ensures outcome.TableNotFound? || outcome.RowOutOfRange? ==> grid == old(grid)
      ensures outcome.Updated? <==>
        && Writable(old(grid)) && 0 < rowIndex < old(grid).rows
        && forall v :: v in values ==> !Blocked(old(grid), rowIndex, v.0)
      ensures outcome.Updated? ==> grid == AfterWrite(old(grid), rowIndex, values)
      ensures outcome.Updated? ==> outcome.columns == Known(old(grid), values)
      ensures outcome.NoTextChild? ==>
        && outcome.at < |values| && Blocked(old(grid), rowIndex, values[outcome.at].0)
        && grid == AfterWrite(old(grid), rowIndex, values[..outcome.at])
    {
      hide AfterWrite, HasText, Blocked, Known, LastIndex, WriteTitles;
      ghost var before := grid;
      var headers := ReadHeaders();
      if COL_MODEL !in headers || COL_MODEL_ID !in headers || COL_ADDRESS !in headers {
        return TableNotFound;
      }
      if rowIndex <= 0 || rowIndex >= grid.rows {
        return RowOutOfRange;
      }
      var updates: seq<string> := [];
      TitleCount(before);
      NothingWritten(before, rowIndex);
      assert values[..0] == [];
      for i := 0 to |values|
        invariant writes == old(writes)
        invariant grid == AfterWrite(before, rowIndex, values[..i])
        invariant updates == Known(before, values[..i])
        invariant forall v :: v in values[..i] ==> !Blocked(before, rowIndex, v.0)
      {
        var (name, value) := values[i];
        var title := NormalizeHeader(name);
        assert values[..i + 1] == values[..i] + [values[i]];
        WriteStep(before, rowIndex, values[..i], values[i]);
        if title in headers {
          var at := rowIndex * grid.columns + headers[title];
          InRow(before, rowIndex, headers[title]);
          if !HasText(grid.cells[at]) {
            return NoTextChild(i);
          }
          grid := grid.(cells := grid.cells[at := Patched(grid.cells[at], value)]);
          updates := updates + [name];
        }
      }
      assert values[..|values|] == values;
      SameShape(before, rowIndex, values);
      writes := writes + [Write(before, rowIndex, values)];
      return Updated(updates);
    }
  }

  // ---------------------------------------------------------------- reading

  function Field(c: Config, g: Grid, row: int, name: string): string {
    match LastIndex(Titles(c, g), name)
    case None => ""
    case Some(column) => ReadText(c, CellAt(g, row * g.columns + column))
  }

  function FirstField(c: Config, g: Grid, row: int, names: seq<string>): string {
    if names == [] then ""
    else if LastIndex(Titles(c, g), names[0]).Some? then Field(c, g, row, names[0])
    else FirstField(c, g, row, names[1..])
  }

  const REUSE_TITLES := [COL_REUSE, "是否复用", "可复用"]

  predicate IsBlank(c: Config, g: Grid, row: int) {
    forall title :: title in Titles(c, g) ==> Field(c, g, row, title) == ""
  }

  function RowAt(c: Config, g: Grid, row: nat): Row {
    var address := Field(c, g, row, COL_ADDRESS);
    Row(row, Field(c, g, row, COL_MODEL), Field(c, g, row, COL_MODEL_ID), address, c.reader.ip(address),
      c.reader.gpuCount(address),
        Field(c, g, row, COL_TOOL_PARSER), Field(c, g, row, COL_REASONING_PARSER), Field(c, g, row, COL_TESTED),
        FirstField(c, g, row, REUSE_TITLES), exists name :: name in REUSE_TITLES && name in Titles(c, g))
  }

  /** The rows below the titles, blank ones left out. Without its titles a table is not read at all. */
  function RowsFrom(c: Config, g: Grid, row: nat): seq<Row>
    decreases g.rows - row
  {
    if row >= g.rows then []
    else (if IsBlank(c, g, row) then [] else [RowAt(c, g, row)]) + RowsFrom(c, g, row + 1)
  }

  function ParseTable(c: Config, g: Grid): seq<Row> {
    if Readable(c, g) then RowsFrom(c, g, 1) else []
  }

  function StripMarker(value: string, marker: string): string {
    var text := Strip(value);
    if marker != "" && |marker| <= |text| && text[|text| - |marker|..] == marker
    then Strip(text[..|text| - |marker|])
    else text
  }

  predicate AlreadyServes(c: Config, row: Row, path: PathInfo) {
    && StripMarker(row.model, c.deployingMarker) == Strip(path.tablePath)
    && StripMarker(row.modelId, c.deployingMarker) == Strip(path.modelId)
  }

  predicate SafeForPlan(c: Config, row: Row, path: PathInfo) {
    AlreadyServes(c, row, path) || IsReusable(c, row)
  }

  // ---------------------------------------------------------------- what writing does to reading

  lemma {:induction false} RowsAreTheRows(c: Config, g: Grid, from: nat, row: Row)
    ensures row in RowsFrom(c, g, from) <==>
      from <= row.rowIndex < g.rows && !IsBlank(c, g, row.rowIndex) && row == RowAt(c, g, row.rowIndex)
    decreases g.rows - from
  {
    hide IsBlank, RowAt;
    if from < g.rows {
      RowsAreTheRows(c, g, from + 1, row);
      IndexOfRow(c, g, from);
    }
  }

  lemma IndexOfRow(c: Config, g: Grid, row: nat)
    ensures RowAt(c, g, row).rowIndex == row
  {
  }

  /** A title keeps its characters but for white space. */
  lemma {:induction false} NormalizeIs(a: string, ch: char)
    ensures NormalizeHeader(a + [ch]) == NormalizeHeader(a) + if IsSpace(ch) then "" else [ch]
  {
    hide IsSpace, NormalizeHeader;
    NormalizeFirst(ch, "");
    if a == "" {
      assert a + [ch] == [ch] + "";
    } else {
      NormalizeIs(a[1..], ch);
      NormalizeFirst(a[0], a[1..]);
      NormalizeFirst(a[0], a[1..] + [ch]);
      assert a == [a[0]] + a[1..] && a + [ch] == [a[0]] + (a[1..] + [ch]);
    }
  }

  lemma NormalizeFirst(ch: char, rest: string)
    ensures NormalizeHeader([ch] + rest) == (if IsSpace(ch) then "" else [ch]) + NormalizeHeader(rest)
    ensures NormalizeHeader("") == ""
  {
    hide IsSpace;
    assert ([ch] + rest)[1..] == rest;
  }

  /** The last column with the title. */
  lemma {:induction false} LastIndexIs(before: seq<string>, name: string, after: seq<string>)
    requires name !in after
    ensures LastIndex(before + [name] + after, name) == Some(|before|)
  {
    var titles := before + [name] + after;
    if after == [] {
      assert titles == before + [name];
    } else {
      var fewer, last := after[..|after| - 1], after[|after| - 1];
      assert titles[..|titles| - 1] == before + [name] + fewer && titles[|titles| - 1] == last;
      LastIndexIs(before, name, fewer);
    }
  }

  lemma {:induction false} HasIndexIff(titles: seq<string>, name: string)
    ensures LastIndex(titles, name).Some? <==> name in titles
  {
    if titles != [] {
      var init, last := titles[..|titles| - 1], titles[|titles| - 1];
      assert titles == init + [last];
      HasIndexIff(init, name);
    }
  }

  /** Only the first text block is replaced. */
  lemma {:induction false} PatchedIs(before: Cell, block: Block, after: Cell, value: string)
    requires forall b :: b in before ==> !b.isText
    ensures block.isText ==> Patched(before + [block] + after, value) == before + [Block(true, value)] + after
  {
    if before == [] {
      assert before + [block] + after == [block] + after;
      PatchFirst(block, after, value);
    } else {
      assert before + [block] + after == [before[0]] + (before[1..] + [block] + after);
      PatchFirst(before[0], before[1..] + [block] + after, value);
      PatchedIs(before[1..], block, after, value);
      assert before + [Block(true, value)] + after == [before[0]] + (before[1..] + [Block(true, value)] + after);
    }
  }

  lemma PatchFirst(block: Block, rest: Cell, value: string)
    ensures Patched([block] + rest, value) ==
      if block.isText then [Block(true, value)] + rest else [block] + Patched(rest, value)
  {
    assert ([block] + rest)[1..] == rest;
  }

  /** A table is read if it has the four titles, and then each row below them that is not blank. */
  lemma ParseTableIs(c: Config, g: Grid, row: Row)
    ensures row in ParseTable(c, g) <==>
      && "模型" in Titles(c, g) && "模型id" in Titles(c, g) && "地址" in Titles(c, g)
      && "已经测试完的任务" in Titles(c, g)
      && 0 < row.rowIndex < g.rows && row == RowAt(c, g, row.rowIndex)
      && exists title :: title in Titles(c, g) && Field(c, g, row.rowIndex, title) != ""
  {
    hide RowAt, Titles, Field, LastIndex;
    RowsAreTheRows(c, g, 1, row);
    var names := [COL_MODEL, COL_MODEL_ID, COL_ADDRESS, COL_TESTED];
    assert names[0] == "模型" && names[1] == "模型id" && names[2] == "地址" && names[3] == "已经测试完的任务";
    assert forall name :: name in names <==> name in {"模型", "模型id", "地址", "已经测试完的任务"};
    forall name ensures LastIndex(Titles(c, g), name).Some? <==> name in Titles(c, g) {
      HasIndexIff(Titles(c, g), name);
    }
  }

  /** The reuse flag is that of the first of its three titles the table has. */
  lemma ReuseIs(c: Config, g: Grid, row: nat)
    ensures var titles, now := Titles(c, g), RowAt(c, g, row);
      && (now.reuseColumnPresent <==> "复用" in titles || "是否复用" in titles || "可复用" in titles)
      && now.reuse ==
           if "复用" in titles then Field(c, g, row, "复用")
           else if "是否复用" in titles then Field(c, g, row, "是否复用")
           else if "可复用" in titles then Field(c, g, row, "可复用") else ""
  {
    hide Titles, Field, LastIndex, FirstField;
    NextField(c, g, row, "复用", ["是否复用", "可复用"]);
    NextField(c, g, row, "是否复用", ["可复用"]);
    NextField(c, g, row, "可复用", []);
    assert REUSE_TITLES == ["复用"] + ["是否复用", "可复用"];
    assert ["是否复用", "可复用"] == ["是否复用"] + ["可复用"] && ["可复用"] == ["可复用"] + [];
    assert forall name :: name in REUSE_TITLES <==> name in {"复用", "是否复用", "可复用"};
  }

  lemma NextField(c: Config, g: Grid, row: nat, name: string, more: seq<string>)
    ensures FirstField(c, g, row, [name] + more) ==
      if name in Titles(c, g) then Field(c, g, row, name) else FirstField(c, g, row, more)
    ensures FirstField(c, g, row, []) == ""
  {
    hide Titles, Field, LastIndex;
    HasIndexIff(Titles(c, g), name);
    assert ([name] + more)[1..] == more;
  }

  /** Row-major addressing keeps rows apart. */
  lemma RowsApart(columns: nat, row: int, other: int, column: int)
    requires row != other && 0 <= column < columns
    ensures !(0 <= other * columns + column - row * columns < columns)
  {
    var apart := other - row;
    assert other * columns - row * columns == apart * columns;
    if apart > 0 {
      AtLeastOnce(apart, columns);
    } else {
      AtLeastOnce(-apart, columns);
      assert apart * columns == -(-apart * columns);
    }
  }

  lemma AtLeastOnce(times: int, columns: int)
    requires times >= 1 && columns >= 0
    ensures times * columns >= columns
  {
    assert times * columns == (times - 1) * columns + columns;
  }

  lemma OtherCells(g: Grid, row: int, values: Values, other: int, column: int)
    requires row != other && 0 <= column < g.columns
    ensures CellAt(AfterWrite(g, row, values), other * g.columns + column) == CellAt(g, other * g.columns + column)
  {
    hide WriteTitles, Given, Patched, LastIndex;
    RowsApart(g.columns, row, other, column);
    TitleCount(g);
  }

  lemma ReadTitleCount(c: Config, g: Grid)
    ensures |Titles(c, g)| == g.columns
  {
  }

  lemma TitlesStay(c: Config, g: Grid, row: int, values: Values)
    requires row != 0
    ensures Titles(c, AfterWrite(g, row, values)) == Titles(c, g)
    ensures WriteTitles(AfterWrite(g, row, values)) == WriteTitles(g)
  {
    hide CellText, ReadText, NormalizeHeader, AfterWrite, CellAt;
    var after := AfterWrite(g, row, values);
    SameShape(g, row, values);
    forall column | 0 <= column < g.columns ensures CellAt(after, column) == CellAt(g, column) {
      OtherCells(g, row, values, 0, column);
    }
  }

  lemma SameShape(g: Grid, row: int, values: Values)
    ensures AfterWrite(g, row, values).columns == g.columns && AfterWrite(g, row, values).rows == g.rows
    ensures |AfterWrite(g, row, values).cells| == |g.cells|
  {
  }

  lemma OtherFields(c: Config, g: Grid, row: int, values: Values, other: int, name: string)
    requires 0 != row && row != other
    ensures Field(c, AfterWrite(g, row, values), other, name) == Field(c, g, other, name)
  {
    hide Titles, ReadText, AfterWrite, CellAt, LastIndex;
    TitlesStay(c, g, row, values);
    SameShape(g, row, values);
    ReadTitleCount(c, g);
    if LastIndex(Titles(c, g), name).Some? {
      OtherCells(g, row, values, other, LastIndex(Titles(c, g), name).value);
    }
  }

  lemma {:induction false} OtherFirstFields(c: Config, g: Grid, row: int, values: Values, other: int,
                                            names: seq<string>)
    requires 0 != row && row != other
    ensures FirstField(c, AfterWrite(g, row, values), other, names) == FirstField(c, g, other, names)
  {
    hide Titles, Field, AfterWrite, LastIndex;
    TitlesStay(c, g, row, values);
    if names != [] {
      OtherFields(c, g, row, values, other, names[0]);
      OtherFirstFields(c, g, row, values, other, names[1..]);
    }
  }

  /** Writing one row leaves every other row exactly as it read before. */
  lemma OtherRowsReadTheSame(c: Config, g: Grid, row: int, values: Values, other: nat)
    requires 0 != row && row != other
    ensures RowAt(c, AfterWrite(g, row, values), other) == RowAt(c, g, other)
    ensures IsBlank(c, AfterWrite(g, row, values), other) == IsBlank(c, g, other)
  {
    hide Titles, Field, FirstField, AfterWrite;
    TitlesStay(c, g, row, values);
    forall name ensures Field(c, AfterWrite(g, row, values), other, name) == Field(c, g, other, name) {
      OtherFields(c, g, row, values, other, name);
    }
    OtherFirstFields(c, g, row, values, other, REUSE_TITLES);
  }

  /** Titles spelled without white space are the same for the writer and the reader. */
  ghost predicate PlainTitles(c: Config, g: Grid) { Titles(c, g) == WriteTitles(g) }

  ghost predicate OneText(cell: Cell) { |cell| == 1 && cell[0].isText }

  lemma WrittenField(c: Config, g: Grid, row: nat, values: Values, name: string)
    requires IsTable(g) && 0 < row < g.rows && PlainTitles(c, g) && LastIndex(Titles(c, g), name).Some?
    requires OneText(CellAt(g, row * g.columns + LastIndex(Titles(c, g), name).value))
    requires Given(values, name).Some?
    ensures Field(c, AfterWrite(g, row, values), row, name) == c.reader.clean(Strip(Given(values, name).value))
  {
    hide Titles, WriteTitles, Given, Strip;
    TitlesStay(c, g, row, values);
    ReadTitleCount(c, g);
    var column := LastIndex(Titles(c, g), name).value;
    InRow(g, row, column);
    PatchedText(c, CellAt(g, row * g.columns + column), Given(values, name).value);
  }

  lemma PatchedText(c: Config, cell: Cell, value: string)
    requires OneText(cell)
    ensures ReadText(c, Patched(cell, value)) == c.reader.clean(Strip(value))
  {
    assert Patched(cell, value) == [Block(true, value)];
    assert Joined([Block(true, value)][1..]) == "";
    assert Joined(Patched(cell, value)) == value;
  }

  // ---------------------------------------------------------------- the deploying marker

  ghost predicate EndsInk(marker: string) { marker != "" && !IsSpace(marker[|marker| - 1]) }

  /** A marker appended to a text is taken off again, unless the text is blank and the marker has leading
      space, which is stripped with the text. */
  lemma StripMarked(text: string, marker: string)
    requires EndsInk(marker)
    ensures StripMarker(Strip(text + marker), marker) == Strip(text) <==> Strip(text) != "" || !IsSpace(marker[0])
    ensures Strip(text + marker) != ""
  {
    hide Strip, TrimLeft;
    var kept := TrimLeft(text, IsSpace);
    BlankLeft(text);
    StripSuffix(text, marker);
    StripTwice(text + marker);
    if kept != "" {
      assert (kept + marker)[|kept|..] == marker && (kept + marker)[..|kept|] == kept;
      StripOfLeft(text);
    } else {
      LeftOfMarker(marker);
      assert marker[..0] == "" && marker[0..] == marker;
      EmptyStrip();
    }
  }

  lemma EmptyStrip()
    ensures Strip("") == ""
  {
  }

  lemma LeftOfMarker(marker: string)
    requires EndsInk(marker)
    ensures var rest := TrimLeft(marker, IsSpace);
      rest != "" && if IsSpace(marker[0]) then |rest| < |marker| else rest == marker
  {
    TrimLeftKeepsTail(marker, IsSpace);
    InkStays(marker);
    if IsSpace(marker[0]) {
      TrimLeftKeepsTail(marker[1..], IsSpace);
    }
  }

  lemma {:induction false} InkStays(marker: string)
    requires EndsInk(marker)
    ensures TrimLeft(marker, IsSpace) != ""
  {
    if IsSpace(marker[0]) {
      InkStays(marker[1..]);
    }
  }

  lemma StripOfLeft(text: string)
    ensures Strip(TrimLeft(text, IsSpace)) == Strip(text)
  {
    TrimLeftKeepsTail(text, IsSpace);
  }

  /** Only leading space is lost from a text that ends in the marker. */
  lemma StripSuffix(text: string, marker: string)
    requires EndsInk(marker)
    ensures Strip(text + marker) ==
      if TrimLeft(text, IsSpace) == "" then TrimLeft(marker, IsSpace) else TrimLeft(text, IsSpace) + marker
  {
    hide TrimLeft, TrimRight, EndsInk, IsSpace;
    TrimLeftSuffix(text, marker);
    LeftEndsInk(marker);
    SuffixEndsInk(TrimLeft(text, IsSpace), marker);
    InkAtEnd(TrimLeft(text + marker, IsSpace));
  }

  lemma LeftEndsInk(marker: string)
    requires EndsInk(marker)
    ensures EndsInk(TrimLeft(marker, IsSpace))
  {
    hide TrimLeft, IsSpace;
    TrimLeftKeepsTail(marker, IsSpace);
    InkStays(marker);
  }

  lemma SuffixEndsInk(text: string, marker: string)
    requires EndsInk(marker)
    ensures EndsInk(text + marker)
  {
    hide IsSpace;
  }

  lemma InkAtEnd(s: string)
    requires EndsInk(s)
    ensures TrimRight(s, IsSpace) == s
  {
  }

  lemma StripTwice(s: string)
    ensures Strip(Strip(s)) == Strip(s)
  {
    TrimIdempotent(s, IsSpace);
  }

  lemma BlankLeft(s: string)
    ensures TrimLeft(s, IsSpace) == "" <==> Strip(s) == ""
  {
    TrimLeftKeepsTail(s, IsSpace);
    TrimRightKeepsHead(TrimLeft(s, IsSpace), IsSpace);
    var t := TrimLeft(s, IsSpace);
    if t != "" {
      AllSpaceRight(t);
    }
  }

  lemma {:induction false} AllSpaceRight(t: string)
    requires t != "" && !IsSpace(t[0])
    ensures TrimRight(t, IsSpace) != "" && TrimRight(t, IsSpace)[0] == t[0]
  {
    if IsSpace(t[|t| - 1]) {
      AllSpaceRight(t[..|t| - 1]);
    }
  }

  lemma {:induction false} TrimLeftSuffix(text: string, marker: string)
    ensures TrimLeft(text + marker, IsSpace) ==
      if TrimLeft(text, IsSpace) == "" then TrimLeft(marker, IsSpace) else TrimLeft(text, IsSpace) + marker
  {
    if text == "" {
      assert text + marker == marker;
    } else {
      assert (text + marker)[1..] == text[1..] + marker;
      TrimLeftSuffix(text[1..], marker);
    }
  }

  // ---------------------------------------------------------------- marking a row

  /** The values written before a worker is stopped. */
  ghost predicate SaysDeploying(c: Config, values: Values, path: PathInfo) {
    && Given(values, COL_MODEL) == Some(path.tablePath + c.deployingMarker)
    && Given(values, COL_MODEL_ID) == Some(path.modelId + c.deployingMarker)
    && Given(values, COL_TESTED) == Some("")
  }

  /** The three cells a mark goes to hold one text block each. */
  ghost predicate Markable(c: Config, g: Grid, row: nat) {
    && IsTable(g) && 0 < row < g.rows && Readable(c, g) && PlainTitles(c, g)
    && forall name | name in {COL_MODEL, COL_MODEL_ID, COL_TESTED} ::
         LastIndex(Titles(c, g), name).Some? ==>
           OneText(CellAt(g, row * g.columns + LastIndex(Titles(c, g), name).value))
  }

  /** The marker can be taken off again. */
  ghost predicate MarkerReads(text: string, marker: string) {
    EndsInk(marker) && (Strip(text) != "" || !IsSpace(marker[0]))
  }

  /** Cleaning leaves the text alone. */
  ghost predicate Survives(c: Config, text: string) { c.reader.clean(Strip(text)) == Strip(text) }

  /** The reader sees the marked cells as they were written. */
  ghost predicate MarkSurvives(c: Config, path: PathInfo) {
    && Survives(c, path.tablePath + c.deployingMarker) && Survives(c, path.modelId + c.deployingMarker)
    && Survives(c, "")
  }

  lemma MarkedField(c: Config, g: Grid, row: nat, values: Values, name: string, text: string)
    requires Markable(c, g, row) && name in {COL_MODEL, COL_MODEL_ID, COL_TESTED}
    requires Given(values, name) == Some(text) && Survives(c, text)
    ensures Field(c, AfterWrite(g, row, values), row, name) == Strip(text)
    ensures name in Titles(c, AfterWrite(g, row, values))
  {
    hide Titles, WriteTitles, AfterWrite, Field, Strip, Given, OneText, LastIndex;
    MarkableAt(c, g, row, name);
    WrittenField(c, g, row, values, name);
    TitlesStay(c, g, row, values);
  }

  lemma MarkableAt(c: Config, g: Grid, row: nat, name: string)
    requires Markable(c, g, row) && name in {COL_MODEL, COL_MODEL_ID, COL_TESTED}
    ensures IsTable(g) && 0 < row < g.rows && PlainTitles(c, g)
    ensures LastIndex(Titles(c, g), name).Some? && name in Titles(c, g)
    ensures OneText(CellAt(g, row * g.columns + LastIndex(Titles(c, g), name).value))
  {
    hide Titles, WriteTitles, OneText, LastIndex, CellAt;
    var names := [COL_MODEL, COL_MODEL_ID, COL_ADDRESS, COL_TESTED];
    assert names[0] == COL_MODEL && names[1] == COL_MODEL_ID && names[3] == COL_TESTED;
    assert name in names;
  }

  lemma MarkedTexts(c: Config, g: Grid, row: nat, values: Values, path: PathInfo)
    requires Markable(c, g, row) && SaysDeploying(c, values, path) && MarkSurvives(c, path)
    ensures var after := AfterWrite(g, row, values);
      && Field(c, after, row, COL_MODEL) == Strip(path.tablePath + c.deployingMarker)
      && Field(c, after, row, COL_MODEL_ID) == Strip(path.modelId + c.deployingMarker)
      && Field(c, after, row, COL_TESTED) == ""
      && COL_MODEL in Titles(c, after)
  {
    hide Titles, AfterWrite, Field, Strip, Given, Markable, Survives;
    MarkedField(c, g, row, values, COL_MODEL, path.tablePath + c.deployingMarker);
    MarkedField(c, g, row, values, COL_MODEL_ID, path.modelId + c.deployingMarker);
    MarkedField(c, g, row, values, COL_TESTED, "");
    EmptyStrip();
  }

  /** A row with marked texts and no tested tasks is safe exactly for plans of its model. */
  lemma MarkedIsSafeIff(c: Config, row: Row, path: PathInfo, other: PathInfo)
    requires row.model == Strip(path.tablePath + c.deployingMarker)
    requires row.modelId == Strip(path.modelId + c.deployingMarker) && row.testedTasks == ""
    requires MarkerReads(path.tablePath, c.deployingMarker) && MarkerReads(path.modelId, c.deployingMarker)
    ensures row.model != ""
    ensures SafeForPlan(c, row, other) <==>
      Strip(other.tablePath) == Strip(path.tablePath) && Strip(other.modelId) == Strip(path.modelId)
  {
    hide Strip, StripMarker, ReuseFlagAllows;
    StripMarked(path.tablePath, c.deployingMarker);
    StripMarked(path.modelId, c.deployingMarker);
    StripTwice(path.tablePath + c.deployingMarker);
    EmptyStrip();
  }

  /** A marked row is read again, and is safe exactly for plans of the same table path and model id. */
  lemma MarkedRowIsSafeOnlyForItsModel(c: Config, g: Grid, row: nat, values: Values, path: PathInfo, other: PathInfo)
    requires Markable(c, g, row) && SaysDeploying(c, values, path)
    requires MarkerReads(path.tablePath, c.deployingMarker) && MarkerReads(path.modelId, c.deployingMarker)
    requires MarkSurvives(c, path)
    ensures !IsBlank(c, AfterWrite(g, row, values), row)
    ensures SafeForPlan(c, RowAt(c, AfterWrite(g, row, values), row), other) <==>
      Strip(other.tablePath) == Strip(path.tablePath) && Strip(other.modelId) == Strip(path.modelId)
  {
    hide Titles, AfterWrite, Field, FirstField, Strip, SafeForPlan, Markable, SaysDeploying, MarkerReads, MarkSurvives;
    MarkedTexts(c, g, row, values, path);
    MarkedIsSafeIff(c, RowAt(c, AfterWrite(g, row, values), row), path, other);
  }
}
