/**
 * The worksheet utilities of `scripts/utils/common_utils.py`: reading a sheet
 * into a table (cell comments fused into the cell text, then fully empty rows
 * and columns dropped), grouping the rows of a merged first column, finding
 * the next row whose key is set, and stitching the groups back together.
 *
 * A table is a sequence of rows of cells; a cell is `None` where pandas holds
 * NaN and `Some(text)` otherwise.
 */
module Sheet {
  import opened Wrappers

  type Cell = Option<string>
  type Table = seq<seq<Cell>>

  /** Every row of a DataFrame has the same number of columns. */
  predicate Rectangular(t: Table) {
    forall i :: 0 <= i < |t| ==> |t[i]| == |t[0]|
  }

  function Width(t: Table): nat {
    if |t| == 0 then 0 else |t[0]|
  }

  /** The shape convert_sheet_to_df returns: rectangular, no empty row, no empty column. */
  predicate Normalised(t: Table) {
    Rectangular(t)
    && (forall i :: 0 <= i < |t| ==> !EmptyRow(t[i]))
    && (forall j :: 0 <= j < Width(t) ==> !EmptyColumn(t, j))
  }

  /** Python truthiness of a cell text: NaN/None and "" are false. */
  predicate Truthy(c: Cell) {
    c.Some? && c.value != ""
  }

  // ------------------------------------------------------- extract_notes

  /** One cell of the worksheet as openpyxl reports it (1-based row and column). */
  datatype SourceCell = SourceCell(row: nat, column: nat, value: Cell, comment: Cell)

  /** The text extract_notes stores for a cell: its value with its comment fused in. */
  function FuseCell(value: Cell, comment: Cell): (r: Cell)
    ensures r.None? <==> !Truthy(value) && !Truthy(comment)
  {
    if Truthy(value) && Truthy(comment) then Some(value.value + " <<<" + comment.value + ">>>")
    else if Truthy(value) then value
    else if Truthy(comment) then Some("<<<" + comment.value + ">>>")
    else None
  }

  /**
   * The fused text is never empty; it starts with the value when there is
   * one and ends with the comment as `<<<comment>>>` when there is one.
   */
  lemma FuseCellText(value: Cell, comment: Cell)
    ensures var r := FuseCell(value, comment);
      && (r.Some? ==> r.value != "")
      && (Truthy(value) ==> value.value <= r.value)
      && (Truthy(comment) ==> var tag := "<<<" + comment.value + ">>>";
            |tag| <= |r.value| && r.value[|r.value| - |tag|..] == tag)
      && (Truthy(comment) && Truthy(value) ==> |r.value| == |value.value| + 4 + |comment.value| + 3)
      && (!Truthy(value) && Truthy(comment) ==> |r.value| == 3 + |comment.value| + 3)
  {
  }

  /** What the grid holds at (i, j) once `cells` have been written over `initial`. */
  function Written(cells: seq<SourceCell>, i: nat, j: nat, initial: Cell): Cell {
    if |cells| == 0 then initial
    else
      var c := cells[|cells| - 1];
      var fused := FuseCell(c.value, c.comment);
      if c.row == i + 1 && c.column == j + 1 && fused.Some? then fused
      else Written(cells[..|cells| - 1], i, j, initial)
  }

  predicate InGrid(cells: seq<SourceCell>, rows: nat, columns: nat) {
    forall k :: 0 <= k < |cells| ==> 1 <= cells[k].row <= rows && 1 <= cells[k].column <= columns
  }

  /** No two reported cells share a position (openpyxl yields each cell once). */
  predicate DistinctPositions(cells: seq<SourceCell>) {
    forall k, l :: 0 <= k < l < |cells| ==> !SamePosition(cells[k], cells[l])
  }

  predicate SamePosition(a: SourceCell, b: SourceCell) {
    a.row == b.row && a.column == b.column
  }

  /**
   * extract_notes: walks the cells and writes the fused text of every cell
   * that has a value or a comment into the grid at (row - 1, column - 1).
   */
  method ExtractNotes(cells: seq<SourceCell>, grid: array2<Cell>)
    requires InGrid(cells, grid.Length0, grid.Length1)
    modifies grid
    ensures forall i, j :: 0 <= i < grid.Length0 && 0 <= j < grid.Length1 ==>
      grid[i, j] == Written(cells, i, j, old(grid[i, j]))
  {
    var k := 0;
    while k < |cells|
      invariant 0 <= k <= |cells|
      invariant forall i, j :: 0 <= i < grid.Length0 && 0 <= j < grid.Length1 ==>
        grid[i, j] == Written(cells[..k], i, j, old(grid[i, j]))
    {
      var c := cells[k];
      var merged := FuseCell(c.value, c.comment);
      if merged.Some? {
        grid[c.row - 1, c.column - 1] := merged;
      }
      assert cells[..k + 1][..k] == cells[..k];
      k := k + 1;
    }
    assert cells[..k] == cells;
  }

  /** With distinct positions, a cell's fused text lands at its own position. */
  lemma {:induction false} WrittenAtOwnPosition(cells: seq<SourceCell>, k: nat, initial: Cell)
    requires k < |cells| && DistinctPositions(cells)
    requires cells[k].row >= 1 && cells[k].column >= 1
    ensures var c := cells[k]; var fused := FuseCell(c.value, c.comment);
      Written(cells, c.row - 1, c.column - 1, initial) == if fused.Some? then fused else initial
    decreases |cells|
  {
    var n := |cells| - 1;
    if k < n {
      WrittenEarlier(cells, k, initial);
      WrittenAtOwnPosition(cells[..n], k, initial);
    } else {
      WrittenLast(cells, initial);
    }
  }

  /** An earlier cell's position is not the last cell's, so the last write does not touch it. */
  lemma WrittenEarlier(cells: seq<SourceCell>, k: nat, initial: Cell)
    requires k < |cells| - 1 && DistinctPositions(cells)
    requires cells[k].row >= 1 && cells[k].column >= 1
    ensures var c := cells[k]; var init := cells[..|cells| - 1];
      && Written(cells, c.row - 1, c.column - 1, initial) == Written(init, c.row - 1, c.column - 1, initial)
      && DistinctPositions(init) && init[k] == c
  {
    var n := |cells| - 1;
    assert !SamePosition(cells[k], cells[n]);
    DistinctPrefix(cells, n);
  }

  /** The last cell lands at its own position, or leaves it alone when it has nothing to write. */
  lemma WrittenLast(cells: seq<SourceCell>, initial: Cell)
    requires |cells| > 0 && DistinctPositions(cells)
    requires cells[|cells| - 1].row >= 1 && cells[|cells| - 1].column >= 1
    ensures var c := cells[|cells| - 1]; var fused := FuseCell(c.value, c.comment);
      Written(cells, c.row - 1, c.column - 1, initial) == if fused.Some? then fused else initial
  {
    var n := |cells| - 1;
    var c := cells[n];
    var init := cells[..n];
    if FuseCell(c.value, c.comment).None? {
      forall l | 0 <= l < |init|
        ensures init[l].row != c.row || init[l].column != c.column
      {
        assert init[l] == cells[l] && !SamePosition(cells[l], cells[n]);
      }
      WrittenNowhere(init, c.row, c.column, initial);
    }
  }

  /** A prefix of cells at distinct positions has distinct positions. */
  lemma DistinctPrefix(cells: seq<SourceCell>, n: nat)
    requires n <= |cells| && DistinctPositions(cells)
    ensures DistinctPositions(cells[..n])
  {
    forall k, l | 0 <= k < l < n
      ensures !SamePosition(cells[..n][k], cells[..n][l])
    {
      assert cells[..n][k] == cells[k] && cells[..n][l] == cells[l];
    }
  }

  /** Cells at other positions leave (row - 1, column - 1) at its initial text. */
  lemma {:induction false} WrittenNowhere(cells: seq<SourceCell>, row: nat, column: nat, initial: Cell)
    requires row >= 1 && column >= 1
    requires forall l :: 0 <= l < |cells| ==> cells[l].row != row || cells[l].column != column
    ensures Written(cells, row - 1, column - 1, initial) == initial
    decreases |cells|
  {
    if |cells| > 0 {
      var init := cells[..|cells| - 1];
      assert forall l :: 0 <= l < |init| ==> init[l] == cells[l];
      WrittenNowhere(init, row, column, initial);
    }
  }

  // ------------------------------------------------- dropna(how="all")

  predicate EmptyRow(r: seq<Cell>) {
    forall j :: 0 <= j < |r| ==> r[j].None?
  }

  predicate EmptyColumn(t: Table, j: nat) {
    forall i :: 0 <= i < |t| ==> j < |t[i]| ==> t[i][j].None?
  }

  predicate Increasing(xs: seq<nat>) {
    forall a, b :: 0 <= a < b < |xs| ==> xs[a] < xs[b]
  }

  /** Indices, in order, of the non-empty rows among the first n. */
  function KeptRows(t: Table, n: nat): (r: seq<nat>)
    requires n <= |t|
    ensures Increasing(r)
    ensures forall a :: 0 <= a < |r| ==> r[a] < n
    ensures forall i :: 0 <= i < n ==> (i in r <==> !EmptyRow(t[i]))
  {
    if n == 0 then [] else KeptRows(t, n - 1) + (if EmptyRow(t[n - 1]) then [] else [n - 1])
  }

  /** Indices, in order, of the non-empty columns among the first n. */
  function KeptColumns(t: Table, n: nat): (r: seq<nat>)
    ensures Increasing(r)
    ensures forall b :: 0 <= b < |r| ==> r[b] < n
    ensures forall j :: 0 <= j < n ==> (j in r <==> !EmptyColumn(t, j))
  {
    if n == 0 then [] else KeptColumns(t, n - 1) + (if EmptyColumn(t, n - 1) then [] else [n - 1])
  }

  /** The table restricted to the given rows and columns, in their order. */
  function Project(t: Table, rows: seq<nat>, columns: seq<nat>): Table
    requires forall a :: 0 <= a < |rows| ==> rows[a] < |t|
    requires forall a, b :: 0 <= a < |rows| && 0 <= b < |columns| ==> columns[b] < |t[rows[a]]|
  {
    seq(|rows|, a requires 0 <= a < |rows| => seq(|columns|, b requires 0 <= b < |columns| => t[rows[a]][columns[b]]))
  }

  /** `df.dropna(how="all")` followed by `df.dropna(axis=1, how="all")`. */
  function DropEmpty(t: Table): Table
    requires Rectangular(t)
  {
    Project(t, KeptRows(t, |t|), KeptColumns(t, Width(t)))
  }

  predicate EmptyInRows(t: Table, rows: seq<nat>, j: nat)
    requires forall a :: 0 <= a < |rows| ==> rows[a] < |t| && j < |t[rows[a]]|
  {
    forall a :: 0 <= a < |rows| ==> t[rows[a]][j].None?
  }

  /** Dropping empty rows does not change which columns are empty. */
  lemma ColumnEmptyAfterRowDrop(t: Table, j: nat)
    requires Rectangular(t) && j < Width(t)
    ensures EmptyColumn(t, j) <==> EmptyInRows(t, KeptRows(t, |t|), j)
  {
    var rows := KeptRows(t, |t|);
    if !EmptyColumn(t, j) {
      var i :| 0 <= i < |t| && j < |t[i]| && t[i][j].Some?;
      assert !EmptyRow(t[i]);
      assert i in rows;
      var a :| 0 <= a < |rows| && rows[a] == i;
      assert t[rows[a]][j].Some?;
    } else {
      forall a | 0 <= a < |rows|
        ensures t[rows[a]][j].None?
      {
        assert |t[rows[a]]| == Width(t);
      }
    }
  }

  /**
   * The result of DropEmpty has no empty row and no empty column, and it keeps
   * exactly the non-empty rows and columns of the input, in order.
   */
  lemma DropEmptyNormalises(t: Table)
    requires Rectangular(t)
    ensures Normalised(DropEmpty(t))
  {
    var d := DropEmpty(t);
    forall a | 0 <= a < |d|
      ensures !EmptyRow(d[a])
    {
      KeptRowIsNotEmpty(t, a);
    }
    forall b | 0 <= b < Width(d)
      ensures !EmptyColumn(d, b)
    {
      KeptColumnIsNotEmpty(t, b);
    }
  }

  lemma KeptRowIsNotEmpty(t: Table, a: nat)
    requires Rectangular(t) && a < |DropEmpty(t)|
    ensures !EmptyRow(DropEmpty(t)[a])
  {
    var rows := KeptRows(t, |t|);
    var i := rows[a];
    assert !EmptyRow(t[i]);
    var j :| 0 <= j < |t[i]| && t[i][j].Some?;
    var b := DropEmptyKeepsNonEmpty(t, i, j);
    assert DropEmpty(t)[a][b].Some?;
  }

  lemma KeptColumnIsNotEmpty(t: Table, b: nat)
    requires Rectangular(t) && |DropEmpty(t)| > 0 && b < |DropEmpty(t)[0]|
    ensures !EmptyColumn(DropEmpty(t), b)
  {
    var rows := KeptRows(t, |t|);
    var cols := KeptColumns(t, Width(t));
    var j := cols[b];
    ColumnEmptyAfterRowDrop(t, j);
    var a :| 0 <= a < |rows| && t[rows[a]][j].Some?;
    assert DropEmpty(t)[a][b] == t[rows[a]][j];
  }

  /** A set cell of the input survives DropEmpty, in its own row and column. */
  lemma DropEmptyKeepsNonEmpty(t: Table, i: nat, j: nat) returns (b: nat)
    requires Rectangular(t) && i < |t| && j < Width(t) && t[i][j].Some?
    ensures var rows := KeptRows(t, |t|); var cols := KeptColumns(t, Width(t));
      i in rows && b < |cols| && cols[b] == j
      && forall a :: 0 <= a < |rows| && rows[a] == i ==> DropEmpty(t)[a][b] == t[i][j]
  {
    var rows := KeptRows(t, |t|);
    var cols := KeptColumns(t, Width(t));
    assert !EmptyRow(t[i]);
    assert !EmptyColumn(t, j);
    b :| 0 <= b < |cols| && cols[b] == j;
  }

  /** The grid extract_notes produces over an all-NaN sheet of the given size. */
  function NotesGrid(cells: seq<SourceCell>, rows: nat, columns: nat): (t: Table)
    ensures |t| == rows && Rectangular(t) && (rows > 0 ==> Width(t) == columns)
  {
    seq(rows, i requires 0 <= i < rows =>
      seq(columns, j requires 0 <= j < columns => Written(cells, i, j, None)))
  }

  /**
   * convert_sheet_to_df: an all-NaN grid of the sheet's size, the cell texts
   * and comments written in, then the fully empty rows and columns dropped.
   */
  method ConvertSheetToTable(cells: seq<SourceCell>, rows: nat, columns: nat) returns (df: Table)
    requires InGrid(cells, rows, columns)
    ensures df == DropEmpty(NotesGrid(cells, rows, columns))
    ensures Normalised(df)
  {
    var grid := new Cell[rows, columns]((i, j) => None);
    ExtractNotes(cells, grid);
    var t := seq(rows, i requires 0 <= i < rows reads grid =>
      seq(columns, j requires 0 <= j < columns reads grid => grid[i, j]));
    forall i | 0 <= i < rows
      ensures t[i] == NotesGrid(cells, rows, columns)[i]
    {
    }
    assert t == NotesGrid(cells, rows, columns);
    df := DropEmpty(t);
    DropEmptyNormalises(t);
  }

  // -------------------------------------------- find_next_non_none_row

  predicate HasColumn(t: Table, column: nat) {
    forall i :: 0 <= i < |t| ==> column < |t[i]|
  }

  /** The position of the first row after `start` whose cell in `column` is set, if any. */
  function NextSetPosition(t: Table, start: nat, column: nat): (r: Option<nat>)
    requires HasColumn(t, column)
    ensures r.Some? ==> start < r.value < |t| && t[r.value][column].Some?
    ensures r.Some? ==> forall k :: start < k < r.value ==> t[k][column].None?
    ensures r.None? ==> forall k :: start < k < |t| ==> t[k][column].None?
    decreases |t| - start
  {
    if start + 1 >= |t| then None
    else if t[start + 1][column].Some? then Some(start + 1)
    else NextSetPosition(t, start + 1, column)
  }

  /**
   * find_next_non_none_row: `start` and `column` are positions, but the
   * answer is the index label of the row found. A table read from a sheet
   * keeps the labels of the rows that survived the drop of empty rows
   * (`labels`), so after a dropped row label and position differ.
   */
  function FindNextNonNoneRow(t: Table, labels: seq<nat>, start: nat, column: nat): (r: Option<nat>)
    requires HasColumn(t, column) && |labels| == |t|
    ensures r.None? <==> forall k :: start < k < |t| ==> t[k][column].None?
    ensures r.Some? ==>
      exists p :: start < p < |t| && r.value == labels[p] && t[p][column].Some?
        && forall k :: start < k < p ==> t[k][column].None?
  {
    match NextSetPosition(t, start, column)
    case None => None
    case Some(p) => Some(labels[p])
  }

  /** A one-column sheet of three rows whose first cell is empty and the other two set. */
  predicate EmptyFirstOfThree(t: Table) {
    Rectangular(t) && |t| == 3 && |t[0]| == 1
    && t[0][0].None? && t[1][0].Some? && t[2][0].Some?
  }

  /** Dropping the empty first row of such a sheet keeps rows 1 and 2, under those labels. */
  lemma EmptyFirstRowDropped(t: Table)
    requires EmptyFirstOfThree(t)
    ensures KeptRows(t, |t|) == [1, 2]
  {
    calc {
      KeptRows(t, 3);
    == { assert !EmptyRow(t[2]); }
      KeptRows(t, 2) + [2];
    == { assert !EmptyRow(t[1]); }
      KeptRows(t, 1) + [1] + [2];
    == { assert EmptyRow(t[0]); }
      [1, 2];
    }
  }

  /** The dropped table of such a sheet is its rows 1 and 2, in its one column. */
  lemma EmptyFirstRowTable(t: Table)
    requires EmptyFirstOfThree(t)
    ensures var d := DropEmpty(t);
      |d| == 2 && |d[0]| == 1 && |d[1]| == 1 && d[0][0] == t[1][0] && d[1][0] == t[2][0]
  {
    EmptyFirstRowDropped(t);
    assert KeptColumns(t, Width(t)) == [0] by {
      assert !EmptyColumn(t, 0);
    }
  }

  /**
   * On a sheet whose first row is empty, the row after position 0 that has
   * a value sits at position 1 of the dropped table but is labelled 2: the
   * label is the row's number in the sheet before the drop.
   */
  lemma NextRowIsLabelled(t: Table)
    requires EmptyFirstOfThree(t)
    ensures HasColumn(DropEmpty(t), 0) && KeptRows(t, |t|) == [1, 2]
    ensures NextSetPosition(DropEmpty(t), 0, 0) == Some(1)
    ensures FindNextNonNoneRow(DropEmpty(t), KeptRows(t, |t|), 0, 0) == Some(2)
  {
    EmptyFirstRowDropped(t);
    EmptyFirstRowTable(t);
  }

  // --------------------------------------------------- group_merged_rows

  function Range(lo: nat, hi: nat): (r: seq<nat>)
    requires lo <= hi
    ensures |r| == hi - lo && forall k :: 0 <= k < |r| ==> r[k] == lo + k
  {
    seq(hi - lo, k requires 0 <= k < hi - lo => lo + k)
  }

  function Concat(groups: seq<seq<nat>>): seq<nat> {
    if |groups| == 0 then [] else Concat(groups[..|groups| - 1]) + groups[|groups| - 1]
  }

  /**
   * `groups` splits the row numbers 0..|t|-1, in order, into non-empty runs,
   * and a row opens a run exactly when it is row 0 or its key cell is set.
   */
  predicate IsGrouping(t: Table, column: nat, groups: seq<seq<nat>>)
    requires HasColumn(t, column)
  {
    Concat(groups) == Range(0, |t|)
    && (forall g :: 0 <= g < |groups| ==> |groups[g]| > 0)
    && (forall g, k :: 0 <= g < |groups| && 0 <= k < |groups[g]| ==> groups[g][k] < |t|)
    && (forall g, k :: 0 <= g < |groups| && 0 <= k < |groups[g]| ==>
          (k == 0 <==> groups[g][k] == 0 || t[groups[g][k]][column].Some?))
  }

  /**
   * The state of group_merged_rows after rows 0..i-1: the closed groups and
   * the open run `start`..i-1 cover those rows in order, every closed group
   * is non-empty and lies before the open run, and a row opens a group
   * exactly when it is row 0 or its key cell is set.
   */
  predicate Building(t: Table, column: nat, groups: seq<seq<nat>>, current: seq<nat>, start: nat, i: nat)
    requires HasColumn(t, column) && i <= |t|
  {
    && start <= i && current == Range(start, i)
    && Concat(groups) + current == Range(0, i)
    && (i > 0 ==> start < i)
    && (start < |t| ==> start == 0 || t[start][column].Some?)
    && (forall x :: start < x < i ==> t[x][column].None?)
    && (forall g :: 0 <= g < |groups| ==> |groups[g]| > 0)
    && (forall g, k :: 0 <= g < |groups| && 0 <= k < |groups[g]| ==> groups[g][k] < start)
    && (forall g, k :: 0 <= g < |groups| && 0 <= k < |groups[g]| ==>
          (k == 0 <==> groups[g][k] == 0 || t[groups[g][k]][column].Some?))
  }

  /** group_merged_rows: a new group starts at every row whose key cell is set. */
  method GroupMergedRows(t: Table, column: nat) returns (groups: seq<seq<nat>>)
    requires HasColumn(t, column)
    ensures IsGrouping(t, column, groups)
  {
    groups := [];
    var current: seq<nat> := [];
    ghost var start: nat := 0;
    for i := 0 to |t|
      invariant Building(t, column, groups, current, start, i)
    {
      BuildingStep(t, column, groups, current, start, i);
      if t[i][column].Some? && current != [] {
        groups := groups + [current];
        current := [];
        start := i;
      }
      current := current + [i];
    }
    BuildingDone(t, column, groups, current, start);
    if current != [] {
      groups := groups + [current];
    }
  }

  /** One row of group_merged_rows keeps the state described by `Building`. */
  lemma BuildingStep(t: Table, column: nat, groups: seq<seq<nat>>, current: seq<nat>, start: nat, i: nat)
    requires HasColumn(t, column) && i < |t| && Building(t, column, groups, current, start, i)
    ensures t[i][column].Some? && current != [] ==> Building(t, column, groups + [current], [i], i, i + 1)
    ensures !(t[i][column].Some? && current != []) ==> Building(t, column, groups, current + [i], start, i + 1)
  {
    assert Range(0, i) + [i] == Range(0, i + 1);
    if t[i][column].Some? && current != [] {
      AppendRun(t, column, groups, start, i);
      assert [i] == Range(i, i + 1);
      assert Concat(groups + [current]) + [i] == Range(0, i + 1);
    } else {
      assert current + [i] == Range(start, i + 1);
    }
  }

  /** After the last row, closing the open run (when there is one) gives a grouping. */
  lemma BuildingDone(t: Table, column: nat, groups: seq<seq<nat>>, current: seq<nat>, start: nat)
    requires HasColumn(t, column) && Building(t, column, groups, current, start, |t|)
    ensures IsGrouping(t, column, if current != [] then groups + [current] else groups)
  {
    if current != [] {
      AppendRun(t, column, groups, start, |t|);
      var gs := groups + [current];
      assert Concat(gs) == Range(0, |t|);
      forall g, k | 0 <= g < |gs| && 0 <= k < |gs[g]|
        ensures gs[g][k] < |t|
      {
        if g < |groups| {
          assert gs[g] == groups[g];
        }
      }
    } else {
      assert Concat(groups) + [] == Concat(groups);
    }
  }

  /** Closing the run start..hi-1 keeps the grouping invariants. */
  lemma AppendRun(t: Table, column: nat, groups: seq<seq<nat>>, start: nat, hi: nat)
    requires HasColumn(t, column) && start < hi <= |t|
    requires start == 0 || t[start][column].Some?
    requires forall x :: start < x < hi ==> t[x][column].None?
    requires forall g, k :: 0 <= g < |groups| && 0 <= k < |groups[g]| ==> groups[g][k] < start
    requires forall g, k :: 0 <= g < |groups| && 0 <= k < |groups[g]| ==>
      (k == 0 <==> groups[g][k] == 0 || t[groups[g][k]][column].Some?)
    ensures var gs := groups + [Range(start, hi)];
      Concat(gs) == Concat(groups) + Range(start, hi)
      && forall g, k :: 0 <= g < |gs| && 0 <= k < |gs[g]| ==>
        (k == 0 <==> gs[g][k] == 0 || t[gs[g][k]][column].Some?)
  {
    var gs := groups + [Range(start, hi)];
    assert gs[..|groups|] == groups;
  }

  /** The g-th group begins right after the rows of the groups before it. */
  lemma {:induction false} ConcatPosition(groups: seq<seq<nat>>, g: nat, k: nat)
    requires g < |groups| && k < |groups[g]|
    ensures |Concat(groups[..g])| + k < |Concat(groups)|
    ensures Concat(groups)[|Concat(groups[..g])| + k] == groups[g][k]
    decreases |groups|
  {
    var n := |groups| - 1;
    assert groups[..n + 1] == groups;
    if g < n {
      assert groups[..n][..g] == groups[..g];
      ConcatPosition(groups[..n], g, k);
    } else {
      assert groups[..g] == groups[..n];
    }
  }

  /** Each group is a contiguous run of row numbers, and the runs follow each other. */
  lemma GroupsAreRuns(t: Table, column: nat, groups: seq<seq<nat>>, g: nat)
    requires HasColumn(t, column) && IsGrouping(t, column, groups) && g < |groups|
    ensures var first := |Concat(groups[..g])|;
      first + |groups[g]| <= |t| && groups[g] == Range(first, first + |groups[g]|)
  {
    var first := |Concat(groups[..g])|;
    var run := groups[g];
    ConcatPosition(groups, g, |run| - 1);
    forall k | 0 <= k < |run|
      ensures run[k] == first + k
    {
      ConcatPosition(groups, g, k);
    }
  }

  /** Every group after the first opens at a row other than row 0. */
  lemma LaterGroupStartsAfterRowZero(t: Table, column: nat, groups: seq<seq<nat>>, g: nat)
    requires HasColumn(t, column) && IsGrouping(t, column, groups) && 0 < g < |groups|
    ensures groups[g][0] > 0
  {
    GroupsAreRuns(t, column, groups, g);
    GroupsAreRuns(t, column, groups, 0);
    var before := groups[..g];
    assert before[..g - 1] + [groups[g - 1]] == before;
    assert Concat(before) == Concat(before[..g - 1]) + groups[g - 1];
  }

  /** Without a set key after row 0, all rows form one group. */
  lemma SingleGroupWithoutLaterKeys(t: Table, column: nat, groups: seq<seq<nat>>)
    requires HasColumn(t, column) && IsGrouping(t, column, groups) && |t| > 0
    requires forall i :: 0 < i < |t| ==> t[i][column].None?
    ensures |groups| == 1
  {
    if |groups| >= 2 {
      LaterGroupStartsAfterRowZero(t, column, groups, 1);
      assert false;
    }
  }

  // ------------------------------------------------ extract_*_data

  /** The rows of the groups, concatenated in group order (pd.concat of the group frames). */
  function Stitch(t: Table, groups: seq<seq<nat>>): (r: Table)
    requires forall g, k :: 0 <= g < |groups| && 0 <= k < |groups[g]| ==> groups[g][k] < |t|
    ensures |r| == |Concat(groups)|
  {
    if |groups| == 0 then []
    else
      var last := groups[|groups| - 1];
      Stitch(t, groups[..|groups| - 1]) + seq(|last|, k requires 0 <= k < |last| => t[last[k]])
  }

  /** Stitching takes, position by position, the rows the concatenated groups name. */
  lemma {:induction false} StitchRows(t: Table, groups: seq<seq<nat>>)
    requires forall g, k :: 0 <= g < |groups| && 0 <= k < |groups[g]| ==> groups[g][k] < |t|
    ensures forall a :: 0 <= a < |Concat(groups)| ==>
      Concat(groups)[a] < |t| && Stitch(t, groups)[a] == t[Concat(groups)[a]]
    decreases |groups|
  {
    if |groups| > 0 {
      var init := groups[..|groups| - 1];
      StitchRows(t, init);
    }
  }

  /** Re-assembling a grouping of a table gives the table back. */
  lemma StitchGroupingIsIdentity(t: Table, column: nat, groups: seq<seq<nat>>)
    requires HasColumn(t, column) && IsGrouping(t, column, groups)
    ensures Stitch(t, groups) == t
  {
    StitchRows(t, groups);
  }

  /**
   * The extraction step shared by the handlers: the stitched groups, or the
   * error pandas raises when there is no group to concatenate.
   */
  function ExtractGroups(t: Table, groups: seq<seq<nat>>, noGroups: string): (r: Result<Table, string>)
    requires forall g, k :: 0 <= g < |groups| && 0 <= k < |groups[g]| ==> groups[g][k] < |t|
    ensures r.Failure? <==> |groups| == 0
    ensures r.Failure? ==> r.error == noGroups
  {
    if |groups| == 0 then Failure(noGroups) else Success(Stitch(t, groups))
  }

  /** pandas' message for `pd.concat([])`. */
  const NoObjectsToConcatenate := "No objects to concatenate"
  /** The message the industry and asset model extractors raise for no group. */
  const NoValidGroups := "No valid groups found."

  /** A grouped non-empty table extracts to itself; an empty one fails. */
  lemma ExtractGroupingOfTable(t: Table, column: nat, groups: seq<seq<nat>>, noGroups: string)
    requires HasColumn(t, column) && IsGrouping(t, column, groups)
    ensures |t| > 0 ==> ExtractGroups(t, groups, noGroups) == Success(t)
    ensures |t| == 0 ==> ExtractGroups(t, groups, noGroups) == Failure(noGroups)
  {
    StitchGroupingIsIdentity(t, column, groups);
  }
}
