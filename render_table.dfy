/** The reordering state of the `RenderTable` component: the column order,
    the row data (whose uuids give the row order) and the `columnHover` flag
    that selects which of the two orders a drag moves. */
module RenderTable {
  import opened Seqs
  import opened MakeData

  /** The part of a dnd-kit drag-end event the handler reads: the id of the
      dragged item and the id of the item it was dropped over, either of
      which may be missing. */
  datatype DragEndEvent = DragEndEvent(active: Option<string>, over: Option<string>)

  /** The component's state: the generated columns, the rows in display
      order, the column order, and the axis flag (`true` for columns). */
  datatype TableState = TableState(
    columns: seq<Column>,
    data: seq<TableData>,
    columnOrder: seq<string>,
    columnHover: bool)

  function UuidOf(d: TableData): string
  {
    d.uuid
  }

  function ColumnIdOf(c: Column): string
  {
    c.id
  }

  /** `data.map((d) => d.uuid)`: the row order. */
  function RowIds(data: seq<TableData>): (ids: seq<string>)
    ensures |ids| == |data|
    ensures forall i | 0 <= i < |data| :: ids[i] == data[i].uuid
  {
    MapSeq(data, UuidOf)
  }

  /** `columns.map((c) => c.id)`. */
  function ColumnIds(columns: seq<Column>): (ids: seq<string>)
    ensures |ids| == |columns|
    ensures forall i | 0 <= i < |columns| :: ids[i] == columns[i].id
  {
    MapSeq(columns, ColumnIdOf)
  }

  /** The order handed to the sortable context: the column order on the
      column axis, the row ids on the row axis. */
  function SortableItems(s: TableState): (items: seq<string>)
    ensures s.columnHover ==> items == s.columnOrder
    ensures !s.columnHover ==> |items| == |s.data| && forall i | 0 <= i < |items| :: items[i] == s.data[i].uuid
  {
    if s.columnHover then s.columnOrder else RowIds(s.data)
  }

  /** The handler's guard: both ids given, and different. A guarded event
      never drops an item onto itself. */
  predicate Moves(e: DragEndEvent)
    ensures Moves(e) ==> e.active.Some? && e.over.Some? && e.active != e.over
  {
    e.active.Some? && e.over.Some? && e.active.value != e.over.value
  }

  /** What the handler relies on without checking: when it moves anything,
      both ids are in the order the axis flag selects. */
  predicate DragTargetsPresent(s: TableState, e: DragEndEvent)
  {
    Moves(e) ==> e.active.value in SortableItems(s) && e.over.value in SortableItems(s)
  }

  /** `handleDragEnd`: on the column axis move the dragged column id to the
      target's index in `columnOrder`; on the row axis move the dragged row
      to the target row's index in `data`. */
  function DragEnd(s: TableState, e: DragEndEvent): (t: TableState)
    requires DragTargetsPresent(s, e)
    ensures t.columns == s.columns && t.columnHover == s.columnHover
    ensures s.columnHover ==> t.data == s.data
    ensures !s.columnHover ==> t.columnOrder == s.columnOrder
    ensures !Moves(e) ==> t == s
  {
    if !Moves(e) then s
    else if s.columnHover then
      var oldIndex := IndexOf(s.columnOrder, e.active.value);
      var newIndex := IndexOf(s.columnOrder, e.over.value);
      s.(columnOrder := ArrayMove(s.columnOrder, oldIndex, newIndex))
    else
      var rowIds := RowIds(s.data);
      var oldIndex := IndexOf(rowIds, e.active.value);
      var newIndex := IndexOf(rowIds, e.over.value);
      s.(data := ArrayMove(s.data, oldIndex, newIndex))
  }

  /** A column-axis drag permutes `columnOrder`, puts the dragged id at the
      index the target id held, and leaves the rows alone. */
  lemma DragEndMovesColumn(s: TableState, e: DragEndEvent)
    requires s.columnHover && Moves(e) && DragTargetsPresent(s, e)
    ensures var t := DragEnd(s, e);
      && multiset(t.columnOrder) == multiset(s.columnOrder)
      && t.columnOrder[IndexOf(s.columnOrder, e.over.value)] == e.active.value
      && t.data == s.data
  {
    var i := IndexOf(s.columnOrder, e.active.value);
    var j := IndexOf(s.columnOrder, e.over.value);
    ArrayMovePermutes(s.columnOrder, i, j);
    ArrayMoveLands(s.columnOrder, i, j);
  }

  /** A row-axis drag permutes `data`, puts the dragged row at the index the
      target row held, permutes `rowIds` exactly as it permutes `data`, and
      leaves the column order alone. */
  lemma DragEndMovesRow(s: TableState, e: DragEndEvent)
    requires !s.columnHover && Moves(e) && DragTargetsPresent(s, e)
    ensures var t := DragEnd(s, e);
      var i := IndexOf(RowIds(s.data), e.active.value);
      var j := IndexOf(RowIds(s.data), e.over.value);
      && 0 <= i < |s.data| && 0 <= j < |s.data|
      && multiset(t.data) == multiset(s.data)
      && t.data[j] == s.data[i] && t.data[j].uuid == e.active.value
      && RowIds(t.data) == ArrayMove(RowIds(s.data), i, j)
      && t.columnOrder == s.columnOrder
  {
    var i := IndexOf(RowIds(s.data), e.active.value);
    var j := IndexOf(RowIds(s.data), e.over.value);
    ArrayMovePermutes(s.data, i, j);
    ArrayMoveLands(s.data, i, j);
    ArrayMoveMap(s.data, UuidOf, i, j);
  }

  /** The init memo: the generated columns and rows replace the old ones,
      and the column order becomes the columns' ids in generator order. The
      axis flag is left as it was. */
  function Regenerated(s: TableState, columns: seq<Column>, data: seq<TableData>): (t: TableState)
    ensures t.columns == columns && t.data == data && t.columnHover == s.columnHover
    ensures |t.columnOrder| == |columns|
    ensures forall i | 0 <= i < |columns| :: t.columnOrder[i] == columns[i].id
  {
    TableState(columns, data, ColumnIds(columns), s.columnHover)
  }

  /** The column order holds exactly the columns' ids, each as often as a
      column carries it. */
  ghost predicate Consistent(s: TableState)
  {
    multiset(s.columnOrder) == multiset(ColumnIds(s.columns))
  }

  /** The init memo establishes the invariant that the replay preserves. */
  lemma RegeneratedConsistent(s: TableState, columns: seq<Column>, data: seq<TableData>)
    ensures Consistent(Regenerated(s, columns, data))
  {
  }

  /** The events the component reacts to once a grid is generated. */
  datatype UiEvent = EnterRow | EnterColumn | DragEnded(event: DragEndEvent)

  /** What the handler of a `UiEvent` needs to hold. */
  predicate StepAllowed(s: TableState, ev: UiEvent)
  {
    ev.DragEnded? ==> DragTargetsPresent(s, ev.event)
  }

  /** One event: `onEnterRow` clears the axis flag, `onEnterColumn` sets it,
      and a drag end reorders. */
  function Step(s: TableState, ev: UiEvent): (t: TableState)
    requires StepAllowed(s, ev)
    ensures ev.EnterRow? ==> t == s.(columnHover := false)
    ensures ev.EnterColumn? ==> t == s.(columnHover := true)
  {
    match ev
    case EnterRow => s.(columnHover := false)
    case EnterColumn => s.(columnHover := true)
    case DragEnded(e) => DragEnd(s, e)
  }

  /** Every event of `evs`, applied in turn, is allowed in the state it meets. */
  predicate Replayable(s: TableState, evs: seq<UiEvent>)
    decreases |evs|
  {
    evs == [] || (StepAllowed(s, evs[0]) && Replayable(Step(s, evs[0]), evs[1..]))
  }

  function Replay(s: TableState, evs: seq<UiEvent>): TableState
    requires Replayable(s, evs)
    decreases |evs|
  {
    if evs == [] then s else Replay(Step(s, evs[0]), evs[1..])
  }

  /** However many events arrive, the columns never change, the column order,
      the rows and the row ids stay permutations of what they were, and a
      consistent column order stays consistent. */
  lemma {:induction false} ReplayPermutes(s: TableState, evs: seq<UiEvent>)
    requires Replayable(s, evs)
    ensures var t := Replay(s, evs);
      && t.columns == s.columns
      && multiset(t.columnOrder) == multiset(s.columnOrder)
      && multiset(t.data) == multiset(s.data)
      && multiset(RowIds(t.data)) == multiset(RowIds(s.data))
      && (Consistent(s) ==> Consistent(t))
    decreases |evs|
  {
    if evs != [] {
      var s1 := Step(s, evs[0]);
      if evs[0].DragEnded? && Moves(evs[0].event) {
        var e := evs[0].event;
        if s.columnHover {
          DragEndMovesColumn(s, e);
        } else {
          DragEndMovesRow(s, e);
          var i := IndexOf(RowIds(s.data), e.active.value);
          var j := IndexOf(RowIds(s.data), e.over.value);
          ArrayMovePermutes(RowIds(s.data), i, j);
        }
      }
      ReplayPermutes(s1, evs[1..]);
    }
  }

  /** `onEnterRow` and `onEnterColumn` are idempotent, and the later of two
      axis events wins. */
  lemma {:induction false} AxisEventsIdempotent(s: TableState)
    ensures Step(Step(s, EnterRow), EnterRow) == Step(s, EnterRow)
    ensures Step(Step(s, EnterColumn), EnterColumn) == Step(s, EnterColumn)
    ensures Step(Step(s, EnterColumn), EnterRow) == Step(s, EnterRow)
    ensures Step(Step(s, EnterRow), EnterColumn) == Step(s, EnterColumn)
  {
  }

  /** Two events in a row. */
  lemma ReplayTwo(s: TableState, a: UiEvent, b: UiEvent)
    requires StepAllowed(s, a) && StepAllowed(Step(s, a), b)
    ensures Replayable(s, [a, b]) && Replay(s, [a, b]) == Step(Step(s, a), b)
  {
    assert [a, b][1..] == [b];
    assert [b][1..] == [];
    var t := Step(Step(s, a), b);
    assert Replay(Step(s, a), [b]) == Replay(t, []) == t;
  }

  /** Columns c1, c2, c3 on the column axis: dragging c1 onto c3 gives
      [c2, c3, c1] and keeps the rows. */
  lemma ScenarioColumnDrag(s: TableState)
    requires s.columnOrder == ["c1", "c2", "c3"]
    ensures var evs := [EnterColumn, DragEnded(DragEndEvent(Some("c1"), Some("c3")))];
      && Replayable(s, evs)
      && Replay(s, evs).columnOrder == ["c2", "c3", "c1"]
      && Replay(s, evs).data == s.data
  {
    var e := DragEndEvent(Some("c1"), Some("c3"));
    var s1 := Step(s, EnterColumn);
    assert "c1" != "c3" by { assert "c1"[1] != "c3"[1]; }
    assert IndexOf(s1.columnOrder, "c1") == 0;
    assert IndexOf(s1.columnOrder, "c3") == 2 by {
      assert "c1"[1] != "c3"[1] && "c2"[1] != "c3"[1];
      assert s1.columnOrder[1..] == ["c2", "c3"];
      assert ["c2", "c3"][1..] == ["c3"];
    }
    ReplayTwo(s, EnterColumn, DragEnded(e));
    ArrayMoveExamples("c1", "c2", "c3", "");
    var s2 := Step(s1, DragEnded(e));
    assert s2.columnOrder == ArrayMove(["c1", "c2", "c3"], 0, 2);
    assert ["c1", "c2", "c3"] == ["c1", "c2", "c3", ""][..3];
    assert ArrayMove(["c1", "c2", "c3"], 0, 2) == ["c2", "c3", "c1"] by {
      var t := ["c1", "c2", "c3"];
      assert t[..0] + t[1..] == ["c2", "c3"];
    }
  }

  /** Rows r1, r2 on the row axis: dragging r2 onto r1 gives [r2, r1] and
      keeps the column order. */
  lemma ScenarioRowDrag(s: TableState)
    requires RowIds(s.data) == ["r1", "r2"]
    ensures var evs := [EnterRow, DragEnded(DragEndEvent(Some("r2"), Some("r1")))];
      && Replayable(s, evs)
      && RowIds(Replay(s, evs).data) == ["r2", "r1"]
      && Replay(s, evs).columnOrder == s.columnOrder
  {
    var e := DragEndEvent(Some("r2"), Some("r1"));
    var s1 := Step(s, EnterRow);
    assert "r1" != "r2" by { assert "r1"[1] != "r2"[1]; }
    assert IndexOf(RowIds(s1.data), "r1") == 0;
    assert IndexOf(RowIds(s1.data), "r2") == 1 by {
      assert RowIds(s1.data)[1..] == ["r2"];
    }
    ReplayTwo(s, EnterRow, DragEnded(e));
    DragEndMovesRow(s1, e);
    var t := ["r1", "r2"];
    assert ArrayMove(t, 1, 0) == ["r2", "r1"] by {
      assert t[..1] + t[2..] == ["r1"];
    }
  }

  /** The whole scenario from a fresh grid of columns c1, c2, c3 and rows
      r1, r2: first a column drag, then a row drag. */
  lemma ScenarioEndToEnd(cells: map<string, string>)
    ensures var s0 := Regenerated(TableState([], [], [], false),
                                  [Column("k1", "c1"), Column("k2", "c2"), Column("k3", "c3")],
                                  [TableData("r1", cells), TableData("r2", cells)]);
      var evs1 := [EnterColumn, DragEnded(DragEndEvent(Some("c1"), Some("c3")))];
      var evs2 := [EnterRow, DragEnded(DragEndEvent(Some("r2"), Some("r1")))];
      && s0.columnOrder == ["c1", "c2", "c3"] && RowIds(s0.data) == ["r1", "r2"]
      && Replayable(s0, evs1)
      && Replay(s0, evs1).columnOrder == ["c2", "c3", "c1"]
      && RowIds(Replay(s0, evs1).data) == ["r1", "r2"]
      && Replayable(Replay(s0, evs1), evs2)
      && Replay(Replay(s0, evs1), evs2).columnOrder == ["c2", "c3", "c1"]
      && RowIds(Replay(Replay(s0, evs1), evs2).data) == ["r2", "r1"]
  {
    var columns := [Column("k1", "c1"), Column("k2", "c2"), Column("k3", "c3")];
    var rows := [TableData("r1", cells), TableData("r2", cells)];
    var s0 := Regenerated(TableState([], [], [], false), columns, rows);
    assert s0.columnOrder == ["c1", "c2", "c3"];
    assert RowIds(s0.data) == ["r1", "r2"];
    ScenarioColumnDrag(s0);
    var s2 := Replay(s0, [EnterColumn, DragEnded(DragEndEvent(Some("c1"), Some("c3")))]);
    ScenarioRowDrag(s2);
  }

  /** The `RenderTable` component's state, overwritten by its handlers. */
  class RenderTableComponent {
    var columns: seq<Column>
    var data: seq<TableData>
    var columnOrder: seq<string>
    var columnHover: bool

    function State(): TableState
      reads this
    {
      TableState(columns, data, columnOrder, columnHover)
    }

    /** Mounting: the `useState` defaults (no rows, no column order, row
        axis), then the init memo for the selected dimensions. */
    constructor (selectedRow: int, selectedColumn: int, faker: Faker)
      ensures columns == GenerateColumns(selectedColumn, faker)
      ensures |data| == ArrayLength(selectedRow)
      ensures forall r: nat | r < |data| :: data[r].uuid == faker.rowUuid(r)
      ensures forall r: nat | r < |data| :: CellsWritten(data[r].cells, columns, |columns|, RowValues(faker, r))
      ensures State() == Regenerated(TableState([], [], [], false), columns, data)
    {
      columns, data, columnOrder, columnHover := [], [], [], false;
      new;
      Regenerate(selectedRow, selectedColumn, faker);
    }

    /** The init memo, run whenever the selected dimensions change: fresh
        columns and rows replace the old ones whatever they were. */
    method Regenerate(selectedRow: int, selectedColumn: int, faker: Faker)
      modifies this
      ensures columns == GenerateColumns(selectedColumn, faker)
      ensures |data| == ArrayLength(selectedRow)
      ensures forall r: nat | r < |data| :: data[r].uuid == faker.rowUuid(r)
      ensures forall r: nat | r < |data| :: CellsWritten(data[r].cells, columns, |columns|, RowValues(faker, r))
      ensures State() == Regenerated(old(State()), columns, data)
    {
      var generatedColumns, generatedData := GenerateData(selectedRow, selectedColumn, faker);
      data := generatedData;
      columnOrder := ColumnIds(generatedColumns);
      columns := generatedColumns;
    }

    method OnEnterRow()
      modifies this`columnHover
      ensures State() == Step(old(State()), EnterRow)
    {
      columnHover := false;
    }

    method OnEnterColumn()
      modifies this`columnHover
      ensures State() == Step(old(State()), EnterColumn)
    {
      columnHover := true;
    }

    /** `handleDragEnd`. */
    method HandleDragEnd(e: DragEndEvent)
      requires DragTargetsPresent(State(), e)
      modifies this`columnOrder, this`data
      ensures State() == DragEnd(old(State()), e)
    {
      if columnHover {
        if e.active.Some? && e.over.Some? && e.active.value != e.over.value {
          var oldIndex := IndexOf(columnOrder, e.active.value);
          var newIndex := IndexOf(columnOrder, e.over.value);
          columnOrder := ArrayMove(columnOrder, oldIndex, newIndex);
        }
      } else {
        if e.active.Some? && e.over.Some? && e.active.value != e.over.value {
          var rowIds := RowIds(data);
          var oldIndex := IndexOf(rowIds, e.active.value);
          var newIndex := IndexOf(rowIds, e.over.value);
          data := ArrayMove(data, oldIndex, newIndex);
        }
      }
    }
  }
}
