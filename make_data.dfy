/** The data generator: `range`, the recursive `makeData` and `generateData`.
    Every random value drawn from the faker library is an input here: a
    `Faker` value supplies it, indexed by where it is drawn. */
module MakeData {
  import opened Seqs

  /** A faker uuid: 36 characters, dashes included. */
  type Uuid = s: string | |s| == 36 witness "00000000-0000-0000-0000-000000000000"

  /** The random draws of one `generateData` call: the uuids behind the i-th
      column's accessor key and id, the uuid of the r-th row, and the weekday
      written into row r for column i. */
  datatype Faker = Faker(
    columnKeyUuid: nat -> Uuid,
    columnIdUuid: nat -> Uuid,
    rowUuid: nat -> Uuid,
    weekday: (nat, nat) -> string)

  datatype Status = Relationship | Complicated | Single

  datatype Person = Person(
    uuid: string,
    userId: string,
    firstName: string,
    lastName: string,
    age: int,
    visits: int,
    progress: int,
    status: Status,
    subRows: Option<seq<Person>>)

  /** A column: the row field it reads, and its stable id. */
  datatype Column = Column(accessorKey: string, id: string)

  /** A generated row: its stable `uuid` and one value per accessor key. */
  datatype TableData = TableData(uuid: string, cells: map<string, string>)

  /** The length `Array.from({ length: n })` gives: negative lengths clamp to 0. */
  function ArrayLength(n: int): nat
  {
    if n < 0 then 0 else n
  }

  /** `s.substring(0, n)`. */
  function Prefix(s: string, n: nat): (r: string)
    ensures |r| <= n && r <= s
    ensures |s| >= n ==> |r| == n
  {
    if |s| <= n then s else s[..n]
  }

  /** `range(len)`: pushes 0, 1, ..., len - 1 in turn; a negative length
      gives the empty array. */
  method Range(len: int) returns (arr: seq<int>)
    ensures |arr| == ArrayLength(len)
    ensures forall i | 0 <= i < |arr| :: arr[i] == i
  {
    arr := [];
    var i := 0;
    while i < len
      invariant 0 <= i == |arr| <= ArrayLength(len)
      invariant forall k | 0 <= k < |arr| :: arr[k] == k
    {
      arr := arr + [i];
      i := i + 1;
    }
  }

  // ---------------------------------------------------------------------
  // makeData(...lens)

  /** `lens[d]` as `range` reads it: an absent entry is `undefined`, for
      which the loop does not run. */
  function LevelLength(lens: seq<int>, d: nat): (n: nat)
    ensures d < |lens| && lens[d] >= 0 ==> n == lens[d]
    ensures d >= |lens| || lens[d] <= 0 ==> n == 0
  {
    if d < |lens| then ArrayLength(lens[d]) else 0
  }

  /** `lens[d]` is truthy: present and non-zero. A falsy `lens[d]` would
      give an empty level, so stopping the recursion there loses no entry. */
  predicate Truthy(lens: seq<int>, d: nat)
    ensures !Truthy(lens, d) ==> LevelLength(lens, d) == 0
  {
    d < |lens| && lens[d] != 0
  }

  /** `makeDataLevel(depth)`: `lens[depth]` fresh people, each with a level
      below it when `lens[depth + 1]` is truthy. The person drawn for the
      entry at `path` is `newPerson(path)`; `path` lists the indices that
      lead to the entry from the top level. */
  function MakeDataLevel(lens: seq<int>, depth: nat, path: seq<nat>, newPerson: seq<nat> -> Person): (rows: seq<Person>)
    ensures |rows| == LevelLength(lens, depth)
    decreases |lens| - depth
  {
    seq(LevelLength(lens, depth), i requires 0 <= i < LevelLength(lens, depth) =>
      newPerson(path + [i]).(subRows :=
        if Truthy(lens, depth + 1) then Some(MakeDataLevel(lens, depth + 1, path + [i], newPerson)) else None))
  }

  /** `makeData(...lens)`. */
  function MakeDataAll(lens: seq<int>, newPerson: seq<nat> -> Person): (rows: seq<Person>)
    ensures |rows| == LevelLength(lens, 0)
  {
    MakeDataLevel(lens, 0, [], newPerson)
  }

  /** The shape `makeData` promises at depth `d`: `lens[d]` entries, each of
      which has sub-rows exactly when `lens[d + 1]` is truthy, and those
      sub-rows are shaped for depth `d + 1`. */
  ghost predicate Shaped(rows: seq<Person>, lens: seq<int>, d: nat)
    decreases |lens| - d
  {
    && |rows| == LevelLength(lens, d)
    && forall i | 0 <= i < |rows| ::
         && (rows[i].subRows.Some? <==> Truthy(lens, d + 1))
         && (rows[i].subRows.Some? ==> d + 1 < |lens| && Shaped(rows[i].subRows.value, lens, d + 1))
  }

  /** No chain of nested `subRows` below `rows` is longer than `k` levels. */
  ghost predicate NestingAtMost(rows: seq<Person>, k: nat)
    decreases k
  {
    rows == [] ||
    (k >= 1 && forall i | 0 <= i < |rows| :: rows[i].subRows.Some? ==> NestingAtMost(rows[i].subRows.value, k - 1))
  }

  lemma {:induction false} MakeDataLevelShaped(lens: seq<int>, depth: nat, path: seq<nat>, newPerson: seq<nat> -> Person)
    ensures Shaped(MakeDataLevel(lens, depth, path, newPerson), lens, depth)
    decreases |lens| - depth
  {
    var rows := MakeDataLevel(lens, depth, path, newPerson);
    forall i | 0 <= i < |rows|
      ensures rows[i].subRows.Some? ==> depth + 1 < |lens| && Shaped(rows[i].subRows.value, lens, depth + 1)
    {
      if rows[i].subRows.Some? {
        assert Truthy(lens, depth + 1);
        assert rows[i].subRows == Some(MakeDataLevel(lens, depth + 1, path + [i], newPerson));
        MakeDataLevelShaped(lens, depth + 1, path + [i], newPerson);
      }
    }
  }

  lemma {:induction false} ShapedNesting(rows: seq<Person>, lens: seq<int>, d: nat)
    requires d <= |lens|
    requires Shaped(rows, lens, d)
    ensures NestingAtMost(rows, |lens| - d)
    decreases |lens| - d
  {
    if rows != [] {
      forall i | 0 <= i < |rows| && rows[i].subRows.Some?
        ensures NestingAtMost(rows[i].subRows.value, |lens| - d - 1)
      {
        ShapedNesting(rows[i].subRows.value, lens, d + 1);
      }
    }
  }

  /** `makeData(...lens)` returns `lens[0]` top-level entries, is shaped level
      by level after `lens`, and nests at most `lens.length` levels deep. */
  lemma MakeDataShape(lens: seq<int>, newPerson: seq<nat> -> Person)
    ensures |MakeDataAll(lens, newPerson)| == LevelLength(lens, 0)
    ensures Shaped(MakeDataAll(lens, newPerson), lens, 0)
    ensures NestingAtMost(MakeDataAll(lens, newPerson), |lens|)
  {
    MakeDataLevelShaped(lens, 0, [], newPerson);
    ShapedNesting(MakeDataAll(lens, newPerson), lens, 0);
  }

  // ---------------------------------------------------------------------
  // generateData(row, column)

  /** The i-th generated column: both fields are the first 8 characters of
      a fresh uuid. */
  function NewColumn(faker: Faker, i: nat): (c: Column)
    ensures |c.accessorKey| == 8 && |c.id| == 8
  {
    Column(Prefix(faker.columnKeyUuid(i), 8), Prefix(faker.columnIdUuid(i), 8))
  }

  /** `Array.from({ length: column }).map(...)`: the generated columns. */
  function GenerateColumns(column: int, faker: Faker): (columns: seq<Column>)
    ensures |columns| == ArrayLength(column)
    ensures forall i | 0 <= i < |columns| :: columns[i] == NewColumn(faker, i)
  {
    seq(ArrayLength(column), i requires 0 <= i < ArrayLength(column) => NewColumn(faker, i))
  }

  /** The weekdays drawn for row `r`, indexed by column. */
  function RowValues(faker: Faker, r: nat): nat -> string
  {
    (i: nat) => faker.weekday(r, i)
  }

  /** The accessor keys of `columns`. */
  function AccessorKeys(columns: seq<Column>): set<string>
  {
    set i | 0 <= i < |columns| :: columns[i].accessorKey
  }

  /** Column `i` is the last one in `columns[..n]` that writes its key. */
  predicate LastWriter(columns: seq<Column>, i: nat, n: nat)
    requires i < n <= |columns|
  {
    forall j | i < j < n :: columns[j].accessorKey != columns[i].accessorKey
  }

  /** What a row's value map holds once the first `n` columns have written:
      a key for each of them, and for each key the value of its last writer. */
  predicate CellsWritten(cells: map<string, string>, columns: seq<Column>, n: nat, value: nat -> string)
    requires n <= |columns|
  {
    && cells.Keys == AccessorKeys(columns[..n])
    && forall i | 0 <= i < n && LastWriter(columns, i, n) ::
         columns[i].accessorKey in cells && cells[columns[i].accessorKey] == value(i)
  }

  /** No column is keyed `uuid`. */
  predicate NoUuidKey(columns: seq<Column>)
  {
    "uuid" !in AccessorKeys(columns)
  }

  /** Generated accessor keys are 8 characters long, so none is `uuid`. */
  lemma GeneratedColumnsNoUuidKey(column: int, faker: Faker)
    ensures NoUuidKey(GenerateColumns(column, faker))
  {
    var columns := GenerateColumns(column, faker);
    forall i | 0 <= i < |columns| ensures columns[i].accessorKey != "uuid" {
      assert |columns[i].accessorKey| == 8 != |"uuid"|;
    }
  }

  /** The value map once the first `n` columns have written, in order. */
  function RowCells(columns: seq<Column>, value: nat -> string, n: nat): map<string, string>
    requires n <= |columns|
  {
    if n == 0 then map[] else RowCells(columns, value, n - 1)[columns[n - 1].accessorKey := value(n - 1)]
  }

  /** Writing the first `n` columns leaves exactly their keys. */
  lemma {:induction false} RowCellsKeys(columns: seq<Column>, value: nat -> string, n: nat)
    requires n <= |columns|
    ensures RowCells(columns, value, n).Keys == AccessorKeys(columns[..n])
  {
    if n > 0 {
      RowCellsKeys(columns, value, n - 1);
      var before, after := AccessorKeys(columns[..n - 1]), AccessorKeys(columns[..n]);
      forall k | k in after ensures k in before + {columns[n - 1].accessorKey} {
        var i :| 0 <= i < n && columns[..n][i].accessorKey == k;
        if i < n - 1 {
          assert columns[..n - 1][i] == columns[i];
        }
      }
      forall k | k in before ensures k in after {
        var i :| 0 <= i < n - 1 && columns[..n - 1][i].accessorKey == k;
        assert columns[..n][i] == columns[i];
      }
      assert columns[..n][n - 1] == columns[n - 1];
    }
  }

  /** Under the key of its last writer, the map holds that writer's value. */
  lemma {:induction false} RowCellsValue(columns: seq<Column>, value: nat -> string, n: nat, i: nat)
    requires i < n <= |columns| && LastWriter(columns, i, n)
    ensures columns[i].accessorKey in RowCells(columns, value, n)
    ensures RowCells(columns, value, n)[columns[i].accessorKey] == value(i)
  {
    if i < n - 1 {
      assert columns[n - 1].accessorKey != columns[i].accessorKey;
      RowCellsValue(columns, value, n - 1, i);
    }
  }

  /** Writing the columns in order leaves a key for each of them, and under
      each key the value of its last writer. */
  lemma RowCellsWritten(columns: seq<Column>, value: nat -> string, n: nat)
    requires n <= |columns|
    ensures CellsWritten(RowCells(columns, value, n), columns, n, value)
  {
    RowCellsKeys(columns, value, n);
    forall i | 0 <= i < n && LastWriter(columns, i, n)
      ensures columns[i].accessorKey in RowCells(columns, value, n)
      ensures RowCells(columns, value, n)[columns[i].accessorKey] == value(i)
    {
      RowCellsValue(columns, value, n, i);
    }
  }

  /** `columns.forEach(column => row[column.accessorKey] = weekday())`,
      starting from `{ uuid }`: a later column with the same key overwrites
      an earlier one. No column may be keyed `uuid`, which would overwrite
      the row's id. */
  method FillRow(uuid: string, columns: seq<Column>, value: nat -> string) returns (row: TableData)
    requires NoUuidKey(columns)
    ensures row == TableData(uuid, RowCells(columns, value, |columns|))
    ensures CellsWritten(row.cells, columns, |columns|, value)
  {
    var cells: map<string, string> := map[];
    var i := 0;
    while i < |columns|
      invariant 0 <= i <= |columns|
      invariant cells == RowCells(columns, value, i)
    {
      cells := cells[columns[i].accessorKey := value(i)];
      i := i + 1;
    }
    assert i == |columns|;
    row := TableData(uuid, cells);
    RowCellsWritten(columns, value, |columns|);
  }

  /** The r-th generated row. */
  function GeneratedRow(columns: seq<Column>, faker: Faker, r: nat): TableData
  {
    TableData(faker.rowUuid(r), RowCells(columns, RowValues(faker, r), |columns|))
  }

  /** `Array.from({ length: row }).map(...)`: `row` rows, the r-th keyed by
      the r-th uuid and filled for every column. */
  method GenerateRows(row: int, columns: seq<Column>, faker: Faker) returns (data: seq<TableData>)
    requires NoUuidKey(columns)
    ensures |data| == ArrayLength(row)
    ensures forall r: nat | r < |data| :: data[r] == GeneratedRow(columns, faker, r)
    ensures forall r: nat | r < |data| :: data[r].uuid == faker.rowUuid(r)
    ensures forall r: nat | r < |data| :: CellsWritten(data[r].cells, columns, |columns|, RowValues(faker, r))
  {
    data := [];
    var r: nat := 0;
    while r < row
      invariant 0 <= r == |data| <= ArrayLength(row)
      invariant forall k: nat | k < r :: data[k] == GeneratedRow(columns, faker, k)
    {
      var filled := FillRow(faker.rowUuid(r), columns, RowValues(faker, r));
      ghost var done := data;
      data := data + [filled];
      forall k: nat | k <= r ensures data[k] == GeneratedRow(columns, faker, k) {
        if k < r {
          assert data[k] == done[k];
        }
      }
      r := r + 1;
    }
    forall k: nat | k < |data|
      ensures CellsWritten(data[k].cells, columns, |columns|, RowValues(faker, k))
    {
      RowCellsWritten(columns, RowValues(faker, k), |columns|);
    }
  }

  /** `generateData(row, column)`: `column` columns in generator order and
      `row` rows, each keyed by its own uuid and holding a value for every
      column's accessor key. */
  method GenerateData(row: int, column: int, faker: Faker) returns (columns: seq<Column>, data: seq<TableData>)
    ensures columns == GenerateColumns(column, faker)
    ensures |columns| == ArrayLength(column) && |data| == ArrayLength(row)
    ensures forall r: nat | r < |data| :: data[r].uuid == faker.rowUuid(r)
    ensures forall r: nat | r < |data| :: CellsWritten(data[r].cells, columns, |columns|, RowValues(faker, r))
  {
    columns := GenerateColumns(column, faker);
    GeneratedColumnsNoUuidKey(column, faker);
    data := GenerateRows(row, columns, faker);
  }

  /** Every generated row has a value under every column's accessor key, and
      none under any other key; the key can never clash with `uuid`, since
      accessor keys are 8 characters long. */
  lemma GeneratedRowCoversColumns(data: seq<TableData>, columns: seq<Column>, faker: Faker, r: nat, c: nat)
    requires r < |data| && c < |columns|
    requires columns == GenerateColumns(|columns|, faker)
    requires CellsWritten(data[r].cells, columns, |columns|, RowValues(faker, r))
    ensures columns[c].accessorKey in data[r].cells
    ensures columns[c].accessorKey != "uuid"
  {
    assert columns[..|columns|] == columns;
    assert columns[c].accessorKey in AccessorKeys(columns);
  }
}
