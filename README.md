# Row and column drag-and-drop table: a Dafny model

This project models the state logic of a React grid widget. The widget is a
table whose rows and columns can be reordered by drag and drop. Beside it sits
a dimension picker, which chooses how many rows and columns to generate.

Three parts are modelled:

- **Reordering state** of `RenderTable` (module `RenderTable`). The state has
  four parts: the generated `columns`, the rows `data` (their uuids give the
  row order `rowIds`), the `columnOrder`, and the `columnHover` flag that says
  which axis a drag moves.
  - `DragEnd` is the drag-end handler as a pure function. It moves one element
    with `ArrayMove`, which removes the element at `from` and reinserts it at
    `to` on a copy.
  - `Regenerated` is the init memo, run whenever the dimensions change.
  - `Step` and `Replay` apply `onEnterRow`, `onEnterColumn` and drag ends in
    sequence.
  - The class `RenderTableComponent` holds the same state in fields. Its
    handlers are proved equal to those functions.
- **Data generator** (module `MakeData`).
  - `range` is a loop, modelled as the method `Range`.
  - The recursive `makeData` is `MakeDataLevel` and `MakeDataAll`.
  - `generateData` is `GenerateData`. Its per-row `forEach` fill is the method
    `FillRow`.
  - Every value the faker library draws is an input, given by a `Faker` value
    (or a `newPerson` function for `makeData`) and indexed by where it is drawn.
    A faker uuid is a 36-character string.
- **Dimension picker** (module `PreviewTable`).
  - The class `PreviewTableComponent` holds the hover extent
    `(hoveredRow, hoveredColumn)`. Its methods are mouse-over, mouse-out and
    click.
  - Pure functions give the highlight predicate and the click arguments.

Shared sequence helpers (`indexOf`, `map`, `arrayMove`) are in module `Seqs`.

Three behaviours of the code that the model keeps:

- **Re-initialisation keeps the axis flag.** The init memo
  (`src/RenderTable.tsx:69-80`) leaves `columnHover` as it is, so
  `Regenerated` keeps it. The flag is `false` only when the component mounts.
- **Both ids must be present.** `handleDragEnd`
  (`src/RenderTable.tsx:102-122`) never checks `indexOf` for -1. So
  `DragTargetsPresent` requires both ids to be in the selected order, and
  nothing is claimed for unknown ids.
- **Accessor keys are exactly 8 characters.** Each key is the 8-character
  prefix of a 36-character uuid. So a key never equals `uuid`, and writing one
  never overwrites a row's `uuid` field.

## Model

| member | source | states |
|---|---|---|
| Seqs.IndexOf | src/RenderTable.tsx:107-108 | `indexOf` gives -1 exactly when the id is absent; otherwise it gives the first index holding the id |
| Seqs.MapSeq | src/RenderTable.tsx:82-85 | `map` keeps the length and applies the callback to each element in place |
| Seqs.ArrayMove | src/RenderTable.tsx:109 | the splice-based move keeps the length of the order |
| Seqs.ArrayMoveAt | src/RenderTable.tsx:109 | where each element of a move comes from: the moved element is at `to`, the elements between the two positions shift by one, the rest stay put |
| Seqs.ArrayMovePermutes | src/RenderTable.tsx:109 | a move is a permutation: same multiset of elements |
| Seqs.ArrayMoveLands | src/RenderTable.tsx:107-109 | the dragged element lands at the index the target held |
| Seqs.ArrayMoveSelf | src/RenderTable.tsx:109 | moving an element onto its own index changes nothing |
| Seqs.ArrayMoveInverse | src/RenderTable.tsx:109 | moving back from `to` to `from` undoes a move |
| Seqs.ArrayMoveMap | src/RenderTable.tsx:114-118 | projecting to ids commutes with a move, so `rowIds` moves exactly as `data` does |
| Seqs.ArrayMoveExamples | src/RenderTable.tsx:109 | `[a,b,c,d]` moved from 0 to 2 is `[b,c,a,d]`; moved from 3 to 1 it is `[a,d,b,c]` |
| RenderTable.RowIds | src/RenderTable.tsx:82-85 | `rowIds` has one entry per row, the i-th being the i-th row's uuid |
| RenderTable.ColumnIds | src/RenderTable.tsx:76 | `columnsId` has one entry per column, the i-th being the i-th column's id |
| RenderTable.Moves | src/RenderTable.tsx:105-113 | a drag end moves something only when both `active` and `over` are present and differ |
| RenderTable.SortableItems | src/RenderTable.tsx:166-167 | the sortable context gets `columnOrder` on the column axis, and the rows' uuids in row order otherwise |
| RenderTable.DragEnd | src/RenderTable.tsx:102-122 | axis isolation: a column drag leaves `data` alone and a row drag leaves `columnOrder` alone; without both ids, or with equal ids, nothing changes; the columns and the axis flag never change |
| RenderTable.DragEndMovesColumn | src/RenderTable.tsx:104-111 | on the column axis the new `columnOrder` is a permutation of the old one, with the dragged id at the target's former index, and `data` is unchanged |
| RenderTable.DragEndMovesRow | src/RenderTable.tsx:112-121 | on the row axis the new `data` is a permutation of the old one; the dragged row lands at the target's former index; `rowIds` is moved exactly as `data`; `columnOrder` is unchanged |
| RenderTable.Regenerated | src/RenderTable.tsx:72-77 | re-initialisation replaces the columns and the rows wholly; `columnOrder` becomes the columns' ids in generator order; the axis flag is kept |
| RenderTable.RegeneratedConsistent | src/RenderTable.tsx:72-77 | re-initialisation establishes the invariant the replay preserves: the column order holds the new columns' ids, each as often as a column carries it |
| RenderTable.Step | src/RenderTable.tsx:132-137 | `onEnterRow` sets the axis flag to false and `onEnterColumn` sets it to true, changing nothing else |
| RenderTable.ReplayPermutes | src/RenderTable.tsx:102-137 | over any sequence of axis events and drag ends with present ids, the columns stay fixed; `columnOrder`, `data` and `rowIds` stay permutations of what they were; a column order that holds exactly the columns' ids keeps holding them |
| RenderTable.AxisEventsIdempotent | src/RenderTable.tsx:132-137 | each axis handler is idempotent, and of two axis events the later one decides |
| RenderTable.ReplayTwo | src/RenderTable.tsx:102-137 | replaying two events is applying them in turn |
| RenderTable.ScenarioColumnDrag | src/RenderTable.tsx:104-111 | with columns c1, c2, c3, entering the column axis and dragging c1 onto c3 gives `[c2, c3, c1]` and keeps the rows |
| RenderTable.ScenarioRowDrag | src/RenderTable.tsx:112-121 | with rows r1, r2, entering the row axis and dragging r2 onto r1 gives `[r2, r1]` and keeps the column order |
| RenderTable.ScenarioEndToEnd | src/RenderTable.tsx:69-137 | from a fresh grid with columns c1..c3 and rows r1, r2: first a column drag, then a row drag, each leaving the other axis alone |
| RenderTable.RenderTableComponent.constructor | src/RenderTable.tsx:64-80 | on mount the state holds the generated columns and rows (row r with the r-th uuid and a value under exactly the accessor keys), the columns' ids as the column order, and the row axis |
| RenderTable.RenderTableComponent.Regenerate | src/RenderTable.tsx:69-80 | the init memo stores `generateData`'s output and its column ids, and keeps the axis flag |
| RenderTable.RenderTableComponent.OnEnterRow | src/RenderTable.tsx:132-134 | the handler's new state is `Step` with `EnterRow` |
| RenderTable.RenderTableComponent.OnEnterColumn | src/RenderTable.tsx:135-137 | the handler's new state is `Step` with `EnterColumn` |
| RenderTable.RenderTableComponent.HandleDragEnd | src/RenderTable.tsx:102-122 | the handler's new state is `DragEnd` of the old state and the event |
| MakeData.Prefix | src/makeData.ts:67-68 | `substring(0, n)` is a prefix of at most `n` characters, and exactly `n` when the string is that long |
| MakeData.Range | src/makeData.ts:15-21 | `range(len)` has length `len` (0 for negative `len`), and its element at index i is i |
| MakeData.LevelLength | src/makeData.ts:42-43 | a level's length is `lens[d]` when that entry is present and not negative, and 0 otherwise |
| MakeData.Truthy | src/makeData.ts:46 | a level whose length entry is falsy (absent or zero) has no entries |
| MakeData.MakeDataLevel | src/makeData.ts:41-49 | a level at depth d has `lens[d]` entries (0 when absent or negative) |
| MakeData.MakeDataLevelShaped | src/makeData.ts:41-49 | every level at depth d has `lens[d]` entries, and an entry has `subRows` exactly when `lens[d+1]` is present and non-zero |
| MakeData.ShapedNesting | src/makeData.ts:46 | a level built this way nests at most `lens.length - d` levels deep |
| MakeData.MakeDataAll | src/makeData.ts:40-52 | `makeData(...lens)` builds the top level, of `lens[0]` entries |
| MakeData.MakeDataShape | src/makeData.ts:40-52 | `makeData(...lens)` returns `lens[0]` top-level entries, is shaped level by level after `lens`, and nests at most `lens.length` levels |
| MakeData.NewColumn | src/makeData.ts:66-69 | a generated column's `accessorKey` and `id` are 8 characters each |
| MakeData.GenerateColumns | src/makeData.ts:66-69 | exactly `column` columns (none for 0 or negative), the i-th built from the i-th draws |
| MakeData.GeneratedColumnsNoUuidKey | src/makeData.ts:66-69 | no generated column is keyed `uuid`, since every key is 8 characters long |
| MakeData.RowCellsKeys | src/makeData.ts:72-74 | once the first n columns have written, the row holds exactly their accessor keys |
| MakeData.RowCellsValue | src/makeData.ts:72-74 | under each key, the row holds the value written by the last column with that key |
| MakeData.RowCellsWritten | src/makeData.ts:72-74 | writing the columns in order leaves exactly their keys, each with its last writer's value |
| MakeData.FillRow | src/makeData.ts:71-75 | given columns none of which is keyed `uuid`, a filled row keeps its uuid and is the in-order fill of the columns: it has a value under exactly the columns' accessor keys, each the value of the last column writing that key |
| MakeData.GenerateRows | src/makeData.ts:70-76 | exactly `row` rows (none for 0 or negative); row r is the r-th uuid filled for every column, with values under exactly the accessor keys |
| MakeData.GenerateData | src/makeData.ts:63-78 | exactly `column` columns and `row` rows (none for 0 or negative); row r has the r-th uuid and values under exactly the accessor keys |
| MakeData.GeneratedRowCoversColumns | src/makeData.ts:70-76 | every generated row has an entry for every column's accessor key, and no key can be `uuid` |
| PreviewTable.IndexArray | src/PreviewTable.tsx:13-14 | `rowArray` and `columnArray` are `[0, ..., n-1]`: right length, element i is i, holding exactly the indices below n |
| PreviewTable.Highlighted | src/PreviewTable.tsx:43 | a rendered cell can be red only once the hovered extent is at least 1 by 1 |
| PreviewTable.HighlightDownwardClosed | src/PreviewTable.tsx:43 | the highlighted cells are downward-closed, a top-left rectangle |
| PreviewTable.Selection | src/PreviewTable.tsx:52 | a click on (r, c) selects an extent whose highlight is exactly the cells up to (r, c), and at least 1 by 1 for a rendered cell |
| PreviewTable.SelectionInBounds | src/PreviewTable.tsx:50-52 | a click on a rendered cell selects between 1 and `row` rows and between 1 and `column` columns |
| PreviewTable.PreviewTableComponent.constructor | src/PreviewTable.tsx:18-19 | the hover extent starts at (0, 0), with no cell highlighted |
| PreviewTable.PreviewTableComponent.RowArray | src/PreviewTable.tsx:13 | `rowArray` holds exactly the row indices 0 to `row - 1` |
| PreviewTable.PreviewTableComponent.ColumnArray | src/PreviewTable.tsx:14 | `columnArray` holds exactly the column indices 0 to `column - 1` |
| PreviewTable.PreviewTableComponent.MouseOverCell | src/PreviewTable.tsx:43-49 | after mouse-over of (r, c) the state is (r+1, c+1), and a cell is highlighted iff its row is at most r and its column at most c; so repeating it changes nothing |
| PreviewTable.PreviewTableComponent.MouseOut | src/PreviewTable.tsx:24-27 | mouse-out of the picker resets the state to (0, 0), with nothing highlighted |
| PreviewTable.PreviewTableComponent.Click | src/PreviewTable.tsx:50-53 | a click on (r, c) passes (r+1, c+1), within 1..`row` and 1..`column` |

## Left out

- Rendering is not modelled: JSX, CSS transforms and transitions, `flexRender`, the `RenderTableContent` context and cell measurement with `useSize`. They are presentation only.
- The dnd-kit internals are not modelled: sensors, `closestCenter` collision detection, axis modifiers and `useSortable`. Their source is not part of this model. Only `arrayMove` is modelled, by its splice definition, for indices inside the order.
- `useReactTable` and `getCoreRowModel` are an external table library. The rendered row order is taken to be the order of `data`.
- React's scheduling is not modelled. `handleDragEnd` takes its indices from the `rowIds` of the last render and applies them to the `data` its state updater receives. The model assumes these agree, since events are handled one at a time and each is followed by a re-render.
- React's `mouseout` bubbles to the picker from every cell, so the extent resets to (0, 0) whenever the pointer leaves any cell or the picker, including onto the 1-pixel gaps between cells; moving to another cell then sets it again. The model has one mouse-out event for all of these, and it ends in the same state.
- RenderTable.DragEnd: nothing is claimed when the dragged or the target id is missing from the selected order. The code never checks `indexOf` for -1, and the library's behaviour on -1 is not part of this model.
- Ids may repeat: 8-character prefixes of uuids can collide. So no lemma claims that ids are unique. `indexOf` then finds the first match, as modelled.
- Random draws from faker are inputs (`Faker`, `newPerson`), not generated. The model does not describe the range of `newPerson`'s numeric fields or weekday names.
- A per-cell hover position inside the reordering state is not modelled. `src/RenderTable.tsx` keeps none; only the dimension picker tracks a hover extent, and that is modelled.
- `console.log` calls are I/O. `src/main.tsx` only mounts the components and stores the selection, and `src/PreviewData.tsx` only dumps JSON; neither is part of this model.
- JavaScript numbers are modelled as unbounded integers. Fractional or NaN lengths for `range`, `Array.from` and `makeData` are not modelled.
