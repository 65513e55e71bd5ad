/** The dimension picker (`PreviewTable`): a `row` by `column` grid of cells
    whose top-left rectangle up to the hovered cell is highlighted, and whose
    cells report one more than their indices when clicked. */
module PreviewTable {

  /** `Array.from({ length: n }, (_, i) => i)`: the indices 0 to n - 1, used
      for `rowArray` and `columnArray`. */
  function IndexArray(n: int): (a: seq<int>)
    ensures |a| == (if n < 0 then 0 else n)
    ensures forall i | 0 <= i < |a| :: a[i] == i
    ensures forall x :: x in a <==> 0 <= x < n
  {
    if n <= 0 then [] else IndexArray(n - 1) + [n - 1]
  }

  /** Cell (r, c) is painted red: it lies inside the hovered extent. A
      rendered cell can be red only once the extent is at least 1 by 1. */
  predicate Highlighted(hoveredRow: int, hoveredColumn: int, r: int, c: int)
    ensures 0 <= r && 0 <= c && Highlighted(hoveredRow, hoveredColumn, r, c) ==> hoveredRow >= 1 && hoveredColumn >= 1
  {
    hoveredRow > r && hoveredColumn > c
  }

  /** The highlighted cells form a top-left rectangle: a cell above and to
      the left of a highlighted cell is highlighted too. */
  lemma HighlightDownwardClosed(hoveredRow: int, hoveredColumn: int, r: int, c: int, r': int, c': int)
    requires Highlighted(hoveredRow, hoveredColumn, r, c)
    requires r' <= r && c' <= c
    ensures Highlighted(hoveredRow, hoveredColumn, r', c')
  {
  }

  /** The arguments a click on cell (r, c) passes to `onChangeRowAndColumn`:
      the extent whose highlight ends at the clicked cell, at least 1 by 1 for
      a rendered cell. */
  function Selection(r: int, c: int): (sel: (int, int))
    ensures Highlighted(sel.0, sel.1, r, c)
    ensures forall r', c' :: Highlighted(sel.0, sel.1, r', c') <==> r' <= r && c' <= c
    ensures 0 <= r && 0 <= c ==> sel.0 >= 1 && sel.1 >= 1
  {
    (r + 1, c + 1)
  }

  /** A click on a rendered cell selects between 1 and `row` rows and between
      1 and `column` columns. */
  lemma SelectionInBounds(row: int, column: int, r: int, c: int)
    requires r in IndexArray(row) && c in IndexArray(column)
    ensures 1 <= Selection(r, c).0 <= row && 1 <= Selection(r, c).1 <= column
  {
  }

  /** The picker's hover state, overwritten by its mouse handlers. */
  class PreviewTableComponent {
    const row: int
    const column: int
    var hoveredRow: int
    var hoveredColumn: int

    predicate IsHighlighted(r: int, c: int)
      reads this
    {
      Highlighted(hoveredRow, hoveredColumn, r, c)
    }

    /** Mounting: `(hoveredRow, hoveredColumn)` starts at (0, 0), so no cell
        is highlighted. */
    constructor (row: int, column: int)
      ensures this.row == row && this.column == column
      ensures hoveredRow == 0 && hoveredColumn == 0
      ensures forall r, c | 0 <= r && 0 <= c :: !IsHighlighted(r, c)
    {
      this.row, this.column := row, column;
      hoveredRow, hoveredColumn := 0, 0;
    }

    function RowArray(): (a: seq<int>)
      reads this
      ensures forall x :: x in a <==> 0 <= x < row
    {
      IndexArray(row)
    }

    function ColumnArray(): (a: seq<int>)
      reads this
      ensures forall x :: x in a <==> 0 <= x < column
    {
      IndexArray(column)
    }

    /** `onMouseOver` of cell (r, c): afterwards exactly the cells with
        row at most `r` and column at most `c` are highlighted, whatever was
        highlighted before, so hovering the same cell again changes nothing. */
    method MouseOverCell(r: nat, c: nat)
      modifies this`hoveredRow, this`hoveredColumn
      ensures hoveredRow == r + 1 && hoveredColumn == c + 1
      ensures forall r', c' | 0 <= r' && 0 <= c' :: IsHighlighted(r', c') <==> r' <= r && c' <= c
    {
      hoveredRow := r + 1;
      hoveredColumn := c + 1;
    }

    /** `onMouseOut` of the picker: back to (0, 0), nothing highlighted. */
    method MouseOut()
      modifies this`hoveredRow, this`hoveredColumn
      ensures hoveredRow == 0 && hoveredColumn == 0
      ensures forall r, c | 0 <= r && 0 <= c :: !IsHighlighted(r, c)
    {
      hoveredRow := 0;
      hoveredColumn := 0;
    }

    /** `onClick` of a rendered cell (r, c): the dimensions handed to
        `onChangeRowAndColumn`, each one more than the clicked index and
        within the grid. */
    method Click(r: int, c: int) returns (selectedRow: int, selectedColumn: int)
      requires r in RowArray() && c in ColumnArray()
      ensures (selectedRow, selectedColumn) == Selection(r, c)
      ensures 1 <= selectedRow <= row && 1 <= selectedColumn <= column
    {
      selectedRow, selectedColumn := r + 1, c + 1;
    }
  }
}
