/** The two-column layout of the menu: the first half of the item list (the
    larger half when its length is odd) on the left, the rest on the right,
    and the catalog position each row's buttons act on. */
module Columns {

  /** `Math.ceil(n / 2)`. */
  function Mid(n: nat): (m: nat)
    ensures n <= 2 * m <= n + 1
  {
    (n + 1) / 2
  }

  datatype Column = Left | Right

  /** `itemList.slice(0, mid)` and `itemList.slice(mid)`. */
  function ColumnItems<T>(itemList: seq<T>, column: Column): (r: seq<T>)
    ensures column == Left ==> |r| == Mid(|itemList|) && forall k :: 0 <= k < |r| ==> r[k] == itemList[k]
    ensures column == Right ==>
      |r| == |itemList| - Mid(|itemList|) && forall k :: 0 <= k < |r| ==> r[k] == itemList[Mid(|itemList|) + k]
  {
    match column
    case Left => itemList[..Mid(|itemList|)]
    case Right => itemList[Mid(|itemList|)..]
  }

  /** The two columns put back together give the item list, and the left one
      has as many rows as the right one or one more. */
  lemma ColumnsPartition<T>(itemList: seq<T>)
    ensures ColumnItems(itemList, Left) + ColumnItems(itemList, Right) == itemList
    ensures |ColumnItems(itemList, Left)| == |ColumnItems(itemList, Right)|
         || |ColumnItems(itemList, Left)| == |ColumnItems(itemList, Right)| + 1
  {
  }

  /** The position handed to `handleQuantityChange` and read from `quantities`
      by row `row` of `column`: `index` on the left, `mid + index` on the right. */
  function CatalogIndex(n: nat, column: Column, row: nat): (i: nat)
    requires row < (if column == Left then Mid(n) else n - Mid(n))
    ensures i < n
    ensures column == Left <==> i < Mid(n)
  {
    match column
    case Left => row
    case Right => Mid(n) + row
  }

  /** Where catalog position `i` is shown. */
  function CellOf(n: nat, i: nat): (cell: (Column, nat))
    requires i < n
    ensures cell.1 < (if cell.0 == Left then Mid(n) else n - Mid(n))
  {
    if i < Mid(n) then (Left, i) else (Right, i - Mid(n))
  }

  /** Every row shows the entry at the position its buttons act on. */
  lemma RowShowsItsEntry<T>(itemList: seq<T>, column: Column, row: nat)
    requires row < |ColumnItems(itemList, column)|
    ensures ColumnItems(itemList, column)[row] == itemList[CatalogIndex(|itemList|, column, row)]
  {
  }

  /** Rows and catalog positions correspond one to one: each position is
      shown in exactly one row, and each row shows exactly one position. */
  lemma CellOfInvertsCatalogIndex(n: nat, column: Column, row: nat)
    requires row < (if column == Left then Mid(n) else n - Mid(n))
    ensures CellOf(n, CatalogIndex(n, column, row)) == (column, row)
  {
  }

  lemma CatalogIndexInvertsCellOf(n: nat, i: nat)
    requires i < n
    ensures var cell := CellOf(n, i); CatalogIndex(n, cell.0, cell.1) == i
  {
  }
}
