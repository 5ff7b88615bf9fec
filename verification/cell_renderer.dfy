/**
 * The renderer of the tests table: a cell shows its value cut to at most
 * 150 characters, and each row is made as high as the tallest cell
 * rendered in it so far. The preferred height of a rendered cell comes
 * from the Swing text layout and is a parameter here.
 */
module CellRenderer {
  import opened Wrappers

  const MAX_LENGTH := 150
  const ELLIPSIS := "..."

  /** `shortener`: a string of at most 150 characters is shown as it is; a
      longer one as its first 147 characters and an ellipsis. */
  function Shorten(s: string): (shown: string)
    ensures |s| <= MAX_LENGTH ==> shown == s
    ensures |s| > MAX_LENGTH ==> |shown| == MAX_LENGTH &&
                                 shown[..MAX_LENGTH - 3] == s[..MAX_LENGTH - 3] &&
                                 shown[MAX_LENGTH - 3..] == ELLIPSIS
  {
    if |s| <= MAX_LENGTH then s else s[..MAX_LENGTH - 3] + ELLIPSIS
  }

  /** Shortening never gives more than 150 characters, and a shortened
      string is shown as it is. */
  lemma ShortenIdempotent(s: string)
    ensures |Shorten(s)| <= MAX_LENGTH
    ensures Shorten(Shorten(s)) == Shorten(s)
  {
  }

  /** The largest of `first` and the values `values`. */
  function MaxOf(first: int, values: seq<int>): (m: int)
    ensures m >= first && forall i :: 0 <= i < |values| ==> m >= values[i]
    ensures m == first || exists i :: 0 <= i < |values| && m == values[i]
  {
    if values == [] then first
    else
      var rest := MaxOf(first, values[..|values| - 1]);
      if values[|values| - 1] > rest then values[|values| - 1] else rest
  }

  /** The heights table before and after recording height `prefH` for
      cell (`row`, `column`): it has at least `row + 1` rows, that row at
      least `column + 1` entries, the new entries are 0, the cell holds
      `prefH` and every other entry is as it was. */
  ghost predicate Adjusted(before: seq<seq<int>>, after: seq<seq<int>>, row: nat, column: nat, prefH: int)
  {
    |after| == (if |before| > row then |before| else row + 1)
    && (forall r :: 0 <= r < |after| && r != row ==> after[r] == if r < |before| then before[r] else [])
    && var previous := if row < |before| then before[row] else [];
       |after[row]| == (if |previous| > column then |previous| else column + 1)
       && after[row][column] == prefH
       && forall c :: 0 <= c < |after[row]| && c != column ==> after[row][c] == if c < |previous| then previous[c] else 0
  }

  /** The table the renderer draws into: its row heights, and each height
      it was told to set, in order. */
  class Table {
    var rowHeights: seq<int>
    var heightsSet: seq<(nat, int)>

    constructor (heights: seq<int>)
      ensures rowHeights == heights && heightsSet == []
    {
      rowHeights := heights;
      heightsSet := [];
    }

    /** `setRowHeight`. */
    method SetRowHeight(row: nat, height: int)
      requires row < |rowHeights|
      modifies this
      ensures rowHeights == old(rowHeights)[row := height]
      ensures heightsSet == old(heightsSet) + [(row, height)]
    {
      rowHeights := rowHeights[row := height];
      heightsSet := heightsSet + [(row, height)];
    }
  }

  class MultilineTableCellRenderer {
    /** `rowColHeight`: the preferred height of every cell rendered so
        far, row by row. */
    var rowColHeight: seq<seq<int>>
    /** The text the renderer shows. */
    var text: string

    constructor ()
      ensures rowColHeight == [] && text == ""
    {
      rowColHeight := [];
      text := "";
    }

    /** `getTableCellRendererComponent`: a missing value is shown empty,
        any other shortened; then the row height is adjusted. Colours,
        fonts and borders are left out. */
    method Render(table: Table, value: Option<string>, row: nat, column: nat, prefH: int)
      requires row < |table.rowHeights|
      modifies this, table
      ensures text == if value.None? then "" else Shorten(value.value)
      ensures Adjusted(old(rowColHeight), rowColHeight, row, column, prefH)
      ensures table.rowHeights == old(table.rowHeights)[row := MaxOf(prefH, rowColHeight[row])]
      ensures table.heightsSet == old(table.heightsSet) +
                if old(table.rowHeights[row]) != MaxOf(prefH, rowColHeight[row])
                then [(row, MaxOf(prefH, rowColHeight[row]))] else []
    {
      if value.Some? {
        text := Shorten(value.value);
      } else {
        text := "";
      }
      AdjustRowHeight(table, row, column, prefH);
    }

    /** The first loop of `adjustRowHeight`: empty rows are added until
        row `row` exists. */
    method GrowRows(row: nat)
      modifies this`rowColHeight
      ensures |rowColHeight| == if |old(rowColHeight)| > row then |old(rowColHeight)| else row + 1
      ensures forall r :: 0 <= r < |rowColHeight| ==>
                rowColHeight[r] == if r < |old(rowColHeight)| then old(rowColHeight)[r] else []
    {
      while |rowColHeight| <= row
        invariant |old(rowColHeight)| <= |rowColHeight| <= (if |old(rowColHeight)| > row then |old(rowColHeight)| else row + 1)
        invariant forall r :: 0 <= r < |rowColHeight| ==>
                    rowColHeight[r] == if r < |old(rowColHeight)| then old(rowColHeight)[r] else []
      {
        rowColHeight := rowColHeight + [[]];
      }
    }

    /** `adjustRowHeight`: the heights table grows to hold the cell, the
        cell's height is recorded, and the row is made as high as its
        tallest cell; the table is only told so when its height differs. */
    method AdjustRowHeight(table: Table, row: nat, column: nat, prefH: int)
      requires row < |table.rowHeights|
      modifies this`rowColHeight, table
      ensures Adjusted(old(rowColHeight), rowColHeight, row, column, prefH)
      ensures table.rowHeights == old(table.rowHeights)[row := MaxOf(prefH, rowColHeight[row])]
      ensures table.heightsSet == old(table.heightsSet) +
                if old(table.rowHeights[row]) != MaxOf(prefH, rowColHeight[row])
                then [(row, MaxOf(prefH, rowColHeight[row]))] else []
    {
      GrowRows(row);
      var colHeights := PadColumns(rowColHeight[row], column);
      colHeights := colHeights[column := prefH];
      rowColHeight := rowColHeight[row := colHeights];
      var maxH := MaxHeight(prefH, colHeights);
      if table.rowHeights[row] != maxH {
        table.SetRowHeight(row, maxH);
      }
    }
  }

  /** The second loop of `adjustRowHeight`: zero heights are added until
      column `column` exists. */
  method PadColumns(colHeights: seq<int>, column: nat) returns (padded: seq<int>)
    ensures |padded| == if |colHeights| > column then |colHeights| else column + 1
    ensures forall c :: 0 <= c < |padded| ==> padded[c] == if c < |colHeights| then colHeights[c] else 0
  {
    padded := colHeights;
    while |padded| <= column
      invariant |colHeights| <= |padded| <= (if |colHeights| > column then |colHeights| else column + 1)
      invariant forall c :: 0 <= c < |padded| ==> padded[c] == if c < |colHeights| then colHeights[c] else 0
    {
      padded := padded + [0];
    }
  }

  /** The maximum loop of `adjustRowHeight`. */
  method MaxHeight(prefH: int, colHeights: seq<int>) returns (maxH: int)
    ensures maxH == MaxOf(prefH, colHeights)
  {
    maxH := prefH;
    var i := 0;
    while i < |colHeights|
      invariant i <= |colHeights|
      invariant maxH == MaxOf(prefH, colHeights[..i])
    {
      assert colHeights[..i + 1][..i] == colHeights[..i];
      if colHeights[i] > maxH {
        maxH := colHeights[i];
      }
      i := i + 1;
    }
    assert colHeights[..i] == colHeights;
  }
}
