/**
 * A pandas DataFrame as the plot builders see it: an ordered index and an
 * ordered sequence of named columns. The numbers in it are passed through
 * to the plot untouched, so a cell is only ever a number or a label text.
 */
module Tables {
  import opened Wrappers

  /** One entry of an index or a column. */
  datatype Cell = Number(x: real) | Str(text: string)

  /** A named column: `name` is the column label, `values` its entries in index order. */
  datatype Column = Column(name: string, values: seq<Cell>)

  datatype Table = Table(index: seq<Cell>, columns: seq<Column>)
  {
    /** Every column has one entry per index row, as in any DataFrame. */
    predicate Rectangular()
    {
      forall k :: 0 <= k < |columns| ==> |columns[k].values| == |index|
    }
  }

  /** `table[name]`: the first column with that label, or None (pandas raises KeyError). */
  function Lookup(columns: seq<Column>, name: string): (r: Option<Column>)
    ensures r.Some? ==> r.value in columns && r.value.name == name
    ensures r.None? ==> forall k :: 0 <= k < |columns| ==> columns[k].name != name
    decreases |columns|
  {
    if columns == [] then None
    else if columns[0].name == name then Some(columns[0])
    else Lookup(columns[1..], name)
  }
}
