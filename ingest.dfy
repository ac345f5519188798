/**
 * What both drafts do with an uploaded table once the CSV parser has read it:
 * the parsed rows, the column list taken from the first row, the options every
 * multi-select offers, and the fixed list of chart types.
 */
module Ingest {

  /** No name occurs twice. */
  predicate Distinct(names: seq<string>) {
    forall i, j :: 0 <= i < j < |names| ==> names[i] != names[j]
  }

  /**
   * One record as the parser delivers it: its keys in enumeration order and a
   * cell for each key. The parser itself is not modelled; a `Row` is any record
   * whose keys are distinct and are exactly the keys of its cells.
   */
  datatype RawRow = RawRow(keys: seq<string>, cells: map<string, string>)

  type Row = r: RawRow | Distinct(r.keys) && r.cells.Keys == set k | k in r.keys
    witness RawRow([], map[])

  /**
   * The column list after a parse completes: the first row's keys when there is
   * a first row, and otherwise the column list the form already had.
   */
  function ParsedColumns(current: seq<string>, rows: seq<Row>): (r: seq<string>)
    ensures |rows| > 0 ==> r == rows[0].keys
    ensures rows == [] ==> r == current
    ensures Distinct(current) ==> Distinct(r)
    ensures |rows| > 0 ==> forall c :: c in r <==> c in rows[0].cells
  {
    if |rows| > 0 then rows[0].keys else current
  }

  /** A choice offered by a multi-select; `caption` is what the source calls its label. */
  datatype SelectOption = SelectOption(caption: string, value: string)

  /**
   * `columns.map(column => ({ label: column, value: column }))`: one option per
   * column, in column order, showing and carrying the column name.
   */
  function SelectOptions(columns: seq<string>): (r: seq<SelectOption>)
    ensures |r| == |columns|
    ensures forall i :: 0 <= i < |columns| ==> r[i].caption == columns[i] && r[i].value == columns[i]
  {
    if columns == [] then [] else [SelectOption(columns[0], columns[0])] + SelectOptions(columns[1..])
  }

  /** The values the options carry, in order. */
  function OptionValues(options: seq<SelectOption>): (r: seq<string>) {
    if options == [] then [] else [options[0].value] + OptionValues(options[1..])
  }

  /** Reading the values back off the options gives the column list again. */
  lemma {:induction false} OptionValuesRoundTrip(columns: seq<string>)
    ensures OptionValues(SelectOptions(columns)) == columns
  {
    if columns != [] {
      OptionValuesRoundTrip(columns[1..]);
    }
  }

  /** An entry of the chart-type picker. */
  datatype ChartTypeItem = ChartTypeItem(caption: string, value: string)

  const ChartTypes: seq<ChartTypeItem> := [
    ChartTypeItem("Bar Chart", "bar"),
    ChartTypeItem("Line Chart", "line"),
    ChartTypeItem("Pie Chart", "pie")
  ]
}
