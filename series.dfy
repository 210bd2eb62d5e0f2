/**
 * The price history as the pipeline receives it: one row per trading day, holding the
 * row's date and its closing price.
 */
module MarketData {

  /** A calendar date, as a day number; only its order matters to the model. */
  type Date = int

  datatype Row = Row(date: Date, close: real)

  /** The `Close` column of a set of rows, in row order. */
  function Closes(rows: seq<Row>): (c: seq<real>)
    ensures |c| == |rows|
    ensures forall i :: 0 <= i < |rows| ==> c[i] == rows[i].close
  {
    if rows == [] then [] else [rows[0].close] + Closes(rows[1..])
  }

  /** Dates strictly increase along the rows, as they do in a downloaded history. */
  ghost predicate ChronologicalOrder(rows: seq<Row>)
  {
    forall i, j :: 0 <= i < j < |rows| ==> rows[i].date < rows[j].date
  }
}
