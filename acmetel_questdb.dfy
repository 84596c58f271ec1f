/** The row and result types of acmetel's questdb package, as the QuestDB
    handler uses them. Their implementation is not part of this model: a row
    is taken to keep its columns in the order `AddColumn` was called. */
module AcmetelQuestDB {
  import Sink

  /** questdb.Row, built by questdb.NewRow(table). */
  class Row {
    const table: string
    var columns: seq<Sink.Column>

    constructor (table: string)
      ensures this.table == table && columns == []
    {
      this.table := table;
      columns := [];
    }

    /** row.AddColumn(col): the column goes after every column added so far. */
    method AddColumn(col: Sink.Column)
      modifies this
      ensures columns == old(columns) + [col]
    {
      columns := columns + [col];
    }

    /** The row as the sink receives it. */
    function Value(): Sink.Row
      reads this
    {
      Sink.Row(table, columns)
    }
  }

  /** questdb.Result: the rows handed on to the sink stage. */
  datatype Result = Result(rows: seq<Sink.Row>)

  /** questdb.NewResult(rows...): the rows, in slice order. */
  function NewResult(rows: seq<Row>): (r: Result)
    reads rows
    ensures |r.rows| == |rows|
    ensures forall k :: 0 <= k < |rows| ==> r.rows[k] == rows[k].Value()
  {
    if rows == [] then Result([]) else Result([rows[0].Value()] + NewResult(rows[1..]).rows)
  }
}
