/** The two objects of goccia's egress package that the CAN message handler
    mutates. Their implementation is not part of this model: a row is taken
    to keep one ordered column list to which `AddSymbol` and `AddColumns`
    append in call order, and a message one ordered list of rows. */
module GocciaEgress {
  import opened Sink

  /** egress.QuestDBRow, built by egress.NewQuestDBRow(table). */
  class QuestDBRow {
    const table: string
    var columns: seq<Column>

    constructor (table: string)
      ensures this.table == table && columns == []
    {
      this.table := table;
      columns := [];
    }

    /** row.AddSymbol(egress.NewQuestDBSymbol(name, value)). */
    method AddSymbol(name: ColumnName, value: string)
      modifies this
      ensures columns == old(columns) + [Column(name, SymbolValue(value))]
    {
      columns := columns + [Column(name, SymbolValue(value))];
    }

    /** row.AddColumns(cols...). */
    method AddColumns(cols: seq<Column>)
      modifies this
      ensures columns == old(columns) + cols
    {
      columns := columns + cols;
    }

    /** The row as the sink receives it. */
    function Value(): Row
      reads this
    {
      Row(table, columns)
    }
  }

  /** The values of a slice of rows, in order. */
  function Values(rows: seq<QuestDBRow>): (r: seq<Row>)
    reads rows
    ensures |r| == |rows| && forall k :: 0 <= k < |rows| ==> r[k] == rows[k].Value()
  {
    if rows == [] then [] else [rows[0].Value()] + Values(rows[1..])
  }

  /** egress.QuestDBMessage: the batch of rows handed to the sink stage. */
  class QuestDBMessage {
    var rows: seq<Row>

    /** qdbMsg.AddRows(rows...): the rows join the batch in slice order. */
    method AddRows(added: seq<QuestDBRow>)
      modifies this
      ensures rows == old(rows) + Values(added)
    {
      rows := rows + Values(added);
    }
  }
}
