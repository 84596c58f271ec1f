/** The row mapper of the acmetel pipeline (pkg/qdb_handler.go): the same
    row shape as the goccia handler, built by appending to one column list,
    with the table taken from the signal itself. */
module QuestDBHandler {
  import opened GoTypes
  import opened Sink
  import AcmetelQuestDB
  import CANMessageHandler

  /** can.CANSignalTable; `TableOther` stands for every value of the type
      besides the four the handler names. The handler treats all of
      those alike, so the model does not keep which one it was. */
  datatype CANSignalTable = TableFlag | TableInt | TableFloat | TableEnum | TableOther {
    /** table.String(). The method is not part of this model; it is taken to
        give the table names that the goccia handler's getTable gives. */
    function String(): string {
      match this
      case TableFlag => "flag_signals"
      case TableInt => "int_signals"
      case TableFloat => "float_signals"
      case TableEnum => "enum_signals"
      case TableOther => "unknown_signals"
    }
  }

  /** can.Signal: the fields of a decoded signal that the handler reads. */
  datatype Signal = Signal(
    canId: int64,
    name: string,
    rawValue: int64,
    table: CANSignalTable,
    valueFlag: bool,
    valueInt: int64,
    valueFloat: Float64,
    valueEnum: string)

  /** can.Message: a batch of decoded signals. */
  datatype Message = Message(signals: seq<Signal>)

  function NameColumn(sig: Signal): Column { Column(NameCol, SymbolValue(sig.name)) }
  function CanIdColumn(sig: Signal): Column { Column(CanIdCol, IntValue(sig.canId)) }
  function RawValueColumn(sig: Signal): Column { Column(RawValueCol, IntValue(sig.rawValue)) }

  /** The row the handler builds for one signal, written out per table: it
      goes to the signal's table and keeps the sink's ordering rule. */
  function SignalRow(sig: Signal): (r: Row)
    ensures r.table == sig.table.String()
    ensures SymbolsFirst(r.columns)
    ensures |r.columns| >= 3 && r.columns[0] == NameColumn(sig)
  {
    var columns :=
      match sig.table
      case TableEnum =>
        [NameColumn(sig), Column(EnumValueCol, SymbolValue(sig.valueEnum)), CanIdColumn(sig), RawValueColumn(sig)]
      case TableFlag =>
        [NameColumn(sig), CanIdColumn(sig), RawValueColumn(sig), Column(FlagValueCol, BoolValue(sig.valueFlag))]
      case TableInt =>
        [NameColumn(sig), CanIdColumn(sig), RawValueColumn(sig), Column(IntegerValueCol, IntValue(sig.valueInt))]
      case TableFloat =>
        [NameColumn(sig), CanIdColumn(sig), RawValueColumn(sig), Column(FloatValueCol, FloatValue(sig.valueFloat))]
      case TableOther =>
        [NameColumn(sig), CanIdColumn(sig), RawValueColumn(sig)];
    Row(sig.table.String(), columns)
  }

  /** The exact column layout per table. */
  lemma SignalRowShape(sig: Signal)
    ensures var r := SignalRow(sig);
      match sig.table
      case TableEnum =>
        Names(r.columns) == [NameCol, EnumValueCol, CanIdCol, RawValueCol] &&
        Kinds(r.columns) == [Symbol, Symbol, Int, Int] &&
        r.columns[1].value == SymbolValue(sig.valueEnum)
      case TableFlag =>
        Names(r.columns) == [NameCol, CanIdCol, RawValueCol, FlagValueCol] &&
        Kinds(r.columns) == [Symbol, Int, Int, Bool] &&
        r.columns[3].value == BoolValue(sig.valueFlag)
      case TableInt =>
        Names(r.columns) == [NameCol, CanIdCol, RawValueCol, IntegerValueCol] &&
        Kinds(r.columns) == [Symbol, Int, Int, Int] &&
        r.columns[3].value == IntValue(sig.valueInt)
      case TableFloat =>
        Names(r.columns) == [NameCol, CanIdCol, RawValueCol, FloatValueCol] &&
        Kinds(r.columns) == [Symbol, Int, Int, Float] &&
        r.columns[3].value == FloatValue(sig.valueFloat)
      case TableOther =>
        Names(r.columns) == [NameCol, CanIdCol, RawValueCol] &&
        Kinds(r.columns) == [Symbol, Int, Int]
  {
  }

  /** Whatever the table, can_id and raw_value occur exactly once, carrying
      the signal's CAN id and raw value. */
  lemma SignalRowIds(sig: Signal)
    ensures var r := SignalRow(sig);
      CountNamed(r.columns, CanIdCol) == 1 && CountNamed(r.columns, RawValueCol) == 1 &&
      CanIdColumn(sig) in r.columns && RawValueColumn(sig) in r.columns
  {
    SignalRowShape(sig);
  }

  /** QuestDBHandler.Init: nothing to set up, so it always succeeds. */
  method Init() returns (err: Option<Error>)
    ensures err == None
  {
    err := None;
  }

  /** The loop body of QuestDBHandler.Handle: one row, built column by
      column in the order the sink needs. */
  method NewSignalRow(sig: Signal) returns (row: AcmetelQuestDB.Row)
    ensures fresh(row) && row.Value() == SignalRow(sig)
  {
    var table := sig.table;

    row := new AcmetelQuestDB.Row(table.String());
    row.AddColumn(Column(NameCol, SymbolValue(sig.name)));

    // an enum row takes its enum_value Symbol ahead of can_id and raw_value
    if table != TableEnum {
      row.AddColumn(Column(CanIdCol, IntValue(sig.canId)));
      row.AddColumn(Column(RawValueCol, IntValue(sig.rawValue)));
    }

    match table {
      case TableFlag =>
        row.AddColumn(Column(FlagValueCol, BoolValue(sig.valueFlag)));
      case TableInt =>
        row.AddColumn(Column(IntegerValueCol, IntValue(sig.valueInt)));
      case TableFloat =>
        row.AddColumn(Column(FloatValueCol, FloatValue(sig.valueFloat)));
      case TableEnum =>
        row.AddColumn(Column(EnumValueCol, SymbolValue(sig.valueEnum)));
        row.AddColumn(Column(CanIdCol, IntValue(sig.canId)));
        row.AddColumn(Column(RawValueCol, IntValue(sig.rawValue)));
      case TableOther =>
    }

  }

  /** QuestDBHandler.Handle: one row per signal, in signal order; never fails. */
  method Handle(canMsgBatch: Message) returns (res: AcmetelQuestDB.Result, err: Option<Error>)
    ensures err == None
    ensures |res.rows| == |canMsgBatch.signals|
    ensures forall k :: 0 <= k < |canMsgBatch.signals| ==> res.rows[k] == SignalRow(canMsgBatch.signals[k])
  {
    var rows: seq<AcmetelQuestDB.Row> := [];
    for i := 0 to |canMsgBatch.signals|
      invariant |rows| == i
      invariant forall k :: 0 <= k < i ==> rows[k].Value() == SignalRow(canMsgBatch.signals[k])
    {
      var row := NewSignalRow(canMsgBatch.signals[i]);
      rows := rows + [row];
    }

    res := AcmetelQuestDB.NewResult(rows);
    err := None;
  }

  /** QuestDBHandler.Close: nothing to release. */
  method Close()
  {
  }

  /** Helper of SameRowAsGoccia, not an operation of either handler: the
      acmetel signal carrying the same data as a goccia signal, with the
      value type's bucket as its table and the integers converted to int64.
      Its table name agrees with getTable only because String() is taken to
      give getTable's names. */
  function FromGoccia(sig: CANMessageHandler.CANSignal): (s: Signal)
    ensures s.table.String() == CANMessageHandler.GetTable(sig.valueType)
  {
    var table :=
      match sig.valueType
      case TypeFlag => TableFlag
      case TypeInt => TableInt
      case TypeFloat => TableFloat
      case TypeEnum => TableEnum
      case TypeOther => TableOther;
    Signal(sig.canId as int as int64, sig.name, ToInt64(sig.rawValue), table,
           sig.valueFlag, sig.valueInt, sig.valueFloat, sig.valueEnum)
  }

  /** The two handlers agree: for the same signal, the acmetel handler's
      single append-only column list gives exactly the row the goccia
      handler assembles from its two lists. The columns agree outright; the
      table agrees under the assumption made about String(). */
  lemma SameRowAsGoccia(sig: CANMessageHandler.CANSignal)
    ensures SignalRow(FromGoccia(sig)) == CANMessageHandler.SignalRow(sig)
  {
  }
}
