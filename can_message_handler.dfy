/** The row mapper of the goccia pipeline (internal/handler.go): every decoded
    CAN signal becomes one sink row whose table follows the signal's value
    type and whose Symbol columns all come first. */
module CANMessageHandler {
  import opened GoTypes
  import opened Sink
  import opened GocciaEgress

  /** processor.CANSignalValueType; `TypeOther` stands for every value of the
      type besides the four the handler names. The handler treats all of
      those alike, so the model does not keep which one it was. */
  datatype CANSignalValueType = TypeFlag | TypeInt | TypeFloat | TypeEnum | TypeOther

  /** processor.CANSignal: the fields of a decoded signal that the handler reads. */
  datatype CANSignal = CANSignal(
    canId: uint32,
    name: string,
    rawValue: uint64,
    valueType: CANSignalValueType,
    valueFlag: bool,
    valueInt: int64,
    valueFloat: Float64,
    valueEnum: string)

  /** processor.CANMessage: the signals decoded from one CAN frame. */
  datatype CANMessage = CANMessage(signals: seq<CANSignal>)

  /** getTable: each known value type has its own table, every other type
      shares `unknown_signals`. */
  function GetTable(valType: CANSignalValueType): (table: string)
    ensures valType == TypeFlag <==> table == "flag_signals"
    ensures valType == TypeInt <==> table == "int_signals"
    ensures valType == TypeFloat <==> table == "float_signals"
    ensures valType == TypeEnum <==> table == "enum_signals"
    ensures valType.TypeOther? <==> table == "unknown_signals"
  {
    match valType
    case TypeFlag => "flag_signals"
    case TypeInt => "int_signals"
    case TypeFloat => "float_signals"
    case TypeEnum => "enum_signals"
    case TypeOther => "unknown_signals"
  }

  function NameColumn(sig: CANSignal): Column { Column(NameCol, SymbolValue(sig.name)) }
  function CanIdColumn(sig: CANSignal): Column { Column(CanIdCol, IntValue(sig.canId as int as int64)) }
  function RawValueColumn(sig: CANSignal): Column { Column(RawValueCol, IntValue(ToInt64(sig.rawValue))) }

  /** The row the handler builds for one signal, written out per value type:
      it goes to the value type's table and keeps the sink's ordering rule. */
  function SignalRow(sig: CANSignal): (r: Row)
    ensures r.table == GetTable(sig.valueType)
    ensures SymbolsFirst(r.columns)
    ensures |r.columns| >= 3 && r.columns[0] == NameColumn(sig)
  {
    // the Symbols added through AddSymbol, then the held-back columns
    var symbols :=
      if sig.valueType == TypeEnum then [NameColumn(sig), Column(EnumValueCol, SymbolValue(sig.valueEnum))]
      else [NameColumn(sig)];
    var held :=
      match sig.valueType
      case TypeFlag => [CanIdColumn(sig), RawValueColumn(sig), Column(FlagValueCol, BoolValue(sig.valueFlag))]
      case TypeInt => [CanIdColumn(sig), RawValueColumn(sig), Column(IntegerValueCol, IntValue(sig.valueInt))]
      case TypeFloat => [CanIdColumn(sig), RawValueColumn(sig), Column(FloatValueCol, FloatValue(sig.valueFloat))]
      case _ => [CanIdColumn(sig), RawValueColumn(sig)];
    SymbolsThenOthers(symbols, held);
    Row(GetTable(sig.valueType), symbols + held)
  }

  /** The exact column layout per value type: an Enum row carries its label
      as a second Symbol ahead of the two integer columns; a Flag, Int or
      Float row ends with one typed value column; any other row has none. */
  lemma SignalRowShape(sig: CANSignal)
    ensures var r := SignalRow(sig);
      match sig.valueType
      case TypeEnum =>
        Names(r.columns) == [NameCol, EnumValueCol, CanIdCol, RawValueCol] &&
        Kinds(r.columns) == [Symbol, Symbol, Int, Int] &&
        r.columns[1].value == SymbolValue(sig.valueEnum)
      case TypeFlag =>
        Names(r.columns) == [NameCol, CanIdCol, RawValueCol, FlagValueCol] &&
        Kinds(r.columns) == [Symbol, Int, Int, Bool] &&
        r.columns[3].value == BoolValue(sig.valueFlag)
      case TypeInt =>
        Names(r.columns) == [NameCol, CanIdCol, RawValueCol, IntegerValueCol] &&
        Kinds(r.columns) == [Symbol, Int, Int, Int] &&
        r.columns[3].value == IntValue(sig.valueInt)
      case TypeFloat =>
        Names(r.columns) == [NameCol, CanIdCol, RawValueCol, FloatValueCol] &&
        Kinds(r.columns) == [Symbol, Int, Int, Float] &&
        r.columns[3].value == FloatValue(sig.valueFloat)
      case TypeOther =>
        Names(r.columns) == [NameCol, CanIdCol, RawValueCol] &&
        Kinds(r.columns) == [Symbol, Int, Int]
  {
  }

  /** Whatever the value type, can_id and raw_value occur exactly once and
      carry the frame id and the raw value converted to int64. */
  lemma SignalRowIds(sig: CANSignal)
    ensures var r := SignalRow(sig);
      CountNamed(r.columns, CanIdCol) == 1 && CountNamed(r.columns, RawValueCol) == 1 &&
      CanIdColumn(sig) in r.columns && RawValueColumn(sig) in r.columns
  {
    SignalRowShape(sig);
  }

  /** The loop body of CANMessageHandler.Handle: one row, its Symbols added
      first and its integer and typed columns held back until then. */
  method NewSignalRow(sig: CANSignal) returns (row: QuestDBRow)
    ensures fresh(row) && row.Value() == SignalRow(sig)
  {
    var valType := sig.valueType;

    row := new QuestDBRow(GetTable(valType));
    row.AddSymbol(NameCol, sig.name);

    // can_id and raw_value wait in `columns` so that an enum_value Symbol
    // can still go in ahead of them
    var columns: seq<Column> := [];
    columns := columns + [Column(CanIdCol, IntValue(sig.canId as int as int64))];
    columns := columns + [Column(RawValueCol, IntValue(ToInt64(sig.rawValue)))];
    assert columns == [CanIdColumn(sig), RawValueColumn(sig)];

    match valType {
      case TypeFlag =>
        columns := columns + [Column(FlagValueCol, BoolValue(sig.valueFlag))];
      case TypeInt =>
        columns := columns + [Column(IntegerValueCol, IntValue(sig.valueInt))];
      case TypeFloat =>
        columns := columns + [Column(FloatValueCol, FloatValue(sig.valueFloat))];
      case TypeEnum =>
        row.AddSymbol(EnumValueCol, sig.valueEnum);
      case TypeOther =>
    }

    row.AddColumns(columns);
  }

  /** CANMessageHandler.Handle: one row per signal, in signal order, added to
      the outgoing message in one batch; the handler never fails. */
  method Handle(canMsg: CANMessage, qdbMsg: QuestDBMessage) returns (err: Option<Error>)
    modifies qdbMsg
    ensures err == None
    ensures |qdbMsg.rows| == |old(qdbMsg.rows)| + |canMsg.signals|
    ensures qdbMsg.rows[..|old(qdbMsg.rows)|] == old(qdbMsg.rows)
    ensures forall k :: 0 <= k < |canMsg.signals| ==>
      qdbMsg.rows[|old(qdbMsg.rows)| + k] == SignalRow(canMsg.signals[k])
  {
    var rows: seq<QuestDBRow> := [];
    for i := 0 to |canMsg.signals|
      invariant qdbMsg.rows == old(qdbMsg.rows)
      invariant |rows| == i
      invariant forall k :: 0 <= k < i ==> rows[k].Value() == SignalRow(canMsg.signals[k])
    {
      var row := NewSignalRow(canMsg.signals[i]);
      rows := rows + [row];
    }

    qdbMsg.AddRows(rows);
    err := None;
  }
}
