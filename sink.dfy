/** The rows handed to the time-series sink, and the column-ordering rule
    of its write protocol: every Symbol column of a row comes before every
    column of another kind. */
module Sink {
  import opened GoTypes

  datatype ColumnKind = Symbol | Int | Bool | Float

  /** A column value; its constructor fixes the column's kind. */
  datatype Value =
    | SymbolValue(s: string)
    | IntValue(i: int64)
    | BoolValue(b: bool)
    | FloatValue(f: Float64)

  /** The column names the row mappers write, and their text on the wire. */
  datatype ColumnName =
    | NameCol | EnumValueCol | CanIdCol | RawValueCol | FlagValueCol | IntegerValueCol | FloatValueCol
  {
    function Text(): string {
      match this
      case NameCol => "name"
      case EnumValueCol => "enum_value"
      case CanIdCol => "can_id"
      case RawValueCol => "raw_value"
      case FlagValueCol => "flag_value"
      case IntegerValueCol => "integer_value"
      case FloatValueCol => "float_value"
    }
  }

  /** Distinct column names are distinct on the wire, so counting names is
      counting the sink's columns. */
  lemma ColumnNameTextInjective(a: ColumnName, b: ColumnName)
    ensures a.Text() == b.Text() <==> a == b
  {
  }

  datatype Column = Column(name: ColumnName, value: Value) {
    function Kind(): ColumnKind {
      match value
      case SymbolValue(_) => Symbol
      case IntValue(_) => Int
      case BoolValue(_) => Bool
      case FloatValue(_) => Float
    }
  }

  datatype Row = Row(table: string, columns: seq<Column>)

  /** The sink's rule: no Symbol column after a non-Symbol column. */
  predicate SymbolsFirst(cols: seq<Column>) {
    forall i, j :: 0 <= i < j < |cols| && cols[j].Kind() == Symbol ==> cols[i].Kind() == Symbol
  }

  function Names(cols: seq<Column>): seq<ColumnName> {
    seq(|cols|, i requires 0 <= i < |cols| => cols[i].name)
  }

  function Kinds(cols: seq<Column>): seq<ColumnKind> {
    seq(|cols|, i requires 0 <= i < |cols| => cols[i].Kind())
  }

  /** How many columns of a row carry the given name. */
  function CountNamed(cols: seq<Column>, name: ColumnName): nat {
    multiset(Names(cols))[name]
  }

  /** The length of the run of Symbol columns a row starts with. */
  function LeadingSymbols(cols: seq<Column>): (k: nat)
    ensures k <= |cols|
    ensures forall i :: 0 <= i < k ==> cols[i].Kind() == Symbol
    ensures k < |cols| ==> cols[k].Kind() != Symbol
  {
    if cols == [] || cols[0].Kind() != Symbol then 0
    else 1 + LeadingSymbols(cols[1..])
  }

  /** The ordering rule, restated: a row is acceptable exactly when it is
      its leading run of Symbol columns followed by no Symbol column. */
  lemma SymbolsFirstIffSplit(cols: seq<Column>)
    ensures SymbolsFirst(cols) <==>
      forall i :: LeadingSymbols(cols) <= i < |cols| ==> cols[i].Kind() != Symbol
  {
  }

  /** A block of Symbol columns followed by a block with none keeps the rule. */
  lemma SymbolsThenOthers(symbols: seq<Column>, others: seq<Column>)
    requires forall i :: 0 <= i < |symbols| ==> symbols[i].Kind() == Symbol
    requires forall i :: 0 <= i < |others| ==> others[i].Kind() != Symbol
    ensures SymbolsFirst(symbols + others)
  {
  }
}
