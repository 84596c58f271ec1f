# sc-telemetry row shaping, modelled in Dafny

sc-telemetry receives a vehicle's CAN traffic over UDP as Cannelloni
datagrams. It puts the frames back in order and decodes them into named,
typed signals. Then it writes every signal as one row to QuestDB, a
time-series database. This project models the step that turns decoded
signals into QuestDB rows. It also models the test client's traffic
generator.

- `internal/handler.go` is the row mapper of the goccia pipeline. Its table
  choice (`getTable`) and its row construction are modelled in
  `can_message_handler.dfy`.
- `pkg/qdb_handler.go` is the row mapper of the acmetel pipeline. It is
  modelled in `questdb_handler.dfy`.
- `test/client/handler.go` builds one Cannelloni message per tick. It is
  modelled in `ticker_handler.dfy`.
- `sink.dfy` holds the row and column values and QuestDB's ordering rule.
  The rule is that no Symbol column may follow a non-Symbol column in a row.
- `go_types.dfy` holds Go's fixed-width integers and the `int64(uint64)`
  conversion.
- The library objects that the handlers change in place are classes with a
  `seq` field. The goccia rows and messages are in `goccia_egress.dfy`.
  The acmetel rows and results are in `acmetel_questdb.dfy`.

Each row mapper's `Handle` is a method with the source's loop. The loop is
proved against a function `SignalRow`, which writes out each signal's row per
value type or table. The lemmas state the properties of those rows. Both rows keep the
ordering rule, and both have exact column layouts. The two handlers give the
same row for the same signal (`QuestDBHandler.SameRowAsGoccia`). The columns
agree outright. The table names agree only under the assumption about
`CANSignalTable.String()` stated under "## Left out". The lemma uses a helper,
`QuestDBHandler.FromGoccia`, which builds the acmetel signal that carries a
goccia signal's data; neither program makes that conversion. The row
construction inside each loop body is a separate method, `NewSignalRow`.
This keeps each proof small. The generator's `Handle` is proved against
`TickerToCannelloni.Alternate` for its frames and
`TickerToCannelloni.SequenceNumber` for the message header.

The handler structs hold no state, so their methods are module-level
methods. `QuestDBHandler.Close` has an empty body, like the source
(pkg/qdb_handler.go:59). It has no `modifies` clause, so it changes nothing.
It promises nothing else, so it has no row below.

## Model

| member | source | states |
|---|---|---|
| `GoTypes.ToInt64` | internal/handler.go:33 | Go's `int64(x)` on a `uint64` keeps the value below 2^63 and subtracts 2^64 from it otherwise, giving a negative result |
| `GoTypes.ToInt64RoundTrip` | internal/handler.go:33 | converting the int64 back to uint64 gives the original raw value, so nothing is lost |
| `GoTypes.ToInt64Injective` | internal/handler.go:33 | two raw values share an int64 `raw_value` exactly when they are equal |
| `Sink.ColumnNameTextInjective` | internal/handler.go:26-50 | the seven column names the handlers write are pairwise distinct strings |
| `Sink.LeadingSymbols` | internal/handler.go:28-30 | the length of a row's leading run of Symbol columns: everything before it is Symbol, and the column right after it is not |
| `Sink.SymbolsFirstIffSplit` | internal/handler.go:28-30 | a row keeps the sink's rule exactly when no Symbol column follows its leading Symbol run (both directions) |
| `Sink.SymbolsThenOthers` | internal/handler.go:26-50 | any row made of a block of Symbol columns followed by a block with no Symbol keeps the rule; `CANMessageHandler.SignalRow` gets its ordering guarantee from it, since the goccia handler adds its Symbols first and the held-back columns after |
| `GocciaEgress.QuestDBRow.constructor` | internal/handler.go:24 | a new row has the given table and no columns |
| `GocciaEgress.QuestDBRow.AddSymbol` | internal/handler.go:26 | adds one Symbol column after the existing ones and changes nothing else |
| `GocciaEgress.QuestDBRow.AddColumns` | internal/handler.go:50 | adds the given columns, in order, after the existing ones |
| `GocciaEgress.QuestDBMessage.AddRows` | internal/handler.go:54 | the message's rows become the old rows followed by the given rows, in slice order |
| `CANMessageHandler.GetTable` | internal/handler.go:59-72 | Flag, Int, Float and Enum go to `flag_signals`, `int_signals`, `float_signals` and `enum_signals`, and any other type goes to `unknown_signals`; each is an if-and-only-if, so no two of the five cases share a table |
| `CANMessageHandler.SignalRow` | internal/handler.go:24-50 | the row goes to `getTable(sig.Type)`, starts with the Symbol `name` = `sig.Name`, and keeps the sink's ordering rule |
| `CANMessageHandler.SignalRowShape` | internal/handler.go:31-50 | Enum gives exactly `name`, `enum_value` (Symbols), `can_id`, `raw_value` (Ints), with the label in `enum_value`. Flag, Int and Float give `name`, `can_id`, `raw_value` and then `flag_value` (Bool), `integer_value` (Int) or `float_value` (Float) holding the signal's value. Any other type gives only `name`, `can_id`, `raw_value` |
| `CANMessageHandler.SignalRowIds` | internal/handler.go:32-33 | `can_id` and `raw_value` occur exactly once in every row and hold `int64(sig.CANID)` and `int64(sig.RawValue)` |
| `CANMessageHandler.NewSignalRow` | internal/handler.go:22-50 | the loop body returns a new row object whose contents are exactly `SignalRow(sig)` |
| `CANMessageHandler.Handle` | internal/handler.go:18-57 | returns nil; appends exactly one row per signal to the message, in signal order, with row k equal to `SignalRow(signals[k])`; keeps the rows already there |
| `AcmetelQuestDB.Row.constructor` | pkg/qdb_handler.go:26 | a new row has the given table and no columns |
| `AcmetelQuestDB.Row.AddColumn` | pkg/qdb_handler.go:28 | adds one column after the existing ones |
| `AcmetelQuestDB.NewResult` | pkg/qdb_handler.go:56 | the result holds the rows' contents, one for each row, in slice order |
| `QuestDBHandler.SignalRow` | pkg/qdb_handler.go:24-51 | the row goes to `sig.Table.String()`, starts with the Symbol `name` = `sig.Name`, and keeps the sink's ordering rule |
| `QuestDBHandler.SignalRowShape` | pkg/qdb_handler.go:32-51 | the Enum table gives exactly `name`, `enum_value`, `can_id`, `raw_value`. Flag, Int and Float tables give `name`, `can_id`, `raw_value` followed by exactly one of `flag_value` (Bool), `integer_value` (Int) or `float_value` (Float). Any other table gives `name`, `can_id`, `raw_value` |
| `QuestDBHandler.SignalRowIds` | pkg/qdb_handler.go:32-35 | whatever the table, `can_id` and `raw_value` each occur exactly once and hold `sig.CANID` and `sig.RawValue` |
| `QuestDBHandler.Init` | pkg/qdb_handler.go:16-18 | always succeeds |
| `QuestDBHandler.NewSignalRow` | pkg/qdb_handler.go:24-51 | the loop body returns a new row object whose contents are exactly `SignalRow(sig)` |
| `QuestDBHandler.Handle` | pkg/qdb_handler.go:20-57 | never returns an error; the result has one row per signal, in signal order, with row k equal to `SignalRow(signals[k])` |
| `QuestDBHandler.SameRowAsGoccia` | pkg/qdb_handler.go:28-51 | for the same signal, the acmetel handler's single append-only list gives exactly the row that the goccia handler builds from its two lists |
| `TickerToCannelloni.CannelloniMessage.SetSequenceNumber` | test/client/handler.go:29 | sets the sequence number and leaves the frames alone |
| `TickerToCannelloni.CannelloniMessage.AddMessage` | test/client/handler.go:53-54 | adds one frame after the existing ones and leaves the sequence number alone |
| `TickerToCannelloni.SequenceNumber` | test/client/handler.go:28 | the sequence number is the tick number mod 256, so it lies in 0..255 |
| `TickerToCannelloni.SequenceNumberWraps` | test/client/handler.go:28 | consecutive ticks get consecutive sequence numbers, except that 255 is followed by 0; this holds for every tick, including the uint64 wrap of the tick counter |
| `TickerToCannelloni.IntFrame` | test/client/handler.go:38-42 | CAN id 1000, `DataLen` 8, 8 payload bytes, all equal to the integer draw |
| `TickerToCannelloni.EnumFrame` | test/client/handler.go:44-48 | CAN id 2000, `DataLen` 4, 4 payload bytes, all equal to the enum draw |
| `TickerToCannelloni.Alternate` | test/client/handler.go:52-55 | n rounds give 2n frames, with the first frame at every even position and the second at every odd one |
| `TickerToCannelloni.GeneratedFrames` | test/client/handler.go:32-48 | every generated frame has `DataLen` equal to its payload length and at most 8. If the draws are in range, every payload byte is below 255 in an int frame and below 3 in an enum frame |
| `TickerToCannelloni.Handle` | test/client/handler.go:26-58 | returns nil; sets the sequence number to `SequenceNumber(TickNumber)`; appends exactly 20 frames that alternate int frame, enum frame, starting with the int frame; keeps the frames already there |

## Left out

- Decoding, reordering, transport and pipeline wiring are left out. This
  covers the Cannelloni codec, the reorder buffer, the ring-buffer connectors,
  the stage and worker-pool runner and CAN bit-field decoding. They live in the
  goccia and acmetel libraries, and cmd/main.go:41-64 only builds and
  connects them. Those libraries are not part of this model.
- The library row objects are not modelled from source. The implementation of
  goccia's `egress.QuestDBRow`, `egress.QuestDBMessage` and acmetel's
  `questdb.Row` and `questdb.NewResult` is not part of this model. The model
  assumes two things. `AddSymbol`, `AddColumns` and `AddColumn` append to one
  ordered column list, in call order. `AddRows` and `NewResult` keep the
  rows in slice order.
- Rows and frames are handed over by value. `GocciaEgress.QuestDBMessage.AddRows`
  and `AcmetelQuestDB.NewResult` store the rows' contents, not references to
  the row objects. The handlers never touch a row after handing it over, so
  the two are the same here. In the test client, the 10 integer frames share
  one `RawData` backing array, and so do the 10 enum frames
  (test/client/handler.go:41,47,53-54). The model's `seq<uint8>` payloads do
  not capture this sharing. Aliasing of rows and payloads is not modelled.
- The Cannelloni message is not modelled from source. goccia's
  `processor.CannelloniMessage` is not part of this model.
  `TickerToCannelloni.CannelloniMessage` assumes two things.
  `SetSequenceNumber` only sets the number. `AddMessage` only appends the
  frame after the existing ones, in call order. The contract of
  `TickerToCannelloni.Handle` rests on these assumptions.
- `CANSignalTable.String()` comes from the acmetel `can` package and is not
  part of this model. It is taken to give `flag_signals`, `int_signals`,
  `float_signals` and `enum_signals` for the four known tables, and
  `unknown_signals` otherwise. These are the names the goccia handler's
  `getTable` uses.
- Field types of the library structs are assumptions, since those structs
  are not part of this model:
  - the goccia `CANSignal.CANID` is taken as `uint32`, which makes
    `int64(sig.CANID)` exact;
  - the goccia `CANSignal.RawValue` is taken as `uint64` (the decoded raw
    value), so `int64(sig.RawValue)` turns values from 2^63 on into negative
    numbers;
  - the acmetel signal's `CANID` and `RawValue` are taken as `int64`, the type
    `questdb.NewIntColumn` takes;
  - `TickerMessage.TickNumber` is taken as `uint64`.
- Column names are an enumeration of the seven names the handlers write.
  `Sink.ColumnName.Text` gives the strings, and
  `Sink.ColumnNameTextInjective` shows they are distinct.
- Float values in `float_value` columns are carried as a 64-bit pattern,
  with no arithmetic.
- The context argument and the preallocated slice capacities
  (`canMsg.SignalCount`, `make(..., 0, 3)`) are left out. They do not affect
  any output.
- Randomness in test/client/handler.go:32-33 is left out. The two
  `rand.Int32N` draws are parameters of `TickerToCannelloni.Handle`, and
  their ranges (0..254 and 0..2) are its preconditions.
- The handler's unused atomic `sequenceNumber` field
  (test/client/handler.go:15) is left out.
- The generator's trivial `Init` and `Close` are left out. So are the goccia
  handler's methods inherited from `processor.CustomHandlerBase`.
- `pkg/config.go`, `pkg/telemetry.go`, `pkg/utils.go`, `cmd/main.go` and
  `test/client/main.go` are left out. They do configuration loading, DBC
  file parsing, telemetry export, network probing and process wiring, which
  are all I/O.
