/** The traffic generator of the test client (test/client/handler.go): on
    every tick it fills one Cannelloni message with a sequence number taken
    from the tick and twenty raw CAN frames, alternating an integer frame and
    an enum frame built from two random draws. */
module TickerToCannelloni {
  import opened GoTypes

  const INT_FRAME_ID: uint32 := 1000
  const ENUM_FRAME_ID: uint32 := 2000
  /** Loop iterations; each adds one integer and one enum frame. */
  const ROUNDS: nat := 10

  /** processor.CANRawMessage. */
  datatype CANRawMessage = CANRawMessage(canId: uint32, dataLen: int, rawData: seq<uint8>)

  /** ingress.TickerMessage: the number of the tick that fired. */
  datatype TickerMessage = TickerMessage(tickNumber: uint64)

  /** processor.CannelloniMessage, as far as the handler writes it: a
      sequence number and the frames in the order they were added. */
  class CannelloniMessage {
    var sequenceNumber: uint8
    var messages: seq<CANRawMessage>

    method SetSequenceNumber(seqNum: uint8)
      modifies this
      ensures sequenceNumber == seqNum && messages == old(messages)
    {
      sequenceNumber := seqNum;
    }

    method AddMessage(msg: CANRawMessage)
      modifies this
      ensures messages == old(messages) + [msg] && sequenceNumber == old(sequenceNumber)
    {
      messages := messages + [msg];
    }
  }

  /** uint8(tick % 256): the sequence number of a tick, in 0..255. */
  function SequenceNumber(tick: uint64): (seqNum: uint8)
    ensures seqNum as int == tick as int % 256
  {
    (tick as int % 256) as uint8
  }

  /** Consecutive ticks get consecutive sequence numbers, and 255 wraps to 0;
      this holds across the uint64 wrap of the tick counter as well. */
  lemma SequenceNumberWraps(tick: uint64)
    ensures var next := ((tick as int + 1) % TWO_TO_THE_64) as uint64;
      (SequenceNumber(tick) == 255 ==> SequenceNumber(next) == 0) &&
      (SequenceNumber(tick) < 255 ==> SequenceNumber(next) as int == SequenceNumber(tick) as int + 1)
  {
  }

  /** The frame repeating the integer draw in all 8 data bytes. */
  function IntFrame(intVal: uint8): (m: CANRawMessage)
    ensures m.canId == INT_FRAME_ID && m.dataLen == 8 == |m.rawData|
    ensures forall j :: 0 <= j < |m.rawData| ==> m.rawData[j] == intVal
  {
    CANRawMessage(INT_FRAME_ID, 8, [intVal, intVal, intVal, intVal, intVal, intVal, intVal, intVal])
  }

  /** The frame repeating the enum draw in 4 data bytes. */
  function EnumFrame(enumVal: uint8): (m: CANRawMessage)
    ensures m.canId == ENUM_FRAME_ID && m.dataLen == 4 == |m.rawData|
    ensures forall j :: 0 <= j < |m.rawData| ==> m.rawData[j] == enumVal
  {
    CANRawMessage(ENUM_FRAME_ID, 4, [enumVal, enumVal, enumVal, enumVal])
  }

  /** `rounds` pairs of frames: `first` at every even position, `second` at
      every odd one. */
  function Alternate(rounds: nat, first: CANRawMessage, second: CANRawMessage): (r: seq<CANRawMessage>)
    ensures |r| == 2 * rounds
    ensures forall j :: 0 <= j < |r| ==> r[j] == if j % 2 == 0 then first else second
  {
    if rounds == 0 then [] else Alternate(rounds - 1, first, second) + [first, second]
  }

  /** A frame whose advertised length is its payload length, at most 8. */
  predicate WellFormed(m: CANRawMessage) {
    m.dataLen == |m.rawData| <= 8
  }

  /** Every frame the generator builds is well formed, and with the draws
      inside their ranges every payload byte is too: below 255 in an integer
      frame, below 3 in an enum frame. */
  lemma GeneratedFrames(intVal: uint8, enumVal: uint8, j: nat)
    requires intVal < 255 && enumVal < 3
    requires j < 2 * ROUNDS
    ensures var m := Alternate(ROUNDS, IntFrame(intVal), EnumFrame(enumVal))[j];
      WellFormed(m) &&
      (j % 2 == 0 ==> m.canId == INT_FRAME_ID && forall b :: b in m.rawData ==> b < 255) &&
      (j % 2 == 1 ==> m.canId == ENUM_FRAME_ID && forall b :: b in m.rawData ==> b < 3)
  {
  }

  /** tickerToCannelloniHandler.Handle. `intDraw` and `enumDraw` are the
      results of rand.Int32N(255) and rand.Int32N(3). The handler never fails. */
  method Handle(tickerMsg: TickerMessage, cannelloniMsg: CannelloniMessage, intDraw: int32, enumDraw: int32)
    returns (err: Option<Error>)
    requires 0 <= intDraw < 255 && 0 <= enumDraw < 3
    modifies cannelloniMsg
    ensures err == None
    ensures cannelloniMsg.sequenceNumber == SequenceNumber(tickerMsg.tickNumber)
    ensures cannelloniMsg.messages ==
      old(cannelloniMsg.messages) + Alternate(ROUNDS, IntFrame(intDraw as int as uint8), EnumFrame(enumDraw as int as uint8))
  {
    var seqNum := (tickerMsg.tickNumber as int % 256) as uint8;
    cannelloniMsg.SetSequenceNumber(seqNum);

    var intVal := intDraw as int as uint8;
    var enumVal := enumDraw as int as uint8;

    var intMsg := CANRawMessage(INT_FRAME_ID, 8, [intVal, intVal, intVal, intVal, intVal, intVal, intVal, intVal]);
    var enumMsg := CANRawMessage(ENUM_FRAME_ID, 4, [enumVal, enumVal, enumVal, enumVal]);

    for round := 0 to ROUNDS
      invariant cannelloniMsg.sequenceNumber == seqNum
      invariant cannelloniMsg.messages == old(cannelloniMsg.messages) + Alternate(round, intMsg, enumMsg)
    {
      cannelloniMsg.AddMessage(intMsg);
      cannelloniMsg.AddMessage(enumMsg);
    }

    err := None;
  }
}
