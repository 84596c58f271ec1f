/** Go's fixed-width integer types, the one conversion between them that
    the row mappers perform, and the `error` result of the handlers. */
module GoTypes {

  const TWO_TO_THE_63: int := 0x8000_0000_0000_0000
  const TWO_TO_THE_64: int := 0x1_0000_0000_0000_0000

  newtype uint8 = x: int | 0 <= x < 0x100
  newtype int32 = x: int | -0x8000_0000 <= x < 0x8000_0000
  newtype uint32 = x: int | 0 <= x < 0x1_0000_0000
  newtype int64 = x: int | -0x8000_0000_0000_0000 <= x < 0x8000_0000_0000_0000
  newtype uint64 = x: int | 0 <= x < 0x1_0000_0000_0000_0000

  /** A float64 is carried through the model as its bit pattern; nothing
      in the modelled code does arithmetic on it. */
  datatype Float64 = Float64Bits(bits: bv64)

  /** A Go `error`: `None` is nil. */
  datatype Error = Error(message: string)
  datatype Option<T> = None | Some(value: T)

  /** Go's `int64(x)` for `x` of type `uint64`: the bit pattern is kept,
      so values from 2^63 on come out negative. */
  function ToInt64(x: uint64): (r: int64)
    ensures x as int < TWO_TO_THE_63 ==> r as int == x as int
    ensures x as int >= TWO_TO_THE_63 ==> r < 0 && r as int == x as int - TWO_TO_THE_64
  {
    if x as int < TWO_TO_THE_63 then x as int as int64
    else (x as int - TWO_TO_THE_64) as int64
  }

  /** Go's `uint64(y)` for `y` of type `int64`, the other direction. */
  function ToUint64(y: int64): (r: uint64)
    ensures y >= 0 ==> r as int == y as int
    ensures y < 0 ==> r as int >= TWO_TO_THE_63
  {
    if y >= 0 then y as int as uint64 else (y as int + TWO_TO_THE_64) as uint64
  }

  /** The conversion loses nothing: converting back gives the raw value. */
  lemma ToInt64RoundTrip(x: uint64)
    ensures ToUint64(ToInt64(x)) == x
  {
  }

  /** ... and so two distinct raw values never share an int64 column value. */
  lemma ToInt64Injective(x: uint64, y: uint64)
    ensures ToInt64(x) == ToInt64(y) <==> x == y
  {
    ToInt64RoundTrip(x);
    ToInt64RoundTrip(y);
  }
}
