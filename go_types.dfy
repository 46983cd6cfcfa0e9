/** Go's fixed-width integers, its `error` values and its run-time panics, as the rest of the
    model uses them. A Go `error` is `Option<Error>`: `None` is `nil`. */
module GoTypes {

  const TWO_POW_31: int := 0x8000_0000
  const TWO_POW_32: int := 0x1_0000_0000
  const TWO_POW_63: int := 0x8000_0000_0000_0000

  newtype int32 = x: int | -TWO_POW_31 <= x < TWO_POW_31
  newtype int64 = x: int | -TWO_POW_63 <= x < TWO_POW_63
  newtype uint32 = x: int | 0 <= x < TWO_POW_32

  /** A Go `[]byte`, one char per byte; a nil slice is the empty sequence. */
  type Bytes = string

  datatype Option<+T> = None | Some(value: T)

  datatype Result<+T, +E> = Success(value: T) | Failure(error: E)

  /** A non-nil Go error, identified by the text its Error() method returns. */
  datatype Error = Error(message: string)

  /** Go's run-time panics that the modelled code can reach. */
  datatype Panic =
    | SliceOutOfRange(low: int, high: int, length: int)
    | IndexOutOfRange(index: int, length: int)

  /** What a Go computation does: return a value, or panic. */
  datatype Outcome<+T> = Returned(value: T) | Panicked(panic: Panic)

  /** Go's conversion `int32(x)` of a 64-bit `int`: keeps the low 32 bits, two's complement. */
  function Int32Of(x: int64): (r: int32)
    ensures (r as int - x as int) % TWO_POW_32 == 0
  {
    var m := (x as int) % TWO_POW_32;
    if m < TWO_POW_31 then m as int32 else (m - TWO_POW_32) as int32
  }

  predicate FitsInt32(x: int64) {
    -TWO_POW_31 <= x as int < TWO_POW_31
  }

  /** Converting to int32 and back to int is the identity exactly on the values int32 can hold. */
  lemma Int32RoundTrip(x: int64)
    ensures Int32Of(x) as int == x as int <==> FitsInt32(x)
  {
    var m := (x as int) % TWO_POW_32;
    if FitsInt32(x) {
      if x >= 0 {
        assert m == x as int;
      } else {
        assert (x as int) + TWO_POW_32 == m;
      }
    }
  }

  /** The conversion loses information: the first value past int32's range arrives as its minimum. */
  lemma Int32Truncates()
    ensures Int32Of(TWO_POW_31 as int64) as int == -TWO_POW_31
    ensures Int32Of(-TWO_POW_31 as int64 - 1) as int == TWO_POW_31 - 1
  {
  }
}
