/** Fixed-width integers and the two result wrappers the other modules share. */
module Numbers {
  const U64_MAX: int := 0xFFFF_FFFF_FFFF_FFFF

  type U64 = x: int | 0 <= x <= U64_MAX
  type Byte = x: int | 0 <= x < 256

  function SaturatingAdd(a: U64, b: U64): U64 {
    if a + b <= U64_MAX then a + b else U64_MAX
  }

  /** Rust's `u64::saturating_sub`; on clocks only, so any natural will do. */
  function SaturatingSub(a: nat, b: nat): nat {
    if b <= a then a - b else 0
  }

  datatype Option<+T> = None | Some(value: T)

  datatype Result<+T, +E> = Ok(value: T) | Err(error: E) {
    predicate IsFailure() {
      Err?
    }

    function PropagateFailure<U>(): Result<U, E>
      requires Err?
    {
      Err(error)
    }

    function Extract(): T
      requires Ok?
    {
      value
    }
  }
}
