/**
 Fixed-width machine integers and an optional value, shared by the model of
 the raw-input keyboard sink.

 Rust's `u8`, `u16` and `u32` are written as newtypes over `int`, so every
 arithmetic step done in one of them is checked by Dafny to stay in range,
 exactly as a debug build of the program would panic on overflow.
 */
module Prelude {

  newtype u8 = x: int | 0 <= x < 0x100
  newtype u16 = x: int | 0 <= x < 0x1_0000
  newtype u32 = x: int | 0 <= x < 0x1_0000_0000

  /** Rust's `x as u8` on a `u16`: the low eight bits are kept, the rest dropped. */
  function NarrowToU8(x: u16): (r: u8)
    ensures r as int <= x as int
    ensures x < 0x100 ==> r as int == x as int
    ensures x >= 0x100 ==> r as int != x as int
  {
    (x % 0x100) as u8
  }

  datatype Option<+T> = None | Some(value: T) {

    /** The carried value, or `default` when there is none. */
    function GetOr(default: T): T {
      match this
      case Some(v) => v
      case None => default
    }
  }
}
