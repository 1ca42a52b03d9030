/** Bytes and the small result types the other modules share. Go strings are
    byte strings, so every text in the model is a `Bytes`. */
module Basics {
  type byte = b: int | 0 <= b < 0x100
  type Bytes = seq<byte>

  type int32 = i: int | -0x8000_0000 <= i < 0x8000_0000
  type uint32 = n: int | 0 <= n < 0x1_0000_0000

  type Uuid = u: seq<byte> | |u| == 16 witness seq(16, _ => 0)

  datatype Option<+T> = None | Some(value: T)

  datatype Result<+T, +E> = Ok(value: T) | Err(error: E)
}
