/** Small value types shared by every module of the model. */
module Types {

  /** Rust's `Option`. */
  datatype Option<+T> = None | Some(value: T)

  /** Rust's `Result`. */
  datatype Result<+T, +E> = Ok(value: T) | Err(error: E)

  /** A `u8`. */
  newtype byte = b: int | 0 <= b < 256

  /** A `[u8; 32]` public key or a `[u8; 12]` nonce. */
  type Bytes32 = s: seq<byte> | |s| == 32 witness seq(32, _ => 0)
  type Bytes12 = s: seq<byte> | |s| == 12 witness seq(12, _ => 0)
}
