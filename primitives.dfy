/** Fixed-width integers, hashes and the Option/Result types shared by the model. */
module Primitives {

  /** Rust's `u32`: block heights and timestamps. */
  newtype u32 = x: int | 0 <= x < 0x1_0000_0000

  /** Rust's `u64`: amounts of currency. */
  newtype u64 = x: int | 0 <= x < 0x1_0000_0000_0000_0000

  /** A 256-bit hash (`H256`), as its 32 bytes. */
  type H256 = s: seq<bv8> | |s| == 32 witness seq(32, _ => 0 as bv8)

  datatype Option<+T> = None | Some(value: T)

  /** Rust's `Result<T, E>`. */
  datatype Result<+T, +E> = Ok(value: T) | Err(error: E)

  /** A successful `Result<(), E>` is `Ok(())`: the unit type has one value. */
  lemma OkIsUnit<E>(r: Result<(), E>)
    ensures r.Ok? ==> r == Ok(())
  {
    if r.Ok? {
      var u: () := r.value;
      assert u == ();
    }
  }
}
