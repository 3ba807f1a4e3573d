/**
 * The Java-level vocabulary shared by the whole model: fixed-width integers,
 * nullable references, thrown exceptions and the boxed values an untyped
 * `Object` parameter can hold.
 */
module Lang {

  /** Java `int`: 32-bit two's complement. */
  type int32 = x: int | -0x8000_0000 <= x < 0x8000_0000

  /** Java `long`: 64-bit two's complement. */
  type int64 = x: int | -0x8000_0000_0000_0000 <= x < 0x8000_0000_0000_0000

  /** A nullable reference: `None` is Java's `null`. */
  datatype Option<+T> = None | Some(value: T)

  /** The exceptions the modelled code can raise. */
  datatype Exception =
    | UnsupportedOperation  // java.lang.UnsupportedOperationException
    | NullPointer           // java.lang.NullPointerException
    | ClassCast             // java.lang.ClassCastException

  /** A call that either returns a value or throws. */
  datatype Result<+T> = Ok(value: T) | Err(error: Exception)

  /** A `void` call that either completes or throws. */
  datatype Outcome = Pass | Fail(error: Exception)

  /**
   * The dynamic kind of a non-null `java.lang.Object` as far as the
   * identifier factory can tell them apart: a boxed `Long`, a boxed
   * `Integer`, a `String`, or anything else.
   */
  datatype JObject =
    | OLong(l: int64)
    | OInt(i: int32)
    | OStr(s: string)
    | OOther
}
