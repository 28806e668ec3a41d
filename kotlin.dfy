/** Kotlin value types the GraphQL download types are built from. */
module Kotlin {

  /** A Kotlin nullable value `T?`: `None` stands for `null`. */
  datatype Option<T> = None | Some(value: T)

  /** Kotlin's 32-bit `Int`. The model only copies such values, so no wrap-around arises. */
  newtype Int32 = x: int | -0x8000_0000 <= x < 0x8000_0000

  /** Kotlin's `Float`, kept as its IEEE 754 bit pattern: the model copies it and never computes with it. */
  type Float = bv32
}
