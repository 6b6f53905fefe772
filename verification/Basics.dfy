// The machine types of the bridge.
module Basics {
  /** An unsigned byte used as a number (flags, QoS levels, return codes). */
  type u8 = x: int | 0 <= x < 0x100

  /** An MQTT packet identifier. */
  type u16 = x: int | 0 <= x < 0x1_0000

  /**
   * A byte is the character with that code, so that Go's strings and byte slices are Dafny strings.
   * Code is the number a byte stands for; only sequences that meet IsBytes occur in the source.
   */
  type byte = char

  type bytes = string

  function Code(b: byte): u8 { b as int % 0x100 }

  predicate IsBytes(s: bytes) { forall i :: 0 <= i < |s| ==> s[i] as int < 0x100 }

  datatype Option<+T> = None | Some(value: T)

  datatype Result<+T, +E> = Success(value: T) | Failure(error: E) {
    predicate IsFailure() { Failure? }

    function PropagateFailure<U>(): Result<U, E>
      requires Failure?
    {
      Failure(error)
    }

    function Extract(): T
      requires Success?
    {
      value
    }
  }
}
