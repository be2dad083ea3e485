/** Types shared by the device-side and the host-side models. */
module Common {

  /** An 8-bit unsigned value: a `uint8_t` on the device, an element of a
      Python `bytes` on the host. */
  newtype byte = x: int | 0 <= x < 256

  /** Largest value of a 16-bit unsigned integer, the width of `bank_size`. */
  const UINT16_MAX: nat := 0xFFFF

  datatype Option<+T> = None | Some(value: T)

  /** Regrouping a concatenation. */
  lemma AppendAssoc<T>(a: seq<T>, b: seq<T>, c: seq<T>)
    ensures (a + b) + c == a + (b + c)
  {
  }
}
