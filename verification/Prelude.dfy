/** Stock types, and bytes written over others. */
module Prelude {

  datatype Option<T> = None | Some(value: T)

  type Byte = b: nat | b < 0x100

  /** `target` with `source` written over it from `at` on. */
  function Overwritten(target: seq<Byte>, at: nat, source: seq<Byte>): (r: seq<Byte>)
    requires at + |source| <= |target|
    ensures |r| == |target|
  {
    target[..at] + source + target[at + |source|..]
  }
}
