/** The optional value used wherever the application reads something that may be absent,
    and the minimum of two naturals (`Math.min` on counts). */
module Wrappers {
  datatype Option<+T> = None | Some(value: T)

  function MinNat(a: nat, b: nat): nat { if a <= b then a else b }
}
