/** Unsigned 64-bit balances with checked arithmetic: an addition that would
    leave the 64-bit range, or a subtraction that would go below zero, is
    reported as a failure instead of wrapping around. */
module UInt64 {

  /** The largest value a 64-bit unsigned balance can hold. */
  const MAX: nat := 0xFFFF_FFFF_FFFF_FFFF

  /** A token amount: a natural number that fits in 64 bits. */
  type Balance = x: int | 0 <= x <= 0xFFFF_FFFF_FFFF_FFFF

  datatype Option<+T> = None | Some(value: T)

  /** Checked addition: defined exactly when the sum still fits. */
  function CheckedAdd(a: Balance, b: Balance): (r: Option<Balance>)
    ensures r.Some? <==> a + b <= MAX
    ensures r.Some? ==> r.value - b == a && r.value >= a
  {
    if a + b <= MAX then Some(a + b) else None
  }

  /** Checked subtraction: defined exactly when it does not underflow. */
  function CheckedSub(a: Balance, b: Balance): (r: Option<Balance>)
    ensures r.Some? <==> b <= a
    ensures r.Some? ==> r.value + b == a && r.value <= a
  {
    if b <= a then Some(a - b) else None
  }

  /** Subtracting what was just added gives back the original balance, and
      adding back what was just subtracted gives back the original balance. */
  lemma AddSubInverse(a: Balance, b: Balance)
    ensures CheckedAdd(a, b).Some? ==> CheckedSub(CheckedAdd(a, b).value, b) == Some(a)
    ensures CheckedSub(a, b).Some? ==> CheckedAdd(CheckedSub(a, b).value, b) == Some(a)
  {
  }
}
