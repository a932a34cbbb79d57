/** Notions that are about no service in particular. */
module Basics {

  /** Milliseconds order-service waits for payment-service. */
  const PAYMENT_DEADLINE := 15000

  /** A value that may be absent: a null column, a missing row, a reply that never came. */
  datatype Option<+T> = None | Some(value: T)

  /** Some element of a set, always the same one for the same set. */
  ghost function Pick<T>(s: set<T>): (x: T)
    requires s != {}
    ensures x in s
  {
    var x :| x in s;
    x
  }
}
