/** Status codes, as both sides of a call use them. */
module Rpc {

  /** A status; code 0 is OK. */
  datatype Status = Status(code: nat)

  const OK := Status(0)

  /** The status of a completion whose event was not ok. */
  const UNKNOWN := Status(2)

  predicate IsOk(s: Status) { s.code == 0 }
}
