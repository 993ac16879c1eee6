/** Shared vocabulary of the node: account addresses and an optional value. */
module Common {

  /** A 20-byte account address, as in the node's `common.Address`. */
  type Address = s: seq<bv8> | |s| == 20 witness seq(20, _ => 0 as bv8)

  datatype Option<+T> = None | Some(value: T)
}
