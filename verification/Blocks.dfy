/** What the modules about blocks share: references to them, their types, and lists without repetition. */
module Blocks {

  /** A block is named by its address and its checksum. */
  datatype Reference = Reference(address: nat, checksum: int)

  const NO_REFERENCE := Reference(0, 0)

  datatype Kind = FreeSet | ClientSessions | Manifest | Index | Value

  predicate Distinct(list: seq<nat>) {
    forall i, j :: 0 <= i < j < |list| ==> list[i] != list[j]
  }
}
