/** Bytes as numbers, and as bits where the source masks and shifts them. */
module Octets {

  type Byte = n: nat | n < 256
  type Bytes = seq<Byte>

  function Bits(b: Byte): bv8 {
    b as bv8
  }

  function Octet(v: bv8): Byte {
    v as nat
  }

  lemma OctetBits(v: bv8)
    ensures Bits(Octet(v)) == v
  {
  }
}
