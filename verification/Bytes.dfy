/** Octets, big-endian fields and runs of filler bytes. */
module Bytes {

  type byte = b: int | 0 <= b < 256

  const MAX_U16: nat := 0xFFFF
  const MAX_U64: nat := 0xFFFF_FFFF_FFFF_FFFF

  /** Two bytes, most significant first. */
  function BE16(v: nat): (s: seq<byte>)
    requires v <= MAX_U16
    ensures |s| == 2
  {
    [v / 256, v % 256]
  }

  function FromBE16(high: byte, low: byte): nat {
    high * 256 + low
  }

  function Repeat(b: byte, n: nat): seq<byte> {
    seq(n, _ => b)
  }

  /** Concatenation of a list of byte strings. */
  function Flatten(parts: seq<seq<byte>>): seq<byte> {
    if parts == [] then [] else parts[0] + Flatten(parts[1..])
  }

  lemma {:induction false} FlattenConcat(a: seq<seq<byte>>, b: seq<seq<byte>>)
    ensures Flatten(a + b) == Flatten(a) + Flatten(b)
  {
    if a == [] {
      assert a + b == b;
    } else {
      assert (a + b)[1..] == a[1..] + b;
      FlattenConcat(a[1..], b);
    }
  }
}
