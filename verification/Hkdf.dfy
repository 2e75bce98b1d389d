/** HKDF-Expand as in section 2.3 of RFC 5869, over any keyed hash with 32-byte output. */
module Hkdf {
  import opened Wrappers
  import opened Bytes

  const HASH := 32

  type Hmac = (seq<byte>, seq<byte>) -> seq<byte>

  ghost predicate Sized(mac: Hmac) {
    forall k, x :: |mac(k, x)| == HASH
  }

  /** T(i) of the standard. */
  function T(mac: Hmac, prk: seq<byte>, info: seq<byte>, i: nat): seq<byte>
    requires i <= 255
  {
    if i == 0 then [] else mac(prk, T(mac, prk, info, i - 1) + info + [i as byte])
  }

  /** T(1) | ... | T(n). */
  function Okm(mac: Hmac, prk: seq<byte>, info: seq<byte>, n: nat): seq<byte>
    requires n <= 255
  {
    if n == 0 then [] else Okm(mac, prk, info, n - 1) + T(mac, prk, info, n)
  }

  lemma {:induction false} OkmLength(mac: Hmac, prk: seq<byte>, info: seq<byte>, n: nat)
    requires n <= 255 && Sized(mac)
    ensures |Okm(mac, prk, info, n)| == HASH * n
  {
    if n > 0 {
      OkmLength(mac, prk, info, n - 1);
    }
  }

  /** The number of blocks that cover `length` bytes. */
  function Rounds(length: int): int {
    (length + HASH - 1) / HASH
  }

  /** The largest output of this loop; the standard allows one block more. */
  const LOOP_LIMIT := 254 * HASH

  /**
    The first bytes of the standard's output; None, an error, exactly for a length that is not positive
    or needs a 255th block: the counter is checked after it has been raised for the next block.
   */
  method Expand(mac: Hmac, prk: seq<byte>, info: seq<byte>, length: int) returns (okm: Option<seq<byte>>)
    requires Sized(mac)
    ensures okm.Some? <==> 0 < length <= LOOP_LIMIT
    ensures okm.Some? ==> Rounds(length) <= 254 && |okm.value| == length
                          && okm.value <= Okm(mac, prk, info, Rounds(length))
  {
    if length <= 0 {
      return None;
    }
    var out: seq<byte>, previous: seq<byte>, counter := [], [], 1;
    while |out| < length
      invariant 1 <= counter <= 255
      invariant previous == T(mac, prk, info, counter - 1)
      invariant out == Okm(mac, prk, info, counter - 1) && |out| == HASH * (counter - 1)
      invariant counter > 1 ==> |out| - HASH < length
    {
      previous := mac(prk, previous + info + [counter as byte]);
      out := out + previous;
      counter := counter + 1;
      if counter > 255 {
        return None;
      }
    }
    okm := Some(out[..length]);
  }

  /** A shorter output is the start of a longer one. */
  lemma {:induction false} OkmExtends(mac: Hmac, prk: seq<byte>, info: seq<byte>, m: nat, n: nat)
    requires m <= n <= 255
    ensures Okm(mac, prk, info, m) <= Okm(mac, prk, info, n)
  {
    if m < n {
      OkmExtends(mac, prk, info, m, n - 1);
    }
  }
}
