/**
 * The strict LEB128 decoding rule shared by decode_i32leb, decode_u32leb,
 * decode_i64leb and decode_u64leb, stated as a pure function over the bytes
 * of the span.
 *
 * An encoding is a run of groups (bytes). Each group carries a 7-bit payload,
 * least significant group first, and a continuation bit (0x80) that is set on
 * every group but the last. The decoders are strict: the span must contain a
 * terminating group, at most MaxGroups groups may be used, and the bits of the
 * last group that lie beyond the declared width must be zero (unsigned) or
 * copies of the sign bit (signed).
 */
module Leb128 {

  type Byte = b: int | 0 <= b < 0x100

  /** The declared width of the decoded integer. */
  datatype Width = W32 | W64 {

    function Bits(): (n: nat)
      ensures n % 32 == 0 && 32 <= n <= 64
    {
      if W32? then 32 else 64
    }

    /** ceil(Bits() / 7): the number of groups needed to hold Bits() bits. */
    function MaxGroups(): (m: nat)
      ensures 7 * (m - 1) < Bits() <= 7 * m
    {
      if W32? then 5 else 10
    }

    /** 2^Bits(): the number of values of the fixed-width type. */
    function Modulus(): (m: nat)
      ensures m == Pow128(MaxGroups() - 1) * (if W32? then 16 else 2)
    {
      if W32? then
        assert Pow128(4) == 0x1000_0000;
        0x1_0000_0000
      else
        assert Pow128(9) == 0x8000_0000_0000_0000;
        0x1_0000_0000_0000_0000
    }
  }

  /** Why a decode fails; the caller sees all three as a non-positive length. */
  datatype Error =
    | Truncated  // the span ends while the last byte read asks for more
    | TooLong    // more than MaxGroups groups before a terminating group
    | Overflow   // the last group's bits beyond the width are not zero-/sign-fill

  /** The outcome of one call: the value and the number of bytes consumed, or a failure. */
  datatype DecodeResult = Ok(value: int, len: nat) | Err(error: Error)

  /** The low seven bits of a group. */
  function Payload(b: Byte): (p: nat)
    ensures p < 0x80
    ensures b == p + (if More(b) then 0x80 else 0)
  {
    if More(b) then b - 0x80 else b
  }

  /** The continuation flag: another group follows this one. */
  predicate More(b: Byte) {
    b >= 0x80
  }

  function Pow128(n: nat): (r: nat)
    ensures r >= 1
  {
    if n == 0 then 1 else 0x80 * Pow128(n - 1)
  }

  /** The unsigned value of the payloads of the first n groups of s, least significant group first. */
  function Raw(s: seq<Byte>, n: nat): nat
    requires n <= |s|
  {
    if n == 0 then 0 else Raw(s, n - 1) + Payload(s[n - 1]) * Pow128(n - 1)
  }

  /** n groups hold 7 * n bits. */
  lemma {:induction false} RawBound(s: seq<Byte>, n: nat)
    requires n <= |s|
    ensures Raw(s, n) < Pow128(n)
  {
    if n > 0 {
      RawBound(s, n - 1);
      MulMonotonic(Payload(s[n - 1]), 0x7F, Pow128(n - 1));
    }
  }

  lemma MulMonotonic(a: int, b: int, k: nat)
    requires a <= b
    ensures a * k <= b * k
  {
    assert (b - a) * k >= 0;
  }

  /**
   * The integer that the first n groups of s denote: their payload bits read
   * as an unsigned number, or, when signed, as a two's-complement number of
   * 7 * n bits whose sign is bit 6 of the last payload.
   */
  function Denoted(signed: bool, s: seq<Byte>, n: nat): int
    requires 1 <= n <= |s|
  {
    if signed && Payload(s[n - 1]) >= 0x40 then Raw(s, n) - Pow128(n) else Raw(s, n)
  }

  /** v is a value of the fixed-width type (int32, uint32, int64 or uint64). */
  predicate InRange(w: Width, signed: bool, v: int) {
    if signed then -(w.Modulus() / 2) <= v < w.Modulus() / 2
    else 0 <= v < w.Modulus()
  }

  /** The index of the first byte of s, from i on, whose continuation bit is clear, or |s|. */
  function ContinuedFrom(s: seq<Byte>, i: nat): (k: nat)
    requires i <= |s|
    ensures i <= k <= |s|
    ensures forall j :: i <= j < k ==> More(s[j])
    ensures k < |s| ==> !More(s[k])
    decreases |s| - i
  {
    if i == |s| || !More(s[i]) then i else ContinuedFrom(s, i + 1)
  }

  /** The number of leading bytes of s whose continuation bit is set. */
  function Continued(s: seq<Byte>): (k: nat)
    ensures k <= |s|
    ensures forall i :: 0 <= i < k ==> More(s[i])
    ensures k < |s| ==> !More(s[k])
  {
    ContinuedFrom(s, 0)
  }

  /**
   * Decoding of the span s. The scan reads groups until a terminating group;
   * it fails with Truncated when the span runs out first, with TooLong when a
   * group beyond MaxGroups would be read, and with Overflow when the value
   * the groups denote is not a value of the fixed-width type. Bytes after the
   * terminating group are not looked at.
   */
  function Decode(w: Width, signed: bool, s: seq<Byte>): (r: DecodeResult)
    ensures r.Ok? ==> 1 <= r.len <= w.MaxGroups() && r.len <= |s|
    ensures r.Ok? ==> !More(s[r.len - 1]) && forall i :: 0 <= i < r.len - 1 ==> More(s[i])
    ensures r.Ok? ==> InRange(w, signed, r.value)
  {
    var k := Continued(s);
    if k >= w.MaxGroups() then
      (if |s| == w.MaxGroups() then Err(Truncated) else Err(TooLong))
    else if k == |s| then Err(Truncated)
    else
      var v := Denoted(signed, s, k + 1);
      if InRange(w, signed, v) then Ok(v, k + 1) else Err(Overflow)
  }
}
