/**
 * The decoder routine behind decode_i32leb, decode_u32leb, decode_i64leb and
 * decode_u64leb: one scan of the span [start, end) of a byte buffer that ORs
 * each payload into an accumulator at the current shift, counts groups, and
 * at the terminating group checks the bits beyond the width, sign-extends a
 * short signed encoding, and casts the accumulator to the fixed-width type.
 * The scan is proved to compute Leb128.Decode, and the four entry points
 * return the value and length the way the C functions do.
 */
module Leb128Decoder {
  import opened Leb128
  import opened Leb128Properties

  newtype int32 = x: int | -0x8000_0000 <= x < 0x8000_0000
  newtype uint32 = x: int | 0 <= x < 0x1_0000_0000
  newtype int64 = x: int | -0x8000_0000_0000_0000 <= x < 0x8000_0000_0000_0000
  newtype uint64 = x: int | 0 <= x < 0x1_0000_0000_0000_0000

  /** The length an entry point reports on failure; callers only test len > 0. */
  const FailedLen: int := -1

  function Pow2(n: nat): (r: nat)
    ensures r >= 1
  {
    if n == 0 then 1 else 2 * Pow2(n - 1)
  }

  /** Shifting by seven bits per group is multiplying by 128 per group. */
  lemma {:induction false} Pow2Groups(k: nat)
    ensures Pow2(7 * k) == Pow128(k)
  {
    if k > 0 {
      var n := 7 * (k - 1);
      Pow2Groups(k - 1);
      assert Pow2(n + 7) == 2 * Pow2(n + 6);
      assert Pow2(n + 6) == 2 * Pow2(n + 5);
      assert Pow2(n + 5) == 2 * Pow2(n + 4);
      assert Pow2(n + 4) == 2 * Pow2(n + 3);
      assert Pow2(n + 3) == 2 * Pow2(n + 2);
      assert Pow2(n + 2) == 2 * Pow2(n + 1);
      assert Pow2(n + 1) == 2 * Pow2(n);
    }
  }

  /**
   * The canonical-form check on the payload p of the terminating group, read
   * when the shift has reached `shift`: of the seven payload bits, the low
   * `used` ones lie within the width; the others must all be zero (unsigned)
   * or all copies of bit used - 1 (signed).
   */
  function FillOk(w: Width, signed: bool, shift: nat, p: nat): (ok: bool)
    requires 7 <= shift <= 7 * w.MaxGroups() && p < 0x80
    ensures shift <= 7 * (w.MaxGroups() - 1) ==> ok
  {
    var used := w.Bits() - (shift - 7);
    if used >= 7 then true
    else
      var fill := if signed then p / Pow2(used - 1) % 2 else 0;
      p / Pow2(used) == fill * (Pow2(7 - used) - 1)
  }

  /**
   * Sign extension of a short signed encoding whose last payload has bit 6
   * set: the accumulator's bits from `shift` up to the width are set to one.
   */
  function SignExtend(w: Width, signed: bool, acc: int, shift: nat, p: nat): int {
    if signed && shift < w.Bits() && p >= 0x40 then acc + (w.Modulus() - Pow2(shift)) else acc
  }

  /**
   * The cast of the accumulator to the fixed-width type: keep its low Bits()
   * bits and read them as unsigned or as two's complement. The result is the
   * one value of the type congruent to the accumulator modulo 2^Bits().
   */
  function Reinterpret(w: Width, signed: bool, acc: int): (v: int)
    ensures InRange(w, signed, v)
    ensures (v - acc) % w.Modulus() == 0
  {
    var u := acc % w.Modulus();
    if signed && u >= w.Modulus() / 2 then u - w.Modulus() else u
  }

  /** Two values of the type that agree with z modulo 2^Bits() are equal. */
  lemma CongruentInRange(w: Width, signed: bool, x: int, y: int, z: int)
    requires InRange(w, signed, x) && InRange(w, signed, y)
    requires (x - z) % w.Modulus() == 0 && (y - z) % w.Modulus() == 0
    ensures x == y
  {
    var m := w.Modulus();
    assert x - z == (x - z) / m * m;
    assert y - z == (y - z) / m * m;
    assert x - y == ((x - z) / m - (y - z) / m) * m;
  }

  /** At the last allowed group the check accepts exactly the terminators that fit. */
  lemma FillOkAtLastGroup(w: Width, signed: bool, p: nat)
    requires p < 0x80
    ensures FillOk(w, signed, 7 * w.MaxGroups(), p) <==> LastGroupFits(w, signed, p)
  {
    if w == W32 {
      assert Pow2(3) == 8 && Pow2(4) == 0x10;
    } else {
      assert Pow2(0) == 1 && Pow2(1) == 2 && Pow2(6) == 0x40;
    }
  }

  /**
   * The check on the terminating group, the n-th, accepts exactly when the
   * groups denote a value of the type.
   */
  lemma FillOkIffInRange(w: Width, signed: bool, s: seq<Byte>, n: nat)
    requires 1 <= n <= w.MaxGroups() && n <= |s| && Continued(s) == n - 1
    ensures FillOk(w, signed, 7 * n, Payload(s[n - 1])) <==> InRange(w, signed, Denoted(signed, s, n))
  {
    if n < w.MaxGroups() {
      ShortInRange(w, signed, s, n);
    } else {
      FillOkAtLastGroup(w, signed, Payload(s[n - 1]));
      LastGroup(w, signed, s);
    }
  }

  /**
   * The accumulator after sign extension agrees with the value the groups
   * denote modulo 2^Bits(): a short negative encoding has its bits from
   * `shift` up to the width set, a full-length one has bits beyond the width
   * that the cast drops.
   */
  lemma ExtendedCongruent(w: Width, signed: bool, s: seq<Byte>, n: nat)
    requires 1 <= n <= w.MaxGroups() && n <= |s|
    ensures (Denoted(signed, s, n) - SignExtend(w, signed, Raw(s, n), 7 * n, Payload(s[n - 1]))) % w.Modulus() == 0
  {
    var p, raw := Payload(s[n - 1]), Raw(s, n);
    var acc := SignExtend(w, signed, raw, 7 * n, p);
    var d := Denoted(signed, s, n);
    if signed && p >= 0x40 {
      assert d == raw - Pow128(n);
      if n < w.MaxGroups() {
        Pow2Groups(n);
        assert acc == raw + w.Modulus() - Pow128(n);
        assert d - acc == -1 * w.Modulus();
      } else if w == W32 {
        assert acc == raw;
        assert Pow128(5) == 8 * 0x1_0000_0000;
        assert d - acc == -8 * w.Modulus();
      } else {
        assert acc == raw;
        assert Pow128(10) == 0x40 * 0x1_0000_0000_0000_0000;
        assert d - acc == -0x40 * w.Modulus();
      }
    } else {
      assert d == acc;
    }
  }

  /** After the check, sign extension and the cast give the value the groups denote. */
  lemma FinishValue(w: Width, signed: bool, s: seq<Byte>, n: nat)
    requires 1 <= n <= w.MaxGroups() && n <= |s|
    requires InRange(w, signed, Denoted(signed, s, n))
    ensures Reinterpret(w, signed, SignExtend(w, signed, Raw(s, n), 7 * n, Payload(s[n - 1]))) == Denoted(signed, s, n)
  {
    var acc := SignExtend(w, signed, Raw(s, n), 7 * n, Payload(s[n - 1]));
    ExtendedCongruent(w, signed, s, n);
    CongruentInRange(w, signed, Reinterpret(w, signed, acc), Denoted(signed, s, n), acc);
  }

  /**
   * What the routine returns at the terminating group, the n-th: Overflow
   * when the check fails, otherwise the sign-extended accumulator cast to
   * the type, is what the decoding rule gives.
   */
  lemma TerminatorDecodes(w: Width, signed: bool, s: seq<Byte>, n: nat)
    requires 1 <= n <= w.MaxGroups() && n <= |s| && Continued(s) == n - 1
    ensures var p := Payload(s[n - 1]);
      Decode(w, signed, s) ==
        if FillOk(w, signed, 7 * n, p) then Ok(Reinterpret(w, signed, SignExtend(w, signed, Raw(s, n), 7 * n, p)), n)
        else Err(Overflow)
  {
    DecodeAtTerminator(w, signed, s, n);
    FillOkIffInRange(w, signed, s, n);
    if FillOk(w, signed, 7 * n, Payload(s[n - 1])) {
      FinishValue(w, signed, s, n);
    }
  }

  /**
   * The shared routine: decode the span [start, end) of a as a Bits()-wide
   * signed or unsigned integer.
   */
  method DecodeLeb(a: array<Byte>, start: nat, end: nat, w: Width, signed: bool) returns (r: DecodeResult)
    requires start <= end <= a.Length
    ensures r == Decode(w, signed, a[start..end])
  {
    ghost var s := a[start..end];
    var pos, acc, shift, groups := start, 0, 0, 0;
    while true
      invariant start <= pos <= end
      invariant groups == pos - start <= w.MaxGroups()
      invariant shift == 7 * groups
      invariant acc == Raw(s, groups)
      invariant forall i :: 0 <= i < groups ==> More(s[i])
      decreases end - pos
    {
      if pos == end {
        TruncatedIff(w, signed, s);
        return Err(Truncated);
      }
      if groups == w.MaxGroups() {
        TooLongIff(w, signed, s);
        return Err(TooLong);
      }
      var b := a[pos];
      assert b == s[groups];
      var payload := b % 0x80;
      assert payload == Payload(s[groups]);
      Pow2Groups(groups);
      acc := acc + payload * Pow2(shift);
      shift := shift + 7;
      groups := groups + 1;
      pos := pos + 1;
      assert acc == Raw(s, groups);
      if b < 0x80 {
        ContinuedAt(s, groups - 1);
        r := Terminate(w, signed, acc, shift, payload, groups, s);
        return;
      }
    }
  }

  /**
   * The tail of the routine at the terminating group, the n-th: reject a
   * last group that does not fit, otherwise sign-extend and cast.
   */
  method Terminate(w: Width, signed: bool, acc: int, shift: nat, payload: nat, n: nat, ghost s: seq<Byte>)
    returns (r: DecodeResult)
    requires 1 <= n <= w.MaxGroups() && n <= |s| && Continued(s) == n - 1
    requires shift == 7 * n && acc == Raw(s, n) && payload == Payload(s[n - 1])
    ensures r == Decode(w, signed, s)
  {
    TerminatorDecodes(w, signed, s, n);
    if !FillOk(w, signed, shift, payload) {
      return Err(Overflow);
    }
    var value := acc;
    if signed && shift < w.Bits() && payload >= 0x40 {
      value := value + (w.Modulus() - Pow2(shift));
    }
    assert value == SignExtend(w, signed, acc, shift, payload);
    return Ok(Reinterpret(w, signed, value), n);
  }

  /** decode_i32leb: len > 0 and the value on success, len <= 0 on failure. */
  method DecodeI32Leb(a: array<Byte>, start: nat, end: nat) returns (value: int32, len: int)
    requires start <= end <= a.Length
    ensures var r := Decode(W32, true, a[start..end]);
      && (len > 0 <==> r.Ok?)
      && (r.Ok? ==> value as int == r.value && len == r.len <= 5)
  {
    var r := DecodeLeb(a, start, end, W32, true);
    value, len := 0, FailedLen;
    if r.Ok? {
      value, len := r.value as int32, r.len;
    }
  }

  /** decode_u32leb: len > 0 and the value on success, len <= 0 on failure. */
  method DecodeU32Leb(a: array<Byte>, start: nat, end: nat) returns (value: uint32, len: int)
    requires start <= end <= a.Length
    ensures var r := Decode(W32, false, a[start..end]);
      && (len > 0 <==> r.Ok?)
      && (r.Ok? ==> value as int == r.value && len == r.len <= 5)
  {
    var r := DecodeLeb(a, start, end, W32, false);
    value, len := 0, FailedLen;
    if r.Ok? {
      value, len := r.value as uint32, r.len;
    }
  }

  /** decode_i64leb: len > 0 and the value on success, len <= 0 on failure. */
  method DecodeI64Leb(a: array<Byte>, start: nat, end: nat) returns (value: int64, len: int)
    requires start <= end <= a.Length
    ensures var r := Decode(W64, true, a[start..end]);
      && (len > 0 <==> r.Ok?)
      && (r.Ok? ==> value as int == r.value && len == r.len <= 10)
  {
    var r := DecodeLeb(a, start, end, W64, true);
    value, len := 0, FailedLen;
    if r.Ok? {
      value, len := r.value as int64, r.len;
    }
  }

  /** decode_u64leb: len > 0 and the value on success, len <= 0 on failure. */
  method DecodeU64Leb(a: array<Byte>, start: nat, end: nat) returns (value: uint64, len: int)
    requires start <= end <= a.Length
    ensures var r := Decode(W64, false, a[start..end]);
      && (len > 0 <==> r.Ok?)
      && (r.Ok? ==> value as int == r.value && len == r.len <= 10)
  {
    var r := DecodeLeb(a, start, end, W64, false);
    value, len := 0, FailedLen;
    if r.Ok? {
      value, len := r.value as uint64, r.len;
    }
  }
}
