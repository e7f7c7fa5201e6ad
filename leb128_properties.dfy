/**
 * What the strict decoding rule promises for every input: when a decode
 * succeeds, and which of the three failures it reports otherwise; that bytes
 * after the terminating group are ignored; that canonically padded longer
 * encodings decode to the same value; and that decoding inverts a minimal
 * encoder.
 */
module Leb128Properties {
  import opened Leb128

  // ---------------------------------------------------------------------
  // Arithmetic on groups

  lemma {:induction false} Pow128Monotonic(a: nat, b: nat)
    requires a <= b
    ensures Pow128(a) <= Pow128(b)
    decreases b
  {
    if a < b {
      Pow128Monotonic(a, b - 1);
    }
  }

  /** Raw reads only the payloads of the first n groups. */
  lemma {:induction false} RawSame(s: seq<Byte>, t: seq<Byte>, n: nat)
    requires n <= |s| && n <= |t|
    requires forall i :: 0 <= i < n ==> Payload(s[i]) == Payload(t[i])
    ensures Raw(s, n) == Raw(t, n)
  {
    if n > 0 {
      RawSame(s, t, n - 1);
    }
  }

  /** A group put in front moves the others up by seven bits. */
  lemma {:induction false} RawCons(b: Byte, t: seq<Byte>, n: nat)
    requires n <= |t|
    ensures Raw([b] + t, n + 1) == Payload(b) + 0x80 * Raw(t, n)
  {
    var s := [b] + t;
    if n > 0 {
      RawCons(b, t, n - 1);
      assert s[n] == t[n - 1];
      var c, k := Payload(t[n - 1]), Pow128(n - 1);
      assert c * (0x80 * k) == 0x80 * (c * k);
    }
  }

  /** A signed group sequence is a two's-complement number of 7 * n bits. */
  lemma DenotedBounds(signed: bool, s: seq<Byte>, n: nat)
    requires 1 <= n <= |s|
    ensures signed ==> -(Pow128(n) / 2) <= Denoted(signed, s, n) < Pow128(n) / 2
    ensures !signed ==> Denoted(signed, s, n) == Raw(s, n) < Pow128(n)
    ensures signed && Payload(s[n - 1]) < 0x40 ==> Denoted(signed, s, n) >= 0
    ensures signed && Payload(s[n - 1]) >= 0x40 ==> Denoted(signed, s, n) < 0
  {
    var p, k := Payload(s[n - 1]), Pow128(n - 1);
    RawBound(s, n - 1);
    if p < 0x40 {
      MulMonotonic(p, 0x3F, k);
    } else {
      MulMonotonic(0x40, p, k);
      MulMonotonic(p, 0x7F, k);
    }
  }

  /** Fewer than MaxGroups groups always denote a value of the fixed-width type. */
  lemma ShortInRange(w: Width, signed: bool, s: seq<Byte>, n: nat)
    requires 1 <= n < w.MaxGroups() && n <= |s|
    ensures InRange(w, signed, Denoted(signed, s, n))
  {
    DenotedBounds(signed, s, n);
    Pow128Monotonic(n, w.MaxGroups() - 1);
  }

  /** Continued counts exactly the groups before the first terminating one. */
  lemma ContinuedAt(s: seq<Byte>, j: nat)
    requires j < |s| && !More(s[j])
    requires forall i :: 0 <= i < j ==> More(s[i])
    ensures Continued(s) == j
  {
  }

  lemma ContinuedAtLeast(s: seq<Byte>, j: nat)
    requires j <= |s|
    requires forall i :: 0 <= i < j ==> More(s[i])
    ensures Continued(s) >= j
  {
  }

  // ---------------------------------------------------------------------
  // Success and the three failures

  /** Success: a terminating group within MaxGroups whose groups denote a value of the type. */
  lemma DecodeOkIff(w: Width, signed: bool, s: seq<Byte>, v: int, n: nat)
    ensures Decode(w, signed, s) == Ok(v, n) <==>
      && 1 <= n <= w.MaxGroups() && n <= |s|
      && (forall i :: 0 <= i < n - 1 ==> More(s[i])) && !More(s[n - 1])
      && v == Denoted(signed, s, n) && InRange(w, signed, v)
  {
    if 1 <= n <= |s| && !More(s[n - 1]) && forall i :: 0 <= i < n - 1 ==> More(s[i]) {
      ContinuedAt(s, n - 1);
    }
  }

  /** At a terminating group within MaxGroups, decoding succeeds exactly when the value is in range. */
  lemma DecodeAtTerminator(w: Width, signed: bool, s: seq<Byte>, n: nat)
    requires 1 <= n <= w.MaxGroups() && n <= |s| && Continued(s) == n - 1
    ensures var v := Denoted(signed, s, n);
      Decode(w, signed, s) == if InRange(w, signed, v) then Ok(v, n) else Err(Overflow)
  {
  }

  /** Truncated exactly when every byte of a span of at most MaxGroups bytes asks for more. */
  lemma TruncatedIff(w: Width, signed: bool, s: seq<Byte>)
    ensures Decode(w, signed, s) == Err(Truncated) <==>
      |s| <= w.MaxGroups() && forall i :: 0 <= i < |s| ==> More(s[i])
  {
    if forall i :: 0 <= i < |s| ==> More(s[i]) {
      ContinuedAtLeast(s, |s|);
    }
  }

  /** TooLong exactly when the first MaxGroups bytes all ask for more and the span goes on. */
  lemma TooLongIff(w: Width, signed: bool, s: seq<Byte>)
    ensures Decode(w, signed, s) == Err(TooLong) <==>
      |s| > w.MaxGroups() && forall i :: 0 <= i < w.MaxGroups() ==> More(s[i])
  {
    if |s| > w.MaxGroups() && forall i :: 0 <= i < w.MaxGroups() ==> More(s[i]) {
      ContinuedAtLeast(s, w.MaxGroups());
    }
  }

  /**
   * The terminating bytes allowed as group number MaxGroups(): its payload
   * bits beyond the width (3 of them for 32 bits, 6 for 64 bits) are all zero
   * (unsigned) or all equal to the highest in-range bit (signed).
   */
  predicate LastGroupFits(w: Width, signed: bool, b: Byte) {
    match (w, signed)
    case (W32, false) => b < 0x10
    case (W32, true) => b < 0x08 || 0x78 <= b < 0x80
    case (W64, false) => b < 0x02
    case (W64, true) => b == 0x00 || b == 0x7F
  }

  /**
   * A span that uses all MaxGroups groups decodes exactly when its last group
   * fits, to the payloads read as a Bits()-wide unsigned or two's-complement
   * number.
   */
  lemma LastGroup(w: Width, signed: bool, s: seq<Byte>)
    requires |s| >= w.MaxGroups()
    requires forall i :: 0 <= i < w.MaxGroups() - 1 ==> More(s[i])
    requires !More(s[w.MaxGroups() - 1])
    ensures var m := w.MaxGroups(); var b := s[m - 1];
      Decode(w, signed, s) ==
        if LastGroupFits(w, signed, b) then
          Ok(Raw(s, m - 1) + b * Pow128(m - 1) - (if signed && b >= 0x40 then Pow128(m) else 0), m)
        else Err(Overflow)
  {
    var m := w.MaxGroups();
    ContinuedAt(s, m - 1);
    RawBound(s, m - 1);
    if w == W32 {
      assert Pow128(4) == 0x1000_0000;
    } else {
      assert Pow128(9) == 0x8000_0000_0000_0000;
    }
  }

  /** Overflow exactly when all MaxGroups groups are used and the last one does not fit. */
  lemma OverflowIff(w: Width, signed: bool, s: seq<Byte>)
    ensures Decode(w, signed, s) == Err(Overflow) <==>
      && |s| >= w.MaxGroups()
      && (forall i :: 0 <= i < w.MaxGroups() - 1 ==> More(s[i]))
      && !More(s[w.MaxGroups() - 1])
      && !LastGroupFits(w, signed, s[w.MaxGroups() - 1])
  {
    var m := w.MaxGroups();
    var k := Continued(s);
    if k < m - 1 && k < |s| {
      ShortInRange(w, signed, s, k + 1);
    }
    if |s| >= m && (forall i :: 0 <= i < m - 1 ==> More(s[i])) && !More(s[m - 1]) {
      LastGroup(w, signed, s);
    }
  }

  /** A single terminating byte is its payload, sign-extended from bit 6 when signed. */
  lemma SingleByte(w: Width, signed: bool, b: Byte, rest: seq<Byte>)
    requires !More(b)
    ensures Decode(w, signed, [b] + rest) == Ok(if signed && b >= 0x40 then b - 0x80 else b, 1)
  {
    ContinuedAt([b] + rest, 0);
    assert Raw([b] + rest, 1) == Payload(b);
  }

  /**
   * Decoding stops at the terminating group: once the outcome does not depend
   * on the span running out, appending bytes does not change it.
   */
  lemma TrailingBytesIgnored(w: Width, signed: bool, s: seq<Byte>, t: seq<Byte>)
    requires Decode(w, signed, s) != Err(Truncated)
    ensures Decode(w, signed, s + t) == Decode(w, signed, s)
  {
    var k := Continued(s);
    if k < |s| {
      assert forall i :: 0 <= i <= k ==> (s + t)[i] == s[i];
      ContinuedAt(s + t, k);
      if k < w.MaxGroups() {
        RawSame(s + t, s, k + 1);
        assert Denoted(signed, s + t, k + 1) == Denoted(signed, s, k + 1);
      }
    } else {
      assert forall i :: 0 <= i < k ==> (s + t)[i] == s[i];
      ContinuedAtLeast(s + t, k);
    }
  }

  // ---------------------------------------------------------------------
  // Non-minimal encodings

  /**
   * The first n groups of s spread over one more group: the terminating
   * group gains its continuation bit and a fill group follows, 0x7F when the
   * value is negative and 0x00 otherwise.
   */
  function Pad(signed: bool, s: seq<Byte>, n: nat): (r: seq<Byte>)
    requires 1 <= n <= |s| && !More(s[n - 1])
    ensures |r| == |s| + 1
  {
    var b := s[n - 1];
    s[..n - 1] + [b + 0x80, if signed && b >= 0x40 then 0x7F else 0x00] + s[n..]
  }

  /** A canonically padded longer encoding decodes to the same value, one byte longer. */
  lemma PadKeepsValue(w: Width, signed: bool, s: seq<Byte>)
    requires Decode(w, signed, s).Ok? && Decode(w, signed, s).len < w.MaxGroups()
    ensures var r := Decode(w, signed, s);
      Decode(w, signed, Pad(signed, s, r.len)) == Ok(r.value, r.len + 1)
  {
    var r := Decode(w, signed, s);
    var n := r.len;
    var b := s[n - 1];
    var fill: Byte := if signed && b >= 0x40 then 0x7F else 0x00;
    var s' := Pad(signed, s, n);
    assert forall i :: 0 <= i < n - 1 ==> s'[i] == s[i];
    assert s'[n - 1] == b + 0x80 && s'[n] == fill;
    ContinuedAt(s', n);
    // the payloads of the first n groups are unchanged
    RawSame(s', s, n);
    // the fill group adds 127 * 128^n exactly when the value is negative
    assert Raw(s', n + 1) == Raw(s, n) + fill * Pow128(n);
    assert Pow128(n + 1) == 0x80 * Pow128(n);
    assert Denoted(signed, s', n + 1) == Denoted(signed, s, n);
    DecodeOkIff(w, signed, s, r.value, n);
  }

  // ---------------------------------------------------------------------
  // A minimal encoder, and decoding as its inverse

  /** Minimal unsigned LEB128 encoding: stop once the rest fits in one group. */
  function EncodeUnsigned(v: nat): (e: seq<Byte>)
    ensures e != []
    decreases v
  {
    if v < 0x80 then [v] else [0x80 + v % 0x80] + EncodeUnsigned(v / 0x80)
  }

  /** Minimal signed LEB128 encoding: stop once the rest fits in one group with its sign bit. */
  function EncodeSigned(v: int): (e: seq<Byte>)
    ensures e != []
    decreases if v < 0 then -v else v
  {
    if -0x40 <= v < 0x40 then [v % 0x80] else [0x80 + v % 0x80] + EncodeSigned(v / 0x80)
  }

  function Encode(signed: bool, v: int): (e: seq<Byte>)
    requires signed || v >= 0
    ensures e != []
  {
    if signed then EncodeSigned(v) else EncodeUnsigned(v)
  }

  /** Every group of an encoding but the last asks for more. */
  lemma {:induction false} EncodeShape(signed: bool, v: int)
    requires signed || v >= 0
    ensures var e := Encode(signed, v);
      !More(e[|e| - 1]) && forall i :: 0 <= i < |e| - 1 ==> More(e[i])
    decreases if v < 0 then -v else v
  {
    var e := Encode(signed, v);
    if |e| > 1 {
      EncodeShape(signed, v / 0x80);
      assert e == [0x80 + v % 0x80] + Encode(signed, v / 0x80);
    }
  }

  /** The groups of an encoding denote the encoded value. */
  lemma {:induction false} EncodeDenotes(signed: bool, v: int)
    requires signed || v >= 0
    ensures var e := Encode(signed, v); Denoted(signed, e, |e|) == v
    decreases if v < 0 then -v else v
  {
    var e := Encode(signed, v);
    if |e| > 1 {
      var t := Encode(signed, v / 0x80);
      EncodeDenotes(signed, v / 0x80);
      assert e == [0x80 + v % 0x80] + t;
      RawCons(0x80 + v % 0x80, t, |t|);
      assert e[|e| - 1] == t[|t| - 1];
    } else {
      assert Raw(e, 1) == Payload(e[0]);
    }
  }

  /** A value of 7 * k bits has an encoding of at most k groups. */
  lemma {:induction false} EncodeLength(signed: bool, v: int, k: nat)
    requires k >= 1
    requires if signed then -(Pow128(k) / 2) <= v < Pow128(k) / 2 else 0 <= v < Pow128(k)
    ensures |Encode(signed, v)| <= k
    decreases k
  {
    var e := Encode(signed, v);
    if k == 1 {
      assert Pow128(1) == 0x80;
    } else if |e| > 1 {
      assert Pow128(k) == 0x80 * Pow128(k - 1);
      assert Pow128(k - 1) == 0x80 * Pow128(k - 2);
      EncodeLength(signed, v / 0x80, k - 1);
      assert e == [0x80 + v % 0x80] + Encode(signed, v / 0x80);
    }
  }

  /** Every value of the type fits in MaxGroups groups. */
  lemma EncodeFits(w: Width, signed: bool, v: int)
    requires InRange(w, signed, v)
    ensures |Encode(signed, v)| <= w.MaxGroups()
  {
    assert Pow128(w.MaxGroups()) == 0x80 * Pow128(w.MaxGroups() - 1);
    EncodeLength(signed, v, w.MaxGroups());
  }

  /** Decoding inverts the minimal encoder on every value of the type, whatever follows. */
  lemma EncodeDecode(w: Width, signed: bool, v: int, rest: seq<Byte>)
    requires InRange(w, signed, v)
    ensures Decode(w, signed, Encode(signed, v) + rest) == Ok(v, |Encode(signed, v)|)
  {
    var e := Encode(signed, v);
    var s := e + rest;
    EncodeShape(signed, v);
    EncodeFits(w, signed, v);
    EncodeDenotes(signed, v);
    ContinuedAt(s, |e| - 1);
    RawSame(s, e, |e|);
  }

  /**
   * Value-level round trip: a decoded value re-encodes minimally to an
   * encoding no longer than the one it came from, which decodes to it again.
   */
  lemma ReencodeRoundTrip(w: Width, signed: bool, s: seq<Byte>)
    requires Decode(w, signed, s).Ok?
    ensures var r := Decode(w, signed, s);
      && |Encode(signed, r.value)| <= r.len
      && Decode(w, signed, Encode(signed, r.value)) == Ok(r.value, |Encode(signed, r.value)|)
  {
    var r := Decode(w, signed, s);
    DenotedBounds(signed, s, r.len);
    EncodeLength(signed, r.value, r.len);
    EncodeDecode(w, signed, r.value, []);
    assert Encode(signed, r.value) + [] == Encode(signed, r.value);
  }
}
