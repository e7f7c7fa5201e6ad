# Strict LEB128 decoders

This project models the four strict LEB128 decoders `decode_i32leb`,
`decode_u32leb`, `decode_i64leb` and `decode_u64leb` and proves properties of
the model. The test program `test.c` drives these decoders and serves as their
contract. Each decoder is called as `decode(start, end, &len)` on the byte
span `[start, end)`. It returns a fixed-width integer. It sets `len > 0` on
success and `len <= 0` on failure.

LEB128 is the variable-length integer encoding of section 5.2.2 of the
WebAssembly Core Specification and section 7.6 of DWARF 5. Each byte (a
*group*) carries seven payload bits, least significant first. Bit 0x80 (the
*continuation bit*) is set on every group except the last. The decoders are
strict:

- a span that ends while a continuation bit is still set fails;
- more than 5 groups (32-bit) or 10 groups (64-bit) fails;
- at the maximum group count, the bits of the last group beyond the width must
  be zero (unsigned) or copies of the sign bit (signed);
- shorter non-minimal encodings are accepted when they are padded canonically.

The project has four modules:

- `Leb128` (`leb128.dfy`) defines the decoding rule as a pure function,
  `Decode(w, signed, s)`. `w` is the width (`W32` or `W64`), `signed` selects
  the signed decoders, and `s` is the span's bytes. The result is
  `Ok(value, len)` or `Err(Truncated | TooLong | Overflow)`. The rule is
  declarative: count the leading continued groups, read the payloads as a
  base-128 number, sign-extend from payload bit 6 for signed decoders, and
  reject a value outside the fixed-width type.
- `Leb128Properties` (`leb128_properties.dfy`) proves what the rule promises
  for every input:
  - exact characterisations of success and of each of the three failures;
  - that bytes after the terminator are ignored;
  - that canonically padded encodings keep their value;
  - that decoding inverts a minimal spec-level encoder.
- `Leb128Decoder` (`leb128_decoder.dfy`) models the decoder routine the way a C
  decoder works. A loop over an array slice keeps an accumulator, a shift and
  a group count. At the terminating group it checks the fill bits,
  sign-extends and casts. The loop is proved to compute `Decode`. The four
  entry points return `(value, len)` with `len > 0` exactly on success.
- `Leb128Vectors` (`leb128_vectors.dfy`) holds one lemma for every byte vector
  in `test.c`. Each lemma proves, by evaluation with the general lemmas, the value and length
  `OK_poly` expects, or the failure `ERR_poly` expects.

## Model

| member | source | states |
|---|---|---|
| Leb128.Width.MaxGroups | test.c:125-128 | the group limit is the least m with Bits() <= 7m: 5 groups for 32 bits, 10 for 64 bits |
| Leb128.Payload | test.c:66 | a byte is its 7-bit payload plus 0x80 exactly when its continuation bit is set |
| Leb128.ContinuedFrom | test.c:67-68 | the scan from group i stops at the first group whose continuation bit is clear, or at the end of the span; every group it passes asks for more |
| Leb128.Continued | test.c:67-68 | the number of leading groups with the continuation bit set; the group after them, if any, terminates |
| Leb128.RawBound | test.c:89-97 | n groups carry a value below 128^n (7n bits) |
| Leb128.Decode | test.c:27-53 | a successful decode consumes 1 to MaxGroups bytes, ends at the first byte without the continuation bit, and yields a value of the fixed-width type |
| Leb128Properties.RawSame | test.c:67-68 | the value of the first n groups depends only on their payloads |
| Leb128Properties.RawCons | test.c:79-80 | a group put in front of others shifts their value up by seven bits |
| Leb128Properties.DenotedBounds | test.c:99-107 | signed groups read as a 7n-bit two's-complement number, negative exactly when payload bit 6 of the last group is set; unsigned groups as a value below 128^n |
| Leb128Properties.ShortInRange | test.c:74-76 | fewer than MaxGroups groups always denote a value of the type, so only a full-length encoding can overflow |
| Leb128Properties.ContinuedAt | test.c:67-68 | when groups 0..j-1 continue and group j terminates, the decode stops at group j |
| Leb128Properties.ContinuedAtLeast | test.c:84-87 | when groups 0..j-1 all continue, the scan reaches at least group j |
| Leb128Properties.DecodeOkIff | test.c:27-39 | a decode yields (v, n) if and only if group n terminates within MaxGroups, all earlier groups continue, and the n groups denote v, a value of the type |
| Leb128Properties.DecodeAtTerminator | test.c:114-123 | unfolds `Decode` at a terminating group within the limit: the denoted value when it is in range, Overflow otherwise; `LastGroup` and `OverflowIff` state the property proper |
| Leb128Properties.TruncatedIff | test.c:84-87 | Truncated if and only if the span holds at most MaxGroups bytes and each asks for more |
| Leb128Properties.TooLongIff | test.c:125-128 | TooLong if and only if the first MaxGroups bytes all ask for more and the span goes on |
| Leb128Properties.LastGroup | test.c:162-172 | with all MaxGroups groups used, the decode succeeds exactly when the last group fits (u32: 0x00-0x0F; i32: 0x00-0x07 or 0x78-0x7F; u64: 0x00 or 0x01; i64: 0x00 or 0x7F), and gives the payloads read as a Bits()-wide number |
| Leb128Properties.OverflowIff | test.c:114-123 | Overflow if and only if the first MaxGroups - 1 groups continue, group MaxGroups terminates, and it does not fit |
| Leb128Properties.SingleByte | test.c:66 | a single terminating byte decodes with length 1 to its payload, sign-extended from bit 6 when signed (0x70 is 112 unsigned and -16 signed) |
| Leb128Properties.TrailingBytesIgnored | test.c:67-68 | unless the span was too short, appending bytes does not change the outcome |
| Leb128Properties.Pad | test.c:74-76 | padding sets the continuation bit on the terminator and inserts a fill group after it; the result is one byte longer |
| Leb128Properties.PadKeepsValue | test.c:80-82 | a canonically padded encoding that still fits in MaxGroups decodes to the same value, one byte longer |
| Leb128Properties.EncodeUnsigned | test.c:139-153 | the minimal unsigned encoding is never empty |
| Leb128Properties.EncodeSigned | test.c:99-107 | the minimal signed encoding is never empty |
| Leb128Properties.EncodeShape | test.c:89-97 | every group of a minimal encoding except the last has its continuation bit set |
| Leb128Properties.EncodeDenotes | test.c:89-97 | the groups of a minimal encoding denote the encoded value |
| Leb128Properties.EncodeLength | test.c:99-107 | a value of 7k bits has a minimal encoding of at most k groups |
| Leb128Properties.EncodeFits | test.c:89-97 | every value of the type has a minimal encoding within MaxGroups groups |
| Leb128Properties.EncodeDecode | test.c:89-97 | decoding the minimal encoding of any value of the type, followed by any bytes, gives back the value and the encoding's length |
| Leb128Properties.ReencodeRoundTrip | test.c:190-194 | a decoded value re-encodes minimally to an encoding no longer than the one it came from, and that encoding decodes to the same value |
| Leb128Decoder.Pow2Groups | test.c:79 | shifting by 7 bits per group multiplies by 128 per group |
| Leb128Decoder.Reinterpret | test.c:232 | the cast of the accumulator keeps its low Bits() bits, so the result is the one value of the type congruent to it modulo 2^Bits() |
| Leb128Decoder.CongruentInRange | test.c:114 | two values of the type that are congruent modulo 2^Bits() are equal |
| Leb128Decoder.FillOk | test.c:114-123 | a terminator before the last possible group always passes the fill check; at the last group (`Leb128Decoder.FillOkIffInRange`) it holds exactly when the decoded value fits the type |
| Leb128Decoder.SignExtend | test.c:70-72 | a signed value whose terminator has bit 6 set is extended with ones above the bits read, so a short negative encoding denotes its negative value |
| Leb128.Raw | test.c:79-82 | the unsigned value of the first n groups, low group first, 7 bits per group (bounded by 128^n in `Leb128.RawBound`) |
| Leb128.Denoted | test.c:99-107 | the value of the first n groups, read as two's complement over 7n bits when signed |
| Leb128.InRange | test.c:162-166 | whether a denoted value fits the width and signedness of the result type |
| Leb128.More | test.c:84-87 | the continuation bit: a byte of 0x80 or more announces another group |
| Leb128Properties.LastGroupFits | test.c:168-172 | the bits of the last possible group beyond the width are all zero (unsigned) or all copies of the sign bit (signed) |
| Leb128Decoder.FillOkAtLastGroup | test.c:162-172 | the fill-bit check on group MaxGroups accepts exactly the terminators that fit |
| Leb128Decoder.FillOkIffInRange | test.c:114-123 | at the terminating group the fill-bit check passes exactly when the groups denote a value of the type |
| Leb128Decoder.ExtendedCongruent | test.c:70-72 | the accumulator after sign extension agrees with the denoted value modulo 2^Bits() |
| Leb128Decoder.FinishValue | test.c:70-72 | when the check passes, sign extension followed by the cast yields the value the groups denote |
| Leb128Decoder.TerminatorDecodes | test.c:114-123 | at the terminating group, Overflow when the check fails, else the sign-extended and cast accumulator, is exactly what Decode gives |
| Leb128Decoder.DecodeLeb | test.c:30 | the loop over a[start..end), with its accumulator, shift and group count, returns exactly Decode of the span: Truncated when the span runs out, TooLong past MaxGroups, Overflow on a bad last group, else the value and length |
| Leb128Decoder.Terminate | test.c:30 | the tail of the loop at the terminating group (the check, sign extension and cast) returns Decode of the span |
| Leb128Decoder.DecodeI32Leb | test.c:27-53 | decode_i32leb sets len > 0 exactly when the decode succeeds, and then returns the decoded int32 and a length of at most 5 |
| Leb128Decoder.DecodeU32Leb | test.c:27-53 | decode_u32leb sets len > 0 exactly when the decode succeeds, and then returns the decoded uint32 and a length of at most 5 |
| Leb128Decoder.DecodeI64Leb | test.c:27-53 | decode_i64leb sets len > 0 exactly when the decode succeeds, and then returns the decoded int64 and a length of at most 10 |
| Leb128Decoder.DecodeU64Leb | test.c:27-53 | decode_u64leb sets len > 0 exactly when the decode succeeds, and then returns the decoded uint64 and a length of at most 10 |
| Leb128Vectors.Accepts | test.c:27-39 | the decode succeeds with value v and exactly the documented length; this is stronger than the test macro, which fails only on a negative length (test.c:31) and never compares the length |
| Leb128Vectors.Rejects | test.c:46-53 | the decode fails, and with the named rule; the test macro checks only that no positive length comes back (test.c:49) |
| Leb128Vectors.I32Line63 | test.c:63 | [0x00] decodes as int32 to 0, consuming 1 byte |
| Leb128Vectors.I32Line64 | test.c:64 | [0x01] decodes as int32 to 1, consuming 1 byte |
| Leb128Vectors.I32Line65 | test.c:65 | [0x0D] decodes as int32 to 13, consuming 1 byte |
| Leb128Vectors.I32Line66 | test.c:66 | [0x70] decodes as int32 to -16, consuming 1 byte |
| Leb128Vectors.I32Line67 | test.c:67 | [0x0F, 0x00] decodes as int32 to 15, consuming 1 byte |
| Leb128Vectors.I32Line68 | test.c:68 | [0x1F, 0x06] decodes as int32 to 31, consuming 1 byte |
| Leb128Vectors.I32Line70 | test.c:70 | [0x74] decodes as int32 to -12, consuming 1 byte |
| Leb128Vectors.I32Line71 | test.c:71 | [0xF3, 0x7F] decodes as int32 to -13, consuming 2 bytes |
| Leb128Vectors.I32Line72 | test.c:72 | [0xF1, 0xFF, 0x7F] decodes as int32 to -15, consuming 3 bytes |
| Leb128Vectors.I32Line74 | test.c:74 | [0xA7, 0x7F] decodes as int32 to -89, consuming 2 bytes |
| Leb128Vectors.I32Line75 | test.c:75 | [0xA7, 0xFF, 0x7F] decodes as int32 to -89, consuming 3 bytes |
| Leb128Vectors.I32Line76 | test.c:76 | [0xA7, 0xFF, 0xFF, 0x7F] decodes as int32 to -89, consuming 4 bytes |
| Leb128Vectors.I32Line77 | test.c:77 | [0xA7, 0xFF, 0xFF, 0x7F] decodes as int32 to -89, consuming 4 bytes |
| Leb128Vectors.I32Line79 | test.c:79 | [0x80, 0x01] decodes as int32 to 128, consuming 2 bytes |
| Leb128Vectors.I32Line80 | test.c:80 | [0x83, 0x80, 0x03] decodes as int32 to 49155, consuming 3 bytes |
| Leb128Vectors.I32Line81 | test.c:81 | [0x83, 0x80, 0x83, 0x00] decodes as int32 to 49155, consuming 4 bytes |
| Leb128Vectors.I32Line82 | test.c:82 | [0x83, 0x80, 0x83, 0x80, 0x00] decodes as int32 to 49155, consuming 5 bytes |
| Leb128Vectors.I32Line84 | test.c:84 | [0x80] is rejected as int32 (Truncated: the span ends while the last byte still asks for more) |
| Leb128Vectors.I32Line85 | test.c:85 | [0x8E, 0x8E] is rejected as int32 (Truncated: the span ends while the last byte still asks for more) |
| Leb128Vectors.I32Line86 | test.c:86 | [0x9E, 0x9F, 0x99] is rejected as int32 (Truncated: the span ends while the last byte still asks for more) |
| Leb128Vectors.I32Line87 | test.c:87 | [0xFF, 0xFF, 0xFF, 0xFF] is rejected as int32 (Truncated: the span ends while the last byte still asks for more) |
| Leb128Vectors.I32Line89 | test.c:89 | [0x21] decodes as int32 to 33, consuming 1 byte |
| Leb128Vectors.I32Line90 | test.c:90 | [0xE7, 0x01] decodes as int32 to 231, consuming 2 bytes |
| Leb128Vectors.I32Line91 | test.c:91 | [0xD1, 0x0C] decodes as int32 to 1617, consuming 2 bytes |
| Leb128Vectors.I32Line92 | test.c:92 | [0xB7, 0xD8, 0x00] decodes as int32 to 11319, consuming 3 bytes |
| Leb128Vectors.I32Line93 | test.c:93 | [0x81, 0xEB, 0x04] decodes as int32 to 79233, consuming 3 bytes |
| Leb128Vectors.I32Line94 | test.c:94 | [0x87, 0xED, 0x21] decodes as int32 to 554631, consuming 3 bytes |
| Leb128Vectors.I32Line95 | test.c:95 | [0xB1, 0xFB, 0xEC, 0x01] decodes as int32 to 3882417, consuming 4 bytes |
| Leb128Vectors.I32Line96 | test.c:96 | [0xD7, 0xDF, 0xFA, 0x0C] decodes as int32 to 27176919, consuming 4 bytes |
| Leb128Vectors.I32Line97 | test.c:97 | [0xE1, 0x9D, 0xDB, 0xDA, 0x00] decodes as int32 to 190238433, consuming 5 bytes |
| Leb128Vectors.I32Line99 | test.c:99 | [0x61] decodes as int32 to -31, consuming 1 byte |
| Leb128Vectors.I32Line100 | test.c:100 | [0xA7, 0x7E] decodes as int32 to -217, consuming 2 bytes |
| Leb128Vectors.I32Line101 | test.c:101 | [0x91, 0x74] decodes as int32 to -1519, consuming 2 bytes |
| Leb128Vectors.I32Line102 | test.c:102 | [0xF7, 0xAC, 0x7F] decodes as int32 to -10633, consuming 3 bytes |
| Leb128Vectors.I32Line103 | test.c:103 | [0xC1, 0xBA, 0x7B] decodes as int32 to -74431, consuming 3 bytes |
| Leb128Vectors.I32Line104 | test.c:104 | [0xC7, 0x99, 0x60] decodes as int32 to -521017, consuming 3 bytes |
| Leb128Vectors.I32Line105 | test.c:105 | [0xF1, 0xB2, 0xA1, 0x7E] decodes as int32 to -3647119, consuming 4 bytes |
| Leb128Vectors.I32Line106 | test.c:106 | [0x97, 0xE4, 0xE9, 0x73] decodes as int32 to -25529833, consuming 4 bytes |
| Leb128Vectors.I32Line107 | test.c:107 | [0xA1, 0xBD, 0xE4, 0xAA, 0x7F] decodes as int32 to -178708831, consuming 5 bytes |
| Leb128Vectors.I32ExtLine114 | test.c:114 | [0x80, 0x80, 0x80, 0x80, 0x7F] decodes as int32 to -268435456, consuming 5 bytes |
| Leb128Vectors.I32ExtLine116 | test.c:116 | [0x81, 0x84, 0x87, 0x8A, 0x08] is rejected as int32 (Overflow: group 5 has bits beyond 32 bits that are not sign-fill) |
| Leb128Vectors.I32ExtLine117 | test.c:117 | [0x82, 0x85, 0x88, 0x8B, 0x09] is rejected as int32 (Overflow: group 5 has bits beyond 32 bits that are not sign-fill) |
| Leb128Vectors.I32ExtLine118 | test.c:118 | [0x83, 0x86, 0x89, 0x8C, 0x10] is rejected as int32 (Overflow: group 5 has bits beyond 32 bits that are not sign-fill) |
| Leb128Vectors.I32ExtLine119 | test.c:119 | [0x8A, 0x8D, 0x89, 0x86, 0x20] is rejected as int32 (Overflow: group 5 has bits beyond 32 bits that are not sign-fill) |
| Leb128Vectors.I32ExtLine120 | test.c:120 | [0x8B, 0x8E, 0x88, 0x85, 0x40] is rejected as int32 (Overflow: group 5 has bits beyond 32 bits that are not sign-fill) |
| Leb128Vectors.I32ExtLine121 | test.c:121 | [0x8B, 0x8E, 0x88, 0x85, 0x70] is rejected as int32 (Overflow: group 5 has bits beyond 32 bits that are not sign-fill) |
| Leb128Vectors.I32ExtLine122 | test.c:122 | [0x8B, 0x8E, 0x88, 0x85, 0x71] is rejected as int32 (Overflow: group 5 has bits beyond 32 bits that are not sign-fill) |
| Leb128Vectors.I32ExtLine123 | test.c:123 | [0x8C, 0x8F, 0x87, 0x84, 0x6E] is rejected as int32 (Overflow: group 5 has bits beyond 32 bits that are not sign-fill) |
| Leb128Vectors.I32ExtLine125 | test.c:125 | [0x83, 0x80, 0x83, 0x80, 0x80, 0x00] is rejected as int32 (TooLong: the first 5 bytes all ask for more) |
| Leb128Vectors.I32ExtLine126 | test.c:126 | [0xA7, 0xFF, 0xFF, 0xFF, 0xFF, 0x7F] is rejected as int32 (TooLong: the first 5 bytes all ask for more) |
| Leb128Vectors.I32ExtLine127 | test.c:127 | [0x83, 0x80, 0x83, 0x80, 0x80, 0x01] is rejected as int32 (TooLong: the first 5 bytes all ask for more) |
| Leb128Vectors.I32ExtLine128 | test.c:128 | [0xA7, 0xFF, 0xFF, 0xFF, 0xFF, 0x7E] is rejected as int32 (TooLong: the first 5 bytes all ask for more) |
| Leb128Vectors.U32Line133 | test.c:133 | [0x70] decodes as uint32 to 112, consuming 1 byte |
| Leb128Vectors.U32Line134 | test.c:134 | [0xA7, 0x7F] decodes as uint32 to 16295, consuming 2 bytes |
| Leb128Vectors.U32Line135 | test.c:135 | [0xA7, 0xFE, 0x7F] decodes as uint32 to 2096935, consuming 3 bytes |
| Leb128Vectors.U32Line136 | test.c:136 | [0xA7, 0xFE, 0xFD, 0x7F] decodes as uint32 to 268402471, consuming 4 bytes |
| Leb128Vectors.U32Line137 | test.c:137 | [0xA7, 0xF0, 0xF1, 0xF2, 0x0E] decodes as uint32 to 3999037479, consuming 5 bytes |
| Leb128Vectors.U32Line139 | test.c:139 | [0x1D] decodes as uint32 to 29, consuming 1 byte |
| Leb128Vectors.U32Line140 | test.c:140 | [0xCB, 0x01] decodes as uint32 to 203, consuming 2 bytes |
| Leb128Vectors.U32Line141 | test.c:141 | [0x8D, 0x0B] decodes as uint32 to 1421, consuming 2 bytes |
| Leb128Vectors.U32Line142 | test.c:142 | [0xDB, 0x4D] decodes as uint32 to 9947, consuming 2 bytes |
| Leb128Vectors.U32Line143 | test.c:143 | [0xFD, 0x9F, 0x04] decodes as uint32 to 69629, consuming 3 bytes |
| Leb128Vectors.U32Line144 | test.c:144 | [0xEB, 0xDF, 0x1D] decodes as uint32 to 487403, consuming 3 bytes |
| Leb128Vectors.U32Line145 | test.c:145 | [0xED, 0x9E, 0xD0, 0x01] decodes as uint32 to 3411821, consuming 4 bytes |
| Leb128Vectors.U32Line146 | test.c:146 | [0xFB, 0xD7, 0xB1, 0x0B] decodes as uint32 to 23882747, consuming 4 bytes |
| Leb128Vectors.U32Line147 | test.c:147 | [0xDD, 0xE7, 0xDB, 0x4F] decodes as uint32 to 167179229, consuming 4 bytes |
| Leb128Vectors.U32Line148 | test.c:148 | [0x8B, 0xD6, 0x82, 0xAE, 0x04] decodes as uint32 to 1170254603, consuming 5 bytes |
| Leb128Vectors.U32Line149 | test.c:149 | [0xCD, 0xDA, 0x92, 0xC2, 0x0E] decodes as uint32 to 3896814925, consuming 5 bytes |
| Leb128Vectors.U32Line150 | test.c:150 | [0x9B, 0xFA, 0x82, 0xCF, 0x05] decodes as uint32 to 1507900699, consuming 5 bytes |
| Leb128Vectors.U32Line151 | test.c:151 | [0xBD, 0xD7, 0x94, 0xA9, 0x07] decodes as uint32 to 1965370301, consuming 5 bytes |
| Leb128Vectors.U32Line152 | test.c:152 | [0xAB, 0xE4, 0x90, 0xA0, 0x03] decodes as uint32 to 872690219, consuming 5 bytes |
| Leb128Vectors.U32Line153 | test.c:153 | [0xAD, 0xBE, 0xF5, 0xE0, 0x06] decodes as uint32 to 1813864237, consuming 5 bytes |
| Leb128Vectors.U32Line155 | test.c:155 | [0xA7, 0xF0, 0xF1, 0xF2, 0x1E] is rejected as uint32 (Overflow: group 5 has bits beyond 32 bits that are not zero) |
| Leb128Vectors.U32Line156 | test.c:156 | [0xA7, 0xF0, 0xF1, 0xF2, 0xFE] is rejected as uint32 (Truncated: the span ends while the last byte still asks for more) |
| Leb128Vectors.U32ExtLine162 | test.c:162 | [0x80, 0x80, 0x80, 0x80, 0x00] decodes as uint32 to 0, consuming 5 bytes |
| Leb128Vectors.U32ExtLine163 | test.c:163 | [0x80, 0x80, 0x80, 0x80, 0x01] decodes as uint32 to 0x1000_0000, consuming 5 bytes |
| Leb128Vectors.U32ExtLine164 | test.c:164 | [0x80, 0x80, 0x80, 0x80, 0x07] decodes as uint32 to 0x7000_0000, consuming 5 bytes |
| Leb128Vectors.U32ExtLine165 | test.c:165 | [0x80, 0x80, 0x80, 0x80, 0x0D] decodes as uint32 to 0xD000_0000, consuming 5 bytes |
| Leb128Vectors.U32ExtLine166 | test.c:166 | [0x80, 0x80, 0x80, 0x80, 0x0F] decodes as uint32 to 0xF000_0000, consuming 5 bytes |
| Leb128Vectors.U32ExtLine168 | test.c:168 | [0x83, 0x86, 0x89, 0x8C, 0x10] is rejected as uint32 (Overflow: group 5 has bits beyond 32 bits that are not zero) |
| Leb128Vectors.U32ExtLine169 | test.c:169 | [0x8A, 0x8D, 0x89, 0x86, 0x20] is rejected as uint32 (Overflow: group 5 has bits beyond 32 bits that are not zero) |
| Leb128Vectors.U32ExtLine170 | test.c:170 | [0x8B, 0x8E, 0x88, 0x85, 0x40] is rejected as uint32 (Overflow: group 5 has bits beyond 32 bits that are not zero) |
| Leb128Vectors.U32ExtLine171 | test.c:171 | [0x8B, 0x8E, 0x88, 0x85, 0x70] is rejected as uint32 (Overflow: group 5 has bits beyond 32 bits that are not zero) |
| Leb128Vectors.U32ExtLine172 | test.c:172 | [0x8C, 0x8F, 0x87, 0x84, 0x7E] is rejected as uint32 (Overflow: group 5 has bits beyond 32 bits that are not zero) |
| Leb128Vectors.U32ExtLine174 | test.c:174 | [0xA7, 0xF0, 0xF1, 0xF2, 0x8E, 0x00] is rejected as uint32 (TooLong: the first 5 bytes all ask for more) |
| Leb128Vectors.U32ExtLine175 | test.c:175 | [0xA7, 0xF0, 0xF1, 0xF2, 0x80, 0x00] is rejected as uint32 (TooLong: the first 5 bytes all ask for more) |
| Leb128Vectors.U32ExtLine176 | test.c:176 | [0xA7, 0xF0, 0xF1, 0xF2, 0x80, 0x01] is rejected as uint32 (TooLong: the first 5 bytes all ask for more) |
| Leb128Vectors.I64Line181 | test.c:181 | [0x00] decodes as int64 to 0, consuming 1 byte |
| Leb128Vectors.I64Line182 | test.c:182 | [0x01] decodes as int64 to 1, consuming 1 byte |
| Leb128Vectors.I64Line183 | test.c:183 | [0x0D] decodes as int64 to 13, consuming 1 byte |
| Leb128Vectors.I64Line184 | test.c:184 | [0x70] decodes as int64 to -16, consuming 1 byte |
| Leb128Vectors.I64Line186 | test.c:186 | [0xA7, 0x7F] decodes as int64 to -89, consuming 2 bytes |
| Leb128Vectors.I64Line187 | test.c:187 | [0xA6, 0xFF, 0x7F] decodes as int64 to -90, consuming 3 bytes |
| Leb128Vectors.I64Line188 | test.c:188 | [0xA5, 0xFF, 0xFF, 0x7F] decodes as int64 to -91, consuming 4 bytes |
| Leb128Vectors.I64Line189 | test.c:189 | [0xA4, 0xFF, 0xFF, 0x7F] decodes as int64 to -92, consuming 4 bytes |
| Leb128Vectors.I64Line190 | test.c:190 | [0xA3, 0xFF, 0xFF, 0xFF, 0xFF, 0x7F] decodes as int64 to -93, consuming 6 bytes |
| Leb128Vectors.I64Line191 | test.c:191 | [0xA3, 0xFF, 0xFF, 0xFF, 0xFF, 0xFF, 0x7F] decodes as int64 to -93, consuming 7 bytes |
| Leb128Vectors.I64Line192 | test.c:192 | [0xA3, 0xFF, 0xFF, 0xFF, 0xFF, 0xFF, 0xFF, 0x7F] decodes as int64 to -93, consuming 8 bytes |
| Leb128Vectors.I64Line193 | test.c:193 | [0xA3, 0xFF, 0xFF, 0xFF, 0xFF, 0xFF, 0xFF, 0xFF, 0x7F] decodes as int64 to -93, consuming 9 bytes |
| Leb128Vectors.I64Line194 | test.c:194 | [0xA3, 0xFF, 0xFF, 0xFF, 0xFF, 0xFF, 0xFF, 0xFF, 0xFF, 0x7F] decodes as int64 to -93, consuming 10 bytes |
| Leb128Vectors.I64Line196 | test.c:196 | [0xF4, 0xD2, 0xA6, 0x87, 0x01] decodes as int64 to 283748724, consuming 5 bytes |
| Leb128Vectors.I64Line198 | test.c:198 | [0x81, 0x81, 0x81, 0x81, 0x01] decodes as int64 to 270549121, consuming 5 bytes |
| Leb128Vectors.I64Line199 | test.c:199 | [0x81, 0x82, 0x83, 0x84, 0x05] decodes as int64 to 1350615297, consuming 5 bytes |
| Leb128Vectors.I64Line200 | test.c:200 | [0x81, 0x82, 0x83, 0x84, 0x85, 0x06] decodes as int64 to 207509045505, consuming 6 bytes |
| Leb128Vectors.I64Line201 | test.c:201 | [0x81, 0x82, 0x83, 0x84, 0x85, 0x86, 0x07] decodes as int64 to 30993834623233, consuming 7 bytes |
| Leb128Vectors.I64Line202 | test.c:202 | [0x81, 0x82, 0x83, 0x84, 0x85, 0x86, 0x87, 0x08] decodes as int64 to 4534593461993729, consuming 8 bytes |
| Leb128Vectors.I64Line203 | test.c:203 | [0x81, 0x82, 0x83, 0x84, 0x85, 0x86, 0x87, 0x88, 0x09] decodes as int64 to 653052939803345153, consuming 9 bytes |
| Leb128Vectors.I64Line205 | test.c:205 | [0x63] decodes as int64 to -29, consuming 1 byte |
| Leb128Vectors.I64Line206 | test.c:206 | [0xB5, 0x7E] decodes as int64 to -203, consuming 2 bytes |
| Leb128Vectors.I64Line207 | test.c:207 | [0xF3, 0x74] decodes as int64 to -1421, consuming 2 bytes |
| Leb128Vectors.I64Line208 | test.c:208 | [0xA5, 0xB2, 0x7F] decodes as int64 to -9947, consuming 3 bytes |
| Leb128Vectors.I64Line209 | test.c:209 | [0x83, 0xE0, 0x7B] decodes as int64 to -69629, consuming 3 bytes |
| Leb128Vectors.I64Line210 | test.c:210 | [0x95, 0xA0, 0x62] decodes as int64 to -487403, consuming 3 bytes |
| Leb128Vectors.I64Line211 | test.c:211 | [0x93, 0xE1, 0xAF, 0x7E] decodes as int64 to -3411821, consuming 4 bytes |
| Leb128Vectors.I64Line212 | test.c:212 | [0x85, 0xA8, 0xCE, 0x74] decodes as int64 to -23882747, consuming 4 bytes |
| Leb128Vectors.I64Line213 | test.c:213 | [0xA3, 0x98, 0xA4, 0xB0, 0x7F] decodes as int64 to -167179229, consuming 5 bytes |
| Leb128Vectors.I64Line214 | test.c:214 | [0xF5, 0xA9, 0xFD, 0xD1, 0x7B] decodes as int64 to -1170254603, consuming 5 bytes |
| Leb128Vectors.I64Line215 | test.c:215 | [0xB3, 0xA5, 0xED, 0xBD, 0x61] decodes as int64 to -8191782221, consuming 5 bytes |
| Leb128Vectors.I64Line216 | test.c:216 | [0xE5, 0x85, 0xFD, 0xB0, 0xAA, 0x7E] decodes as int64 to -57342475547, consuming 6 bytes |
| Leb128Vectors.I64Line217 | test.c:217 | [0xC3, 0xA8, 0xEB, 0xD6, 0xA8, 0x74] decodes as int64 to -401397328829, consuming 6 bytes |
| Leb128Vectors.I64Line218 | test.c:218 | [0xD5, 0x9B, 0xEF, 0xDF, 0x9C, 0xAE, 0x7F] decodes as int64 to -2809781301803, consuming 7 bytes |
| Leb128Vectors.I64Line219 | test.c:219 | [0xD3, 0xC1, 0x8A, 0x9F, 0xC9, 0xC3, 0x7B] decodes as int64 to -19668469112621, consuming 7 bytes |
| Leb128Vectors.I64Line220 | test.c:220 | [0xC5, 0xCB, 0xC9, 0xD9, 0x80, 0xD9, 0x60] decodes as int64 to -137679283788347, consuming 7 bytes |
| Leb128Vectors.I64Line221 | test.c:221 | [0xE3, 0x90, 0x83, 0xF3, 0x84, 0xEF, 0xA4, 0x7E] decodes as int64 to -963754986518429, consuming 8 bytes |
| Leb128Vectors.I64Line222 | test.c:222 | [0xB5, 0xF5, 0x95, 0xA5, 0xA2, 0x89, 0x82, 0x74] decodes as int64 to -6746284905629003, consuming 8 bytes |
| Leb128Vectors.I64Line225 | test.c:225 | [0x81, 0x82, 0x83, 0x84, 0x85, 0x86, 0x87, 0x88, 0x89, 0x08] is rejected as int64 (Overflow: group 10 has bits beyond 64 bits that are not sign-fill) |
| Leb128Vectors.I64Line226 | test.c:226 | [0xA3, 0xFF, 0xFF, 0xFF, 0xFF, 0xFF, 0xFF, 0xFF, 0xFF, 0x6F] is rejected as int64 (Overflow: group 10 has bits beyond 64 bits that are not sign-fill) |
| Leb128Vectors.I64ExtLine232 | test.c:232 | [0x80, 0x80, 0x80, 0x80, 0x80, 0x80, 0x80, 0x80, 0x80, 0x7F] decodes as int64 to -0x8000_0000_0000_0000, consuming 10 bytes |
| Leb128Vectors.I64ExtLine233 | test.c:233 | [0x80, 0x80, 0x80, 0x80, 0x80, 0x80, 0x80, 0x80, 0x80, 0x00] decodes as int64 to 0, consuming 10 bytes |
| Leb128Vectors.I64ExtLine235 | test.c:235 | [0x80, 0x80, 0x80, 0x80, 0x80, 0x80, 0x80, 0x80, 0x80, 0x01] is rejected as int64 (Overflow: group 10 has bits beyond 64 bits that are not sign-fill) |
| Leb128Vectors.I64ExtLine236 | test.c:236 | [0x80, 0x80, 0x80, 0x80, 0x80, 0x80, 0x80, 0x80, 0x80, 0x02] is rejected as int64 (Overflow: group 10 has bits beyond 64 bits that are not sign-fill) |
| Leb128Vectors.I64ExtLine237 | test.c:237 | [0x80, 0x80, 0x80, 0x80, 0x80, 0x80, 0x80, 0x80, 0x80, 0x04] is rejected as int64 (Overflow: group 10 has bits beyond 64 bits that are not sign-fill) |
| Leb128Vectors.I64ExtLine238 | test.c:238 | [0x80, 0x80, 0x80, 0x80, 0x80, 0x80, 0x80, 0x80, 0x80, 0x08] is rejected as int64 (Overflow: group 10 has bits beyond 64 bits that are not sign-fill) |
| Leb128Vectors.I64ExtLine239 | test.c:239 | [0x80, 0x80, 0x80, 0x80, 0x80, 0x80, 0x80, 0x80, 0x80, 0x10] is rejected as int64 (Overflow: group 10 has bits beyond 64 bits that are not sign-fill) |
| Leb128Vectors.I64ExtLine240 | test.c:240 | [0x80, 0x80, 0x80, 0x80, 0x80, 0x80, 0x80, 0x80, 0x80, 0x20] is rejected as int64 (Overflow: group 10 has bits beyond 64 bits that are not sign-fill) |
| Leb128Vectors.I64ExtLine241 | test.c:241 | [0x80, 0x80, 0x80, 0x80, 0x80, 0x80, 0x80, 0x80, 0x80, 0x40] is rejected as int64 (Overflow: group 10 has bits beyond 64 bits that are not sign-fill) |
| Leb128Vectors.I64ExtLine243 | test.c:243 | [0x80, 0x80, 0x80, 0x80, 0x80, 0x80, 0x80, 0x80, 0x80, 0x80] is rejected as int64 (Truncated: the span ends while the last byte still asks for more) |
| Leb128Vectors.I64ExtLine244 | test.c:244 | [0x80, 0x80, 0x80, 0x80, 0x80, 0x80, 0x80, 0x80, 0x80, 0x50] is rejected as int64 (Overflow: group 10 has bits beyond 64 bits that are not sign-fill) |
| Leb128Vectors.I64ExtLine245 | test.c:245 | [0x80, 0x80, 0x80, 0x80, 0x80, 0x80, 0x80, 0x80, 0x80, 0x20] is rejected as int64 (Overflow: group 10 has bits beyond 64 bits that are not sign-fill) |
| Leb128Vectors.I64ExtLine246 | test.c:246 | [0x80, 0x80, 0x80, 0x80, 0x80, 0x80, 0x80, 0x80, 0x80, 0x30] is rejected as int64 (Overflow: group 10 has bits beyond 64 bits that are not sign-fill) |
| Leb128Vectors.I64ExtLine248 | test.c:248 | [0xA3, 0xFF, 0xFF, 0xFF, 0xFF, 0xFF, 0xFF, 0xFF, 0xFF, 0xFF, 0x7F] is rejected as int64 (TooLong: the first 10 bytes all ask for more) |
| Leb128Vectors.I64ExtLine249 | test.c:249 | [0x81, 0x82, 0x83, 0x84, 0x85, 0x86, 0x87, 0x88, 0x89, 0x80, 0x01] is rejected as int64 (TooLong: the first 10 bytes all ask for more) |
| Leb128Vectors.I64ExtLine250 | test.c:250 | [0xA3, 0xFF, 0xFF, 0xFF, 0xFF, 0xFF, 0xFF, 0xFF, 0xFF, 0xFF, 0x7E] is rejected as int64 (TooLong: the first 10 bytes all ask for more) |
| Leb128Vectors.U64Line256 | test.c:256 | [0x00] decodes as uint64 to 0, consuming 1 byte |
| Leb128Vectors.U64Line257 | test.c:257 | [0x01] decodes as uint64 to 1, consuming 1 byte |
| Leb128Vectors.U64Line258 | test.c:258 | [0x0D] decodes as uint64 to 13, consuming 1 byte |
| Leb128Vectors.U64Line259 | test.c:259 | [0x70] decodes as uint64 to 112, consuming 1 byte |
| Leb128Vectors.U64Line261 | test.c:261 | [0x81, 0x82, 0x83, 0x84, 0x85, 0x86, 0x87, 0x88, 0x09] decodes as uint64 to 653052939803345153, consuming 9 bytes |
| Leb128Vectors.U64Line262 | test.c:262 | [0x81, 0x82, 0x83, 0x84, 0x85, 0x86, 0x87, 0x88, 0x89, 0x00] decodes as uint64 to 653052939803345153, consuming 10 bytes |
| Leb128Vectors.U64Line264 | test.c:264 | [0x1A] decodes as uint64 to 26, consuming 1 byte |
| Leb128Vectors.U64Line265 | test.c:265 | [0xB6, 0x01] decodes as uint64 to 182, consuming 2 bytes |
| Leb128Vectors.U64Line266 | test.c:266 | [0xFA, 0x09] decodes as uint64 to 1274, consuming 2 bytes |
| Leb128Vectors.U64Line267 | test.c:267 | [0xD6, 0x45] decodes as uint64 to 8918, consuming 2 bytes |
| Leb128Vectors.U64Line268 | test.c:268 | [0xDA, 0xE7, 0x03] decodes as uint64 to 62426, consuming 3 bytes |
| Leb128Vectors.U64Line269 | test.c:269 | [0xF6, 0xD5, 0x1A] decodes as uint64 to 436982, consuming 3 bytes |
| Leb128Vectors.U64Line270 | test.c:270 | [0xBA, 0xD9, 0xBA, 0x01] decodes as uint64 to 3058874, consuming 4 bytes |
| Leb128Vectors.U64Line271 | test.c:271 | [0x96, 0xF2, 0x9A, 0x0A] decodes as uint64 to 21412118, consuming 4 bytes |
| Leb128Vectors.U64Line272 | test.c:272 | [0x9A, 0x9F, 0xBC, 0x47] decodes as uint64 to 149884826, consuming 4 bytes |
| Leb128Vectors.U64Line273 | test.c:273 | [0xB6, 0xDA, 0xA5, 0xF4, 0x03] decodes as uint64 to 1049193782, consuming 5 bytes |
| Leb128Vectors.U64Line274 | test.c:274 | [0xFA, 0xF8, 0x87, 0xAE, 0x1B] decodes as uint64 to 7344356474, consuming 5 bytes |
| Leb128Vectors.U64Line275 | test.c:275 | [0xD6, 0xCE, 0xB7, 0xC2, 0xBF, 0x01] decodes as uint64 to 51410495318, consuming 6 bytes |
| Leb128Vectors.U64Line276 | test.c:276 | [0xDA, 0xA6, 0x85, 0xD1, 0xBC, 0x0A] decodes as uint64 to 359873467226, consuming 6 bytes |
| Leb128Vectors.U64Line277 | test.c:277 | [0xF6, 0x8E, 0xA5, 0xB7, 0xA8, 0x49] decodes as uint64 to 2519114270582, consuming 6 bytes |
| Leb128Vectors.U64Line278 | test.c:278 | [0xBA, 0xE8, 0x83, 0x83, 0x9B, 0x81, 0x04] decodes as uint64 to 17633799894074, consuming 7 bytes |
| Leb128Vectors.U64Line279 | test.c:279 | [0x96, 0xDB, 0x9A, 0x95, 0xBD, 0x88, 0x1C] decodes as uint64 to 123436599258518, consuming 7 bytes |
| Leb128Vectors.U64Line280 | test.c:280 | [0x9A, 0xFE, 0xBA, 0x94, 0xAC, 0xBB, 0xC4, 0x01] decodes as uint64 to 864056194809626, consuming 8 bytes |
| Leb128Vectors.U64Line281 | test.c:281 | [0xB6, 0xF3, 0x9C, 0x8F, 0xB5, 0x9F, 0xDF, 0x0A] decodes as uint64 to 6048393363667382, consuming 8 bytes |
| Leb128Vectors.U64Line283 | test.c:283 | [0x81, 0x82, 0x83, 0x84, 0x85, 0x86, 0x87, 0x88, 0x89, 0x02] is rejected as uint64 (Overflow: group 10 has bits beyond 64 bits that are not zero) |
| Leb128Vectors.U64Line284 | test.c:284 | [0x81, 0x82, 0x83, 0x84, 0x85, 0x86, 0x87, 0x88, 0x89, 0x80, 0x01] is rejected as uint64 (TooLong: the first 10 bytes all ask for more) |
| Leb128Vectors.U64ExtLine289 | test.c:289 | [0x80, 0x80, 0x80, 0x80, 0x80, 0x80, 0x80, 0x80, 0x80, 0x01] decodes as uint64 to 0x8000_0000_0000_0000, consuming 10 bytes |
| Leb128Vectors.U64ExtLine290 | test.c:290 | [0x80, 0x80, 0x80, 0x80, 0x80, 0x80, 0x80, 0x80, 0x80, 0x00] decodes as uint64 to 0, consuming 10 bytes |
| Leb128Vectors.U64ExtLine292 | test.c:292 | [0x80, 0x80, 0x80, 0x80, 0x80, 0x80, 0x80, 0x80, 0x80, 0x02] is rejected as uint64 (Overflow: group 10 has bits beyond 64 bits that are not zero) |
| Leb128Vectors.U64ExtLine293 | test.c:293 | [0x80, 0x80, 0x80, 0x80, 0x80, 0x80, 0x80, 0x80, 0x80, 0x04] is rejected as uint64 (Overflow: group 10 has bits beyond 64 bits that are not zero) |
| Leb128Vectors.U64ExtLine294 | test.c:294 | [0x80, 0x80, 0x80, 0x80, 0x80, 0x80, 0x80, 0x80, 0x80, 0x08] is rejected as uint64 (Overflow: group 10 has bits beyond 64 bits that are not zero) |
| Leb128Vectors.U64ExtLine295 | test.c:295 | [0x80, 0x80, 0x80, 0x80, 0x80, 0x80, 0x80, 0x80, 0x80, 0x10] is rejected as uint64 (Overflow: group 10 has bits beyond 64 bits that are not zero) |
| Leb128Vectors.U64ExtLine296 | test.c:296 | [0x80, 0x80, 0x80, 0x80, 0x80, 0x80, 0x80, 0x80, 0x80, 0x20] is rejected as uint64 (Overflow: group 10 has bits beyond 64 bits that are not zero) |
| Leb128Vectors.U64ExtLine297 | test.c:297 | [0x80, 0x80, 0x80, 0x80, 0x80, 0x80, 0x80, 0x80, 0x80, 0x40] is rejected as uint64 (Overflow: group 10 has bits beyond 64 bits that are not zero) |
| Leb128Vectors.U64ExtLine299 | test.c:299 | [0x80, 0x80, 0x80, 0x80, 0x80, 0x80, 0x80, 0x80, 0x80, 0x80] is rejected as uint64 (Truncated: the span ends while the last byte still asks for more) |
| Leb128Vectors.U64ExtLine300 | test.c:300 | [0x80, 0x80, 0x80, 0x80, 0x80, 0x80, 0x80, 0x80, 0x80, 0x50] is rejected as uint64 (Overflow: group 10 has bits beyond 64 bits that are not zero) |
| Leb128Vectors.U64ExtLine301 | test.c:301 | [0x80, 0x80, 0x80, 0x80, 0x80, 0x80, 0x80, 0x80, 0x80, 0x20] is rejected as uint64 (Overflow: group 10 has bits beyond 64 bits that are not zero) |
| Leb128Vectors.U64ExtLine302 | test.c:302 | [0x80, 0x80, 0x80, 0x80, 0x80, 0x80, 0x80, 0x80, 0x80, 0x30] is rejected as uint64 (Overflow: group 10 has bits beyond 64 bits that are not zero) |
| Leb128Vectors.U64ExtLine304 | test.c:304 | [0x81, 0x82, 0x83, 0x84, 0x85, 0x86, 0x87, 0x88, 0x89, 0x80, 0x00] is rejected as uint64 (TooLong: the first 10 bytes all ask for more) |
| Leb128Vectors.U64ExtLine305 | test.c:305 | [0x81, 0x82, 0x83, 0x84, 0x85, 0x86, 0x87, 0x88, 0x89, 0x80, 0x01] is rejected as uint64 (TooLong: the first 10 bytes all ask for more) |

## Left out

- The decoder bodies are declared in `common.h`, which is not part of this model. `Leb128Decoder.DecodeLeb` follows the usual strict LEB128 decoding loop. The `test.c` vectors are proved of `Decode`, which that loop computes.
- Where a span both runs out and reaches the group limit (exactly MaxGroups bytes, all continued), the model reports Truncated, because the end-of-span check comes before the group-count check. The caller sees only `len <= 0` either way.
- The exact negative value of `len` on failure is not pinned down by the callers, which test only its sign. The entry points report `Leb128Decoder.FailedLen` (-1), and `Decode` records which rule failed.
- `OK_poly` rejects only a negative `len`, and the expected length it is given is documentation. The vector lemmas are stronger: they state the exact documented length.
- The byte addresses `start` and `end` become positions in a byte array, and the `len` out-parameter becomes a second return value.
- The fixed-width C types become newtypes over `int`. The cast of the accumulator is written out as reduction modulo 2^Bits() followed by a two's-complement reading (`Leb128Decoder.Reinterpret`).
- `run_tests` and its `##>` / `##+` / `##-ok` / `##-fail` progress output (test.c:323-338) are left out: they are console I/O of the test runner.
- The `all_tests` table, the `test_t` struct and the `VERBOSE` / `CHECK_EQ` macros (test.c:9-22, test.c:309-318) are left out: they are test-runner plumbing.
- The helper `foo` (test.c:341-344) is left out: it repeats one case.
- The `printf` diagnostics inside `OK_poly` and `ERR_poly` are left out: they are formatting only.
- Nothing in the source produces encodings. `Leb128Properties.Encode` is a spec-level minimal encoder that exists only to state round trips.
