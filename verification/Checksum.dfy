/** The config-checksum annotation: Checksum of internal/manifests/labels.go, 64-bit FNV-1a over lines. */
module Checksum {

  const OFFSET_BASIS := 14695981039346656037
  const PRIME := 1099511628211
  const MODULUS := 0x1_0000_0000_0000_0000

  /** The inverse of the FNV prime modulo 2^64. */
  const PRIME_INVERSE := 14886173955864302971

  type Byte = b: int | 0 <= b < 256

  type Bytes = seq<Byte>

  type Hash = h: int | 0 <= h < MODULUS

  const NEWLINE: Byte := 10

  /** Exclusive or of the low `bits` bits. */
  function Xor(a: nat, b: nat, bits: nat): nat {
    if bits == 0 then 0 else 2 * Xor(a / 2, b / 2, bits - 1) + (a % 2 + b % 2) % 2
  }

  lemma {:induction false} XorBound(a: nat, b: nat, bits: nat)
    ensures bits <= 8 ==> Xor(a, b, bits) < [1, 2, 4, 8, 16, 32, 64, 128, 256][bits]
  {
    if 0 < bits <= 8 { XorBound(a / 2, b / 2, bits - 1); }
  }

  /** uint64 `h ^ b` touches the low byte only. */
  function XorByte(h: Hash, b: Byte): Hash {
    XorBound(h % 256, b, 8);
    h - h % 256 + Xor(h % 256, b, 8)
  }

  /** One FNV-1a step: xor the byte in, then multiply, wrapping at 64 bits. */
  function Step(h: Hash, b: Byte): Hash {
    XorByte(h, b) * PRIME % MODULUS
  }

  function HashFrom(h: Hash, s: Bytes): Hash
    decreases |s|
  {
    if |s| == 0 then h else HashFrom(Step(h, s[0]), s[1..])
  }

  /** What fmt.Fprintln writes for each part. */
  function Stream(parts: seq<Bytes>): Bytes {
    if |parts| == 0 then [] else parts[0] + [NEWLINE] + Stream(parts[1..])
  }

  function HexDigit(n: int): char
    requires 0 <= n < 16
  {
    "0123456789abcdef"[n]
  }

  /** The `digits` low hexadecimal digits of `h`, most significant first. */
  function Hex(h: int, digits: nat): string
    requires h >= 0
    decreases digits
  {
    if digits == 0 then "" else Hex(h / 16, digits - 1) + [HexDigit(h % 16)]
  }

  /** 64 bits. */
  const DIGITS: nat := 16

  ghost function Digest(parts: seq<Bytes>): string { Hex(HashFrom(OFFSET_BASIS, Stream(parts)), DIGITS) }

  method Sum(parts: seq<Bytes>) returns (sum: string)
    ensures sum == Digest(parts)
  {
    var h: Hash := OFFSET_BASIS;
    for i := 0 to |parts|
      invariant HashFrom(h, Stream(parts[i..])) == HashFrom(OFFSET_BASIS, Stream(parts))
    {
      var line := parts[i] + [NEWLINE];
      ghost var rest := Stream(parts[i + 1..]);
      assert parts[i..][1..] == parts[i + 1..];
      assert Stream(parts[i..]) == line + rest;
      for j := 0 to |line|
        invariant HashFrom(h, line[j..] + rest) == HashFrom(OFFSET_BASIS, Stream(parts))
      {
        assert (line[j..] + rest)[1..] == line[j + 1..] + rest;
        h := Step(h, line[j]);
      }
      assert line[|line|..] + rest == rest;
    }
    sum := Hex(h, DIGITS);
  }
}
