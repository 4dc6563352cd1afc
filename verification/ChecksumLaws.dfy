/** What the config checksum detects. */
module ChecksumLaws {
  import opened Checksum

  // ---- Arithmetic modulo 2^64 ----

  lemma ModUnique(x: int, q: int, r: int, m: int)
    requires m > 0 && 0 <= r < m && x == q * m + r
    ensures x % m == r
  {
    var d := x / m - q;
    assert d * m == (x / m) * m - q * m;
    assert x == (x / m) * m + x % m;
    assert d >= 1 ==> d * m >= m;
    assert d <= -1 ==> d * m <= -m;
  }

  lemma ModMul(a: int, b: int, m: int)
    requires m > 0
    ensures (a % m) * b % m == a * b % m
  {
    var c := (a % m) * b;
    assert a == (a / m) * m + a % m;
    assert a * b == (a / m) * m * b + c;
    assert (a / m) * m * b == ((a / m) * b) * m;
    assert c == (c / m) * m + c % m;
    assert a * b == ((a / m) * b + c / m) * m + c % m by {
      assert ((a / m) * b + c / m) * m == ((a / m) * b) * m + (c / m) * m;
    }
    ModUnique(a * b, (a / m) * b + c / m, c % m, m);
  }

  lemma TimesOne(x: Hash)
    ensures x * (PRIME * PRIME_INVERSE) % MODULUS == x
  {
    assert PRIME * PRIME_INVERSE == 887285111055 * MODULUS + 1;
    assert x * (PRIME * PRIME_INVERSE) == (x * 887285111055) * MODULUS + x;
    ModUnique(x * (PRIME * PRIME_INVERSE), x * 887285111055, x, MODULUS);
  }

  /** Undoing a multiplication by the FNV prime. */
  lemma PrimeInverts(x: Hash)
    ensures (x * PRIME % MODULUS) * PRIME_INVERSE % MODULUS == x
  {
    ModMul(x * PRIME, PRIME_INVERSE, MODULUS);
    assert x * PRIME * PRIME_INVERSE == x * (PRIME * PRIME_INVERSE);
    TimesOne(x);
  }

  lemma InverseInverts(x: Hash)
    ensures (x * PRIME_INVERSE % MODULUS) * PRIME % MODULUS == x
  {
    ModMul(x * PRIME_INVERSE, PRIME, MODULUS);
    assert x * PRIME_INVERSE * PRIME == x * (PRIME * PRIME_INVERSE);
    TimesOne(x);
  }

  lemma {:induction false} XorUndoes(low: nat, b: nat, bits: nat)
    requires bits <= 8 && low < Size(bits)
    ensures Xor(Xor(low, b, bits), b, bits) == low
  {
    if bits > 0 {
      XorUndoes(low / 2, b / 2, bits - 1);
      var x, d := Xor(low / 2, b / 2, bits - 1), (low % 2 + b % 2) % 2;
      Halves(x, d);
      BitUndoes(low % 2, b % 2);
    }
  }

  lemma Halves(x: nat, d: nat)
    requires d < 2
    ensures (2 * x + d) / 2 == x && (2 * x + d) % 2 == d
  {
  }

  lemma BitUndoes(p: nat, q: nat)
    requires p < 2 && q < 2
    ensures ((p + q) % 2 + q) % 2 == p
  {
  }

  lemma {:induction false} XorSeparates(low: nat, b: nat, c: nat, bits: nat)
    requires bits <= 8 && b < Size(bits) && c < Size(bits)
    requires Xor(low, b, bits) == Xor(low, c, bits)
    ensures b == c
  {
    if bits > 0 {
      var x, y := Xor(low / 2, b / 2, bits - 1), Xor(low / 2, c / 2, bits - 1);
      assert x == y;
      XorSeparates(low / 2, b / 2, c / 2, bits - 1);
      BitSeparates(low % 2, b % 2, c % 2);
    }
  }

  lemma BitSeparates(p: nat, q: nat, r: nat)
    requires p < 2 && q < 2 && r < 2 && (p + q) % 2 == (p + r) % 2
    ensures q == r
  {
  }

  function Size(bits: nat): nat
    requires bits <= 8
  {
    [1, 2, 4, 8, 16, 32, 64, 128, 256][bits]
  }

  /** The low byte after an xor, and the rest unchanged. */
  lemma XorParts(h: Hash, b: Byte)
    ensures XorByte(h, b) % 256 == Xor(h % 256, b, 8) < 256
    ensures XorByte(h, b) - XorByte(h, b) % 256 == h - h % 256
  {
    XorBound(h % 256, b, 8);
    var x := Xor(h % 256, b, 8);
    assert h - h % 256 == (h / 256) * 256;
    ModUnique(XorByte(h, b), h / 256, x, 256);
  }

  lemma XorTwice(h: Hash, b: Byte)
    ensures XorByte(XorByte(h, b), b) == h
  {
    XorParts(h, b);
    XorUndoes(h % 256, b, 8);
  }

  /** The step that undoes `Step` for the same byte. */
  function Unstep(h: Hash, b: Byte): Hash {
    XorByte(h * PRIME_INVERSE % MODULUS, b)
  }

  /** For each byte, the FNV-1a step is a bijection on 64-bit states. */
  lemma StepBijective(h: Hash, b: Byte)
    ensures Unstep(Step(h, b), b) == h
    ensures Step(Unstep(h, b), b) == h
  {
    PrimeInverts(XorByte(h, b));
    XorTwice(h, b);
    XorTwice(h * PRIME_INVERSE % MODULUS, b);
    InverseInverts(h);
  }

  /** From one state, different bytes lead to different states. */
  lemma StepSeparates(h: Hash, b: Byte, c: Byte)
    requires b != c
    ensures Step(h, b) != Step(h, c)
  {
    PrimeInverts(XorByte(h, b));
    PrimeInverts(XorByte(h, c));
    if XorByte(h, b) == XorByte(h, c) {
      XorSeparates(h % 256, b, c, 8);
    }
  }

  /** Different states stay different whatever is hashed next. */
  lemma {:induction false} StatesStayApart(g: Hash, h: Hash, s: Bytes)
    requires g != h
    ensures HashFrom(g, s) != HashFrom(h, s)
    decreases |s|
  {
    if |s| > 0 {
      StepBijective(g, s[0]);
      StepBijective(h, s[0]);
      StatesStayApart(Step(g, s[0]), Step(h, s[0]), s[1..]);
    }
  }

  lemma {:induction false} HashConcat(h: Hash, s: Bytes, t: Bytes)
    ensures HashFrom(h, s + t) == HashFrom(HashFrom(h, s), t)
    decreases |s|
  {
    if |s| == 0 {
      assert s + t == t;
    } else {
      assert (s + t)[1..] == s[1..] + t;
      HashConcat(Step(h, s[0]), s[1..], t);
    }
  }

  // ---- The hexadecimal rendering loses nothing ----

  function Pow16(n: nat): int { if n == 0 then 1 else 16 * Pow16(n - 1) }

  lemma {:induction false} HexInjective(g: int, h: int, digits: nat)
    requires 0 <= g < Pow16(digits) && 0 <= h < Pow16(digits) && Hex(g, digits) == Hex(h, digits)
    ensures g == h
    decreases digits
  {
    if digits > 0 {
      HexLength(g / 16, digits - 1);
      HexLength(h / 16, digits - 1);
      var a, b := Hex(g / 16, digits - 1), Hex(h / 16, digits - 1);
      assert a == Hex(g, digits)[..digits - 1] == Hex(h, digits)[..digits - 1] == b;
      assert HexDigit(g % 16) == Hex(g, digits)[digits - 1] == HexDigit(h % 16);
      DigitInjective(g % 16, h % 16);
      HexInjective(g / 16, h / 16, digits - 1);
    }
  }

  lemma DigitInjective(m: int, n: int)
    requires 0 <= m < 16 && 0 <= n < 16 && HexDigit(m) == HexDigit(n)
    ensures m == n
  {
  }

  lemma {:induction false} HexLength(h: int, digits: nat)
    requires h >= 0
    ensures |Hex(h, digits)| == digits
    decreases digits
  {
    if digits > 0 { HexLength(h / 16, digits - 1); }
  }

  lemma SixteenDigits()
    ensures Pow16(16) == MODULUS
  {
    assert Pow16(4) == 16 * Pow16(3) == 0x1_0000;
    assert Pow16(8) == 16 * Pow16(7) == 16 * 16 * Pow16(6) == 16 * 16 * 16 * Pow16(5) == 0x1_0000 * Pow16(4);
    assert Pow16(12) == 16 * Pow16(11) == 16 * 16 * Pow16(10) == 16 * 16 * 16 * Pow16(9) == 0x1_0000 * Pow16(8);
    assert Pow16(16) == 16 * Pow16(15) == 16 * 16 * Pow16(14) == 16 * 16 * 16 * Pow16(13) == 0x1_0000 * Pow16(12);
  }

  lemma DistinctStatesDistinctText(g: Hash, h: Hash)
    requires g != h
    ensures Hex(g, 16) != Hex(h, 16)
  {
    SixteenDigits();
    if Hex(g, 16) == Hex(h, 16) {
      HexInjective(g, h, 16);
    }
  }

  // ---- Framing: the byte stream determines the parts ----

  ghost predicate NewlineFree(part: Bytes) { NEWLINE !in part }

  /** With no newline in any part but the last, the stream determines the parts. */
  lemma {:induction false} StreamInjective(parts: seq<Bytes>, parts': seq<Bytes>)
    requires |parts| == |parts'| > 0
    requires forall i :: 0 <= i < |parts| - 1 ==> NewlineFree(parts[i]) && NewlineFree(parts'[i])
    requires Stream(parts) == Stream(parts')
    ensures parts == parts'
    decreases |parts|
  {
    var p, q := parts[0], parts'[0];
    var t, t' := Stream(parts[1..]), Stream(parts'[1..]);
    assert parts == [p] + parts[1..] && parts' == [q] + parts'[1..];
    if |parts| == 1 {
      assert t == [] && t' == [];
      assert p == (p + [NEWLINE] + t)[..|p|] && q == (q + [NEWLINE] + t')[..|q|];
    } else {
      FirstLine(p, t, q, t');
      forall i | 0 <= i < |parts[1..]| - 1
        ensures NewlineFree(parts[1..][i]) && NewlineFree(parts'[1..][i])
      {
        assert parts[1..][i] == parts[i + 1] && parts'[1..][i] == parts'[i + 1];
      }
      StreamInjective(parts[1..], parts'[1..]);
    }
  }

  lemma FirstLine(p: Bytes, t: Bytes, q: Bytes, t': Bytes)
    requires NewlineFree(p) && NewlineFree(q)
    requires p + [NEWLINE] + t == q + [NEWLINE] + t'
    ensures p == q && t == t'
  {
    var s := p + [NEWLINE] + t;
    assert s[|p|] == NEWLINE && (q + [NEWLINE] + t')[|q|] == NEWLINE;
    assert |p| == |q|;
    assert p == s[..|p|] && q == s[..|q|] && t == s[|p| + 1..] && t' == s[|q| + 1..];
  }

  // ---- Change detection ----

  /** Streams that agree but for one byte never have the same annotation. */
  lemma OneByteChangeDetected(parts: seq<Bytes>, parts': seq<Bytes>, at: nat)
    requires |Stream(parts)| == |Stream(parts')| && at < |Stream(parts)|
    requires Stream(parts')[at] != Stream(parts)[at]
    requires forall i :: 0 <= i < |Stream(parts)| && i != at ==> Stream(parts')[i] == Stream(parts)[i]
    ensures Digest(parts) != Digest(parts')
  {
    var s, s' := Stream(parts), Stream(parts');
    var front, back := s[..at], s[at + 1..];
    assert s == front + ([s[at]] + back) && s' == front + ([s'[at]] + back);
    var h := HashFrom(OFFSET_BASIS, front);
    HashConcat(OFFSET_BASIS, front, [s[at]] + back);
    HashConcat(OFFSET_BASIS, front, [s'[at]] + back);
    assert ([s[at]] + back)[1..] == back && ([s'[at]] + back)[1..] == back;
    StepSeparates(h, s[at], s'[at]);
    StatesStayApart(Step(h, s[at]), Step(h, s'[at]), back);
    DistinctStatesDistinctText(HashFrom(OFFSET_BASIS, s), HashFrom(OFFSET_BASIS, s'));
  }
}
