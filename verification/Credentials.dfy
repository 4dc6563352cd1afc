/** Generated tokens and passwords: randomToken of internal/controller/apme_controller.go and
    randomPassword of internal/manifests/postgres/statefulset.go, which share one definition. */
module Credentials {
  import opened Options
  import opened Checksum

  /** The URL-safe Base64 alphabet, section 5 of RFC 4648. */
  function Letter(n: int): char
    requires 0 <= n < 64
  {
    if n < 26 then ('A' as int + n) as char
    else if n < 52 then ('a' as int + n - 26) as char
    else if n < 62 then ('0' as int + n - 52) as char
    else if n == 62 then '-' else '_'
  }

  predicate IsLetter(c: char) {
    'A' <= c <= 'Z' || 'a' <= c <= 'z' || '0' <= c <= '9' || c == '-' || c == '_'
  }

  /** The four letters of a three-byte group. */
  function Group(a: Byte, b: Byte, c: Byte): string {
    [Letter(a / 4), Letter(a % 4 * 16 + b / 16), Letter(b % 16 * 4 + c / 64), Letter(c % 64)]
  }

  /** RawURLEncoding.EncodeToString: no padding. */
  function Encode(bytes: Bytes): string {
    if |bytes| == 0 then ""
    else if |bytes| == 1 then [Letter(bytes[0] / 4), Letter(bytes[0] % 4 * 16)]
    else if |bytes| == 2 then Group(bytes[0], bytes[1], 0)[..3]
    else Group(bytes[0], bytes[1], bytes[2]) + Encode(bytes[3..])
  }

  lemma {:induction false} EncodeLength(bytes: Bytes)
    ensures |Encode(bytes)| == (4 * |bytes| + 2) / 3 >= |bytes|
  {
    if |bytes| >= 3 { EncodeLength(bytes[3..]); }
  }

  /** As many letters as bytes were drawn. */
  function Token(bytes: Bytes): string {
    EncodeLength(bytes);
    Encode(bytes)[..|bytes|]
  }

  /** `entropy` is what the random source delivers, or nothing when it fails. */
  method RandomToken(n: nat, entropy: Option<Bytes>) returns (token: Option<string>)
    requires entropy.Some? ==> |entropy.value| == n
    ensures token == if entropy.Some? then Some(Token(entropy.value)) else None
    ensures token.Some? ==> |token.value| == n && forall c :: c in token.value ==> IsLetter(c)
  {
    var b: Bytes := seq(n, _ => 0);
    if entropy.None? {
      return None;
    }
    b := entropy.value;
    EncodeLength(b);
    TokenLetters(b);
    token := Some(Encode(b)[..n]);
  }

  lemma {:induction false} EncodeLetters(bytes: Bytes)
    ensures forall c :: c in Encode(bytes) ==> IsLetter(c)
  {
    if |bytes| >= 3 { EncodeLetters(bytes[3..]); }
  }

  lemma TokenLetters(bytes: Bytes)
    ensures |Token(bytes)| == |bytes|
    ensures forall c :: c in Token(bytes) ==> IsLetter(c)
  {
    EncodeLength(bytes);
    EncodeLetters(bytes);
  }

  lemma LetterInjective(m: int, n: int)
    requires 0 <= m < 64 && 0 <= n < 64 && Letter(m) == Letter(n)
    ensures m == n
  {
  }

  lemma GroupInjective(a: Byte, b: Byte, c: Byte, x: Byte, y: Byte, z: Byte)
    requires Group(a, b, c) == Group(x, y, z)
    ensures a == x && b == y && c == z
  {
    var g, h := Group(a, b, c), Group(x, y, z);
    assert g[0] == h[0] && g[1] == h[1] && g[2] == h[2] && g[3] == h[3];
    LetterInjective(a / 4, x / 4);
    LetterInjective(a % 4 * 16 + b / 16, x % 4 * 16 + y / 16);
    LetterInjective(b % 16 * 4 + c / 64, y % 16 * 4 + z / 64);
    LetterInjective(c % 64, z % 64);
  }

  /** The first 4k letters determine the first 3k bytes. */
  lemma {:induction false} PrefixDetermines(bytes: Bytes, bytes': Bytes, k: nat)
    requires |bytes| >= 3 * k && |bytes'| >= 3 * k
    requires |Encode(bytes)| >= 4 * k && |Encode(bytes')| >= 4 * k
    requires forall i :: 0 <= i < 4 * k ==> Encode(bytes)[i] == Encode(bytes')[i]
    ensures forall i :: 0 <= i < 3 * k ==> bytes[i] == bytes'[i]
  {
    if k > 0 {
      GroupSplit(bytes);
      GroupSplit(bytes');
      GroupInjective(bytes[0], bytes[1], bytes[2], bytes'[0], bytes'[1], bytes'[2]);
      forall i | 0 <= i < 4 * (k - 1)
        ensures Encode(bytes[3..])[i] == Encode(bytes'[3..])[i]
      {
        assert Encode(bytes)[i + 4] == Encode(bytes')[i + 4];
      }
      PrefixDetermines(bytes[3..], bytes'[3..], k - 1);
      forall i | 3 <= i < 3 * k
        ensures bytes[i] == bytes'[i]
      {
        assert bytes[3..][i - 3] == bytes'[3..][i - 3];
      }
    }
  }

  lemma GroupSplit(bytes: Bytes)
    requires |bytes| >= 3
    ensures |Encode(bytes)| == 4 + |Encode(bytes[3..])|
    ensures forall i :: 0 <= i < 4 ==> Encode(bytes)[i] == Group(bytes[0], bytes[1], bytes[2])[i]
    ensures forall i :: 0 <= i < |Encode(bytes[3..])| ==> Encode(bytes)[i + 4] == Encode(bytes[3..])[i]
  {
  }

  /** Truncating keeps three quarters of the entropy: the token determines that share of the bytes drawn. */
  lemma TokenKeepsEntropy(bytes: Bytes, bytes': Bytes)
    requires |bytes| == |bytes'| && |bytes| % 4 == 0 && Token(bytes) == Token(bytes')
    ensures bytes[..|bytes| / 4 * 3] == bytes'[..|bytes| / 4 * 3]
  {
    EncodeLength(bytes);
    EncodeLength(bytes');
    assert forall i :: 0 <= i < |bytes| ==> Encode(bytes)[i] == Token(bytes)[i] == Token(bytes')[i];
    PrefixDetermines(bytes, bytes', |bytes| / 4);
  }
}
