/** The config checksum at work: when a change of the token or the CA bundle rolls the Deployment. */
module Rollout {
  import opened Resolve
  import opened Cluster
  import opened Manifests
  import opened Checksum
  import opened ChecksumLaws
  import opened DatabaseUrl
  import opened Plan

  lemma {:induction false} StreamAround(parts: seq<Bytes>, k: nat)
    requires k < |parts|
    ensures Stream(parts) == Stream(parts[..k]) + parts[k] + ([NEWLINE] + Stream(parts[k + 1..]))
  {
    if k == 0 {
      assert parts[..0] == [] && Stream(parts[..0]) == [];
      assert [] + parts[0] == parts[0];
      assert parts[0] + [NEWLINE] + Stream(parts[1..]) == parts[0] + ([NEWLINE] + Stream(parts[1..]));
    } else {
      StreamAround(parts[1..], k - 1);
      var front, back := Stream(parts[1..][..k - 1]), [NEWLINE] + Stream(parts[k + 1..]);
      assert parts[1..][..k - 1] == parts[..k][1..] && parts[1..][k..] == parts[k + 1..];
      assert parts[0] + [NEWLINE] + (front + parts[k] + back) == parts[0] + [NEWLINE] + front + parts[k] + back;
    }
  }

  /** Parts that agree but for one byte of one of them have digests that differ. */
  lemma OnePartByteDetected(parts: seq<Bytes>, parts': seq<Bytes>, k: nat, at: nat)
    requires |parts| == |parts'| && k < |parts| && |parts[k]| == |parts'[k]| && at < |parts[k]|
    requires forall i :: 0 <= i < |parts| && i != k ==> parts'[i] == parts[i]
    requires parts'[k][at] != parts[k][at]
    requires forall i :: 0 <= i < |parts[k]| && i != at ==> parts'[k][i] == parts[k][i]
    ensures Digest(parts) != Digest(parts')
  {
    StreamAround(parts, k);
    StreamAround(parts', k);
    assert parts[..k] == parts'[..k] && parts[k + 1..] == parts'[k + 1..];
    var front, back := Stream(parts[..k]), [NEWLINE] + Stream(parts[k + 1..]);
    OneByteBetween(front, parts[k], parts'[k], back, at);
    OneByteChangeDetected(parts, parts', |front| + at);
  }

  lemma OneByteBetween(front: Bytes, p: Bytes, q: Bytes, back: Bytes, at: nat)
    requires |p| == |q| && at < |p| && p[at] != q[at]
    requires forall i :: 0 <= i < |p| && i != at ==> q[i] == p[i]
    ensures var s, s' := front + p + back, front + q + back;
            && |s| == |s'| && |front| + at < |s| && s'[|front| + at] != s[|front| + at]
            && forall i :: 0 <= i < |s| && i != |front| + at ==> s'[i] == s[i]
  {
  }

  // ---- The eight inputs ----

  /** What the checksum of the Deployment is taken over, in order. */
  function ChecksumInputs(d: Desired, token: string, ca: string): seq<string> {
    [d.database.secretName, d.database.secretKey, d.database.tlsSecretName, d.abbenay.tokenName, d.proxy.tokenName,
     token, d.version, ca]
  }

  /** The texts differ in the letter at `at` and nowhere else. */
  predicate OneLetter(s: string, s': string, at: nat) {
    && |s| == |s'| && at < |s| && s[at] as int % 256 != s'[at] as int % 256
    && forall i :: 0 <= i < |s| && i != at ==> s'[i] == s[i]
  }

  lemma PartsAreInputs(d: Desired, token: string, ca: string)
    ensures |ChecksumParts(d, token, ca)| == 8
    ensures forall k :: 0 <= k < 8 ==> ChecksumParts(d, token, ca)[k] == BytesOf(ChecksumInputs(d, token, ca)[k])
  {
  }

  /** A change of one letter of any one of the eight inputs, the token and the CA bundle among them, gives the Deployment
      another checksum. */
  lemma InputChangeDetected(d: Desired, d': Desired, token: string, token': string, ca: string, ca': string, k: nat, at: nat)
    requires var x, x' := ChecksumInputs(d, token, ca), ChecksumInputs(d', token', ca');
             k < 8 && OneLetter(x[k], x'[k], at) && forall i :: 0 <= i < 8 && i != k ==> x'[i] == x[i]
    ensures ChecksumOf(d, token, ca) != ChecksumOf(d', token', ca')
  {
    var parts, parts' := ChecksumParts(d, token, ca), ChecksumParts(d', token', ca');
    PartsAreInputs(d, token, ca);
    PartsAreInputs(d', token', ca');
    assert parts[k] == BytesOf(ChecksumInputs(d, token, ca)[k]) && parts'[k] == BytesOf(ChecksumInputs(d', token', ca')[k]);
    OnePartByteDetected(parts, parts', k, at);
  }

  lemma TokenChangeDetected(d: Desired, token: string, token': string, ca: string, at: nat)
    requires OneLetter(token, token', at)
    ensures ChecksumOf(d, token, ca) != ChecksumOf(d, token', ca)
  {
    InputChangeDetected(d, d, token, token', ca, ca, 5, at);
  }

  lemma CAChangeDetected(d: Desired, token: string, ca: string, ca': string, at: nat)
    requires OneLetter(ca, ca', at)
    ensures ChecksumOf(d, token, ca) != ChecksumOf(d, token, ca')
  {
    InputChangeDetected(d, d, token, token, ca, ca', 7, at);
  }

  // ---- Nothing is left out of the stream ----

  lemma BytesOfInjective(s: string, s': string)
    requires IsBytes(s) && IsBytes(s') && BytesOf(s) == BytesOf(s')
    ensures s == s'
  {
    forall i | 0 <= i < |s|
      ensures |s| == |s'| && s[i] == s'[i]
    {
      assert |BytesOf(s)| == |BytesOf(s')| && BytesOf(s)[i] == BytesOf(s')[i];
    }
    assert |s| == |BytesOf(s)| == |BytesOf(s')| == |s'|;
  }

  /** The bytes the checksum is taken over. */
  ghost function HashedBytes(d: Desired, token: string, ca: string): Bytes { Stream(ChecksumParts(d, token, ca)) }

  lemma ChecksumIsOfThem(d: Desired, token: string, ca: string)
    ensures ChecksumOf(d, token, ca) == Hex(HashFrom(OFFSET_BASIS, HashedBytes(d, token, ca)), DIGITS)
  {
  }

  /** The same bytes come of the same eight inputs only, when none but the CA bundle holds a newline. */
  lemma SameBytesSameInputs(d: Desired, d': Desired, token: string, token': string, ca: string, ca': string)
    requires HashedBytes(d, token, ca) == HashedBytes(d', token', ca')
    requires forall k :: 0 <= k < 8 ==> IsBytes(ChecksumInputs(d, token, ca)[k]) && IsBytes(ChecksumInputs(d', token', ca')[k])
    requires forall k :: 0 <= k < 7 ==> '\n' !in ChecksumInputs(d, token, ca)[k] && '\n' !in ChecksumInputs(d', token', ca')[k]
    ensures ChecksumInputs(d, token, ca) == ChecksumInputs(d', token', ca')
  {
    var x, x' := ChecksumInputs(d, token, ca), ChecksumInputs(d', token', ca');
    var parts, parts' := ChecksumParts(d, token, ca), ChecksumParts(d', token', ca');
    PartsAreInputs(d, token, ca);
    PartsAreInputs(d', token', ca');
    forall k | 0 <= k < 7
      ensures NEWLINE !in parts[k] && NEWLINE !in parts'[k]
    {
      NoNewlineByte(x[k]);
      NoNewlineByte(x'[k]);
    }
    StreamInjective(parts, parts');
    forall k | 0 <= k < 8
      ensures x[k] == x'[k]
    {
      BytesOfInjective(x[k], x'[k]);
    }
  }

  lemma NoNewlineByte(s: string)
    requires IsBytes(s) && '\n' !in s
    ensures NEWLINE !in BytesOf(s)
  {
  }

  // ---- Rolling the Deployment ----

  /** Applying the Deployment for other inputs changes the one in the store exactly when the checksum differs. */
  lemma RollsIffChecksumDiffers(uid: Uid, d: Desired, s: Slot, sum: string, sum': string)
    requires Patched(s, uid, WorkloadPayload(d, sum)) == Done(s)
    ensures Patched(s, uid, WorkloadPayload(d, sum')) == Done(s) <==> sum == sum'
  {
    PatchedFields(s, uid, WorkloadPayload(d, sum), Template);
    if Patched(s, uid, WorkloadPayload(d, sum')) == Done(s) {
      PatchedFields(s, uid, WorkloadPayload(d, sum'), Template);
    }
  }

  /** So a token or a CA bundle that differs in one letter changes the stored Deployment: its Pod is rolled. */
  lemma TokenOrCAChangeRolls(uid: Uid, d: Desired, s: Slot, token: string, token': string, ca: string, ca': string, at: nat)
    requires Patched(s, uid, WorkloadPayload(d, ChecksumOf(d, token, ca))) == Done(s)
    requires (OneLetter(token, token', at) && ca' == ca) || (token' == token && OneLetter(ca, ca', at))
    ensures Patched(s, uid, WorkloadPayload(d, ChecksumOf(d, token', ca'))) != Done(s)
  {
    if ca' == ca { TokenChangeDetected(d, token, token', ca, at); } else { CAChangeDetected(d, token, ca, ca', at); }
    RollsIffChecksumDiffers(uid, d, s, ChecksumOf(d, token, ca), ChecksumOf(d, token', ca'));
  }
}
