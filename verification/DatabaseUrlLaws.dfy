/** What normalising the database URL keeps, and that it is done once. */
module DatabaseUrlLaws {
  import opened Options
  import opened Credentials
  import opened DatabaseUrl

  // ---- Escaping is inverted by unescaping ----

  lemma UnescapeChar(c: char, rest: string)
    requires c as int < 256
    ensures Unescape(EscapeChar(c) + rest) == Prepend(c, Unescape(rest))
  {
    var s := EscapeChar(c) + rest;
    if Unreserved(c) || c == ' ' {
      assert s[1..] == rest;
    } else {
      assert s[3..] == rest;
      assert 16 * (c as int / 16) + c as int % 16 == c as int;
    }
  }

  lemma {:induction false} UnescapeEscape(s: string)
    requires IsBytes(s)
    ensures Unescape(Escape(s)) == Some(s)
  {
    if s != "" {
      UnescapeEscape(s[1..]);
      UnescapeChar(s[0], Escape(s[1..]));
      assert s == [s[0]] + s[1..];
    }
  }

  predicate Separator(c: char) { c == '&' || c == '=' || c == ';' || c == '?' || c == '#' }

  /** What escaping leaves: no separator of a URL or of a query. */
  lemma {:induction false} EscapeSafe(s: string)
    ensures forall c :: c in Escape(s) ==> !Separator(c)
  {
    if s != "" { EscapeSafe(s[1..]); }
  }

  lemma {:induction false} EscapeUnreserved(s: string)
    requires forall i :: 0 <= i < |s| ==> Unreserved(s[i])
    ensures Escape(s) == s
  {
    if s != "" {
      EscapeUnreserved(s[1..]);
      assert s == [s[0]] + s[1..];
    }
  }

  lemma {:induction false} UnescapeBytes(s: string)
    requires IsBytes(s) && Unescape(s).Some?
    ensures IsBytes(Unescape(s).value)
    decreases |s|
  {
    if s != "" {
      if s[0] == '%' {
        UnescapeBytes(s[3..]);
      } else {
        UnescapeBytes(s[1..]);
      }
    }
  }

  // ---- Cutting ----

  lemma {:induction false} CutFound(a: string, sep: char, b: string)
    requires sep !in a
    ensures CutAt(a + [sep] + b, sep) == Cut(a, b, true)
  {
    var s := a + [sep] + b;
    if a == "" {
      assert s[1..] == b;
    } else {
      CutFound(a[1..], sep, b);
      assert s[1..] == a[1..] + [sep] + b;
      assert a == [a[0]] + a[1..];
    }
  }

  lemma {:induction false} CutMissing(a: string, sep: char)
    requires sep !in a
    ensures CutAt(a, sep) == Cut(a, "", false)
  {
    if a != "" {
      CutMissing(a[1..], sep);
      assert a == [a[0]] + a[1..];
    }
  }

  lemma {:induction false} CutBytes(s: string, sep: char)
    requires IsBytes(s)
    ensures IsBytes(CutAt(s, sep).before) && IsBytes(CutAt(s, sep).after)
  {
    if s != "" && s[0] != sep { CutBytes(s[1..], sep); }
  }

  // ---- Parsing a query inverts encoding it ----

  ghost predicate BytePairs(pairs: seq<Pair>) {
    forall p :: p in pairs ==> IsBytes(p.0) && IsBytes(p.1)
  }

  lemma ParseOnePiece(a: string, b: string, key: string, value: string)
    requires forall c :: c in a || c in b ==> !Separator(c)
    requires Unescape(a) == Some(key) && Unescape(b) == Some(value)
    ensures ParsePiece(a + "=" + b) == [(key, value)]
    ensures '&' !in a + "=" + b && a + "=" + b != ""
  {
    CutFound(a, '=', b);
  }

  lemma ParseFirstPiece(piece: string, rest: string)
    requires '&' !in piece && piece != ""
    ensures ParsePairs(piece) == ParsePiece(piece)
    ensures ParsePairs(piece + "&" + rest) == ParsePiece(piece) + ParsePairs(rest)
  {
    CutMissing(piece, '&');
    CutFound(piece, '&', rest);
    assert ParsePairs("") == [];
  }

  lemma {:induction false} ParseEncodePairs(pairs: seq<Pair>)
    requires BytePairs(pairs)
    ensures ParsePairs(EncodePairs(pairs)) == pairs
  {
    if |pairs| > 0 {
      var p, rest := pairs[0], EncodePairs(pairs[1..]);
      var a, b := Escape(p.0), Escape(p.1);
      assert p in pairs;
      EscapeSafe(p.0);
      EscapeSafe(p.1);
      UnescapeEscape(p.0);
      UnescapeEscape(p.1);
      ParseOnePiece(a, b, p.0, p.1);
      ParseFirstPiece(a + "=" + b, rest);
      if |pairs| > 1 {
        ParseEncodePairs(pairs[1..]);
        assert EncodePairs(pairs) == a + "=" + b + "&" + rest by { JoinAssociates(a, b, rest); }
        assert pairs == [p] + pairs[1..];
      } else {
        assert EncodePairs(pairs) == a + "=" + b;
      }
    }
  }

  lemma JoinAssociates(a: string, b: string, rest: string)
    ensures a + "=" + b + ("&" + rest) == a + "=" + b + "&" + rest
  {
  }

  /** The values of `k` among the pairs, in order. */
  function ValuesFor(pairs: seq<Pair>, k: string): seq<string> {
    if |pairs| == 0 then []
    else
      var last := pairs[|pairs| - 1];
      ValuesFor(pairs[..|pairs| - 1], k) + if last.0 == k then [last.1] else []
  }

  lemma {:induction false} CollectValues(pairs: seq<Pair>, k: string)
    ensures ValuesOf(Collect(pairs), k) == ValuesFor(pairs, k)
    ensures k in Collect(pairs) <==> ValuesFor(pairs, k) != []
  {
    if |pairs| > 0 { CollectValues(pairs[..|pairs| - 1], k); }
  }

  lemma {:induction false} ValuesConcat(a: seq<Pair>, b: seq<Pair>, k: string)
    ensures ValuesFor(a + b, k) == ValuesFor(a, k) + ValuesFor(b, k)
  {
    if |b| == 0 {
      assert a + b == a;
    } else {
      ValuesConcat(a, b[..|b| - 1], k);
      assert (a + b)[..|a + b| - 1] == a + b[..|b| - 1];
    }
  }

  lemma {:induction false} KeyPairsValues(k: string, vs: seq<string>, j: string)
    ensures ValuesFor(KeyPairs(k, vs), j) == if j == k then vs else []
  {
    if |vs| > 0 {
      KeyPairsValues(k, vs[..|vs| - 1], j);
      assert KeyPairs(k, vs)[..|vs| - 1] == KeyPairs(k, vs[..|vs| - 1]);
    }
  }

  lemma ValuesOfRest(m: Query, k: string, j: string)
    requires k in m
    ensures (m - {k}).Keys == m.Keys - {k} && |(m - {k}).Keys| < |m.Keys|
    ensures ValuesOf(m - {k}, j) == if j == k then [] else ValuesOf(m, j)
  {
  }

  lemma {:induction false} FlattenValues(m: Query, j: string)
    ensures ValuesFor(Flatten(m), j) == ValuesOf(m, j)
    decreases |m.Keys|
  {
    if m.Keys != {} {
      LeastExists(m.Keys);
      var k :| IsLeast(k, m.Keys) && Flatten(m) == KeyPairs(k, m[k]) + Flatten(m - {k});
      ValuesOfRest(m, k, j);
      FlattenValues(m - {k}, j);
      KeyPairsValues(k, m[k], j);
      ValuesConcat(KeyPairs(k, m[k]), Flatten(m - {k}), j);
    }
  }

  ghost predicate ByteQuery(m: Query) {
    forall k :: k in m ==> IsBytes(k) && m[k] != [] && forall v :: v in m[k] ==> IsBytes(v)
  }

  lemma KeyPairsBytes(k: string, vs: seq<string>, rest: seq<Pair>)
    requires IsBytes(k) && (forall v :: v in vs ==> IsBytes(v)) && BytePairs(rest)
    ensures BytePairs(KeyPairs(k, vs) + rest)
  {
    forall p | p in KeyPairs(k, vs)
      ensures IsBytes(p.0) && IsBytes(p.1)
    {
      var i :| 0 <= i < |vs| && KeyPairs(k, vs)[i] == p;
      assert vs[i] in vs;
    }
  }

  lemma {:induction false} FlattenBytes(m: Query)
    requires ByteQuery(m)
    ensures BytePairs(Flatten(m))
    decreases |m.Keys|
  {
    if m.Keys != {} {
      LeastExists(m.Keys);
      var k :| IsLeast(k, m.Keys) && Flatten(m) == KeyPairs(k, m[k]) + Flatten(m - {k});
      assert (m - {k}).Keys == m.Keys - {k};
      FlattenBytes(m - {k});
      KeyPairsBytes(k, m[k], Flatten(m - {k}));
    }
  }

  /** url.ParseQuery inverts url.Values.Encode. */
  lemma ParseInvertsEncode(m: Query)
    requires ByteQuery(m)
    ensures ParseQuery(EncodeQuery(m)) == m
  {
    FlattenBytes(m);
    ParseEncodePairs(Flatten(m));
    forall k
      ensures k in Collect(Flatten(m)) <==> k in m
      ensures k in m ==> Collect(Flatten(m))[k] == m[k]
    {
      CollectValues(Flatten(m), k);
      FlattenValues(m, k);
    }
  }

  lemma {:induction false} ParsedPairsBytes(q: string)
    requires IsBytes(q)
    ensures BytePairs(ParsePairs(q))
    decreases |q|
  {
    if q != "" {
      CutBytes(q, '&');
      var piece := CutAt(q, '&').before;
      CutBytes(piece, '=');
      ParsedPairsBytes(CutAt(q, '&').after);
      var key, value := Unescape(CutAt(piece, '=').before), Unescape(CutAt(piece, '=').after);
      if key.Some? && value.Some? {
        UnescapeBytes(CutAt(piece, '=').before);
        UnescapeBytes(CutAt(piece, '=').after);
      }
    }
  }

  lemma {:induction false} CollectedBytes(pairs: seq<Pair>)
    requires BytePairs(pairs)
    ensures ByteQuery(Collect(pairs))
  {
    if |pairs| > 0 {
      CollectedBytes(pairs[..|pairs| - 1]);
      assert pairs[|pairs| - 1] in pairs;
    }
  }

  // ---- WithVerifyFullTLS ----

  lemma {:induction false} EncodedHasNoFragment(pairs: seq<Pair>)
    ensures '#' !in EncodePairs(pairs)
  {
    if |pairs| > 0 {
      EscapeSafe(pairs[0].0);
      EscapeSafe(pairs[0].1);
      EncodedHasNoFragment(pairs[1..]);
    }
  }

  /** Printing a URL and parsing it again gives back its parts. */
  lemma ParseInvertsPrint(text: UrlText, u: Url)
    requires '#' !in u.base && '?' !in u.base && '#' !in u.rawQuery
    requires text.base(u.base) == Some(u.base) && text.fragment(u.fragment) == Some(u.fragment)
    ensures ParseUrl(text, PrintUrl(u)) == Some(u)
  {
    var front := u.base + "?" + u.rawQuery;
    CutFound(u.base, '?', u.rawQuery);
    if u.fragment == "" {
      assert PrintUrl(u) == front;
      CutMissing(front, '#');
    } else {
      assert PrintUrl(u) == front + "#" + u.fragment;
      CutFound(front, '#', u.fragment);
    }
  }

  ghost function UrlQuery(text: UrlText, s: string): Query
    requires ParseUrl(text, s).Some?
  {
    ParseQuery(ParseUrl(text, s).value.rawQuery)
  }

  lemma RawQueryBytes(text: UrlText, s: string)
    requires IsBytes(s) && ParseUrl(text, s).Some?
    ensures ByteQuery(UrlQuery(text, s)) && ByteQuery(VerifyFullQuery(UrlQuery(text, s)))
  {
    CutBytes(s, '#');
    CutBytes(CutAt(s, '#').before, '?');
    var raw := ParseUrl(text, s).value.rawQuery;
    ParsedPairsBytes(raw);
    CollectedBytes(ParsePairs(raw));
  }

  /** The rewritten URL parses to the same parts, except that its query is the rewritten query. */
  lemma VerifyFullReadsBack(text: UrlText, s: string)
    requires Prints(text) && IsBytes(s) && ParseUrl(text, s).Some?
    ensures var u, out := ParseUrl(text, s).value, VerifyFull(text, s).value;
            && ParseUrl(text, out) == Some(u.(rawQuery := EncodeQuery(VerifyFullQuery(UrlQuery(text, s)))))
            && UrlQuery(text, out) == VerifyFullQuery(UrlQuery(text, s))
  {
    var u := ParseUrl(text, s).value;
    var q := VerifyFullQuery(UrlQuery(text, s));
    RawQueryBytes(text, s);
    EncodedHasNoFragment(Flatten(q));
    ParseInvertsPrint(text, u.(rawQuery := EncodeQuery(q)));
    ParseInvertsEncode(q);
  }

  /** In the text the gateway reads: no sslmode, exactly one ssl, set to verify-full, and for every other
      parameter the same values in the same order. */
  lemma VerifyFullValues(text: UrlText, s: string, k: string)
    requires Prints(text) && IsBytes(s) && ParseUrl(text, s).Some?
    ensures var u, v := ParseUrl(text, s).value, ParseUrl(text, VerifyFull(text, s).value);
            && v.Some? && v.value.base == u.base && v.value.fragment == u.fragment
            && ValuesFor(ParsePairs(v.value.rawQuery), k) ==
               if k == "ssl" then ["verify-full"]
               else if k == "sslmode" then []
               else ValuesFor(ParsePairs(u.rawQuery), k)
  {
    VerifyFullReadsBack(text, s);
    var u, v := ParseUrl(text, s).value, ParseUrl(text, VerifyFull(text, s).value).value;
    CollectValues(ParsePairs(u.rawQuery), k);
    CollectValues(ParsePairs(v.rawQuery), k);
  }

  /** Rewriting a rewritten URL changes nothing. */
  lemma VerifyFullIdempotent(text: UrlText, s: string)
    requires Prints(text) && IsBytes(s) && VerifyFull(text, s).Some?
    ensures VerifyFull(text, VerifyFull(text, s).value) == VerifyFull(text, s)
  {
    VerifyFullReadsBack(text, s);
    RewrittenTwice(UrlQuery(text, s));
  }

  lemma RewrittenTwice(q: Query)
    ensures VerifyFullQuery(VerifyFullQuery(q)) == VerifyFullQuery(q)
  {
  }

  // ---- The operator's own URL ----

  /** Generated passwords appear verbatim. */
  lemma {:induction false} PasswordVerbatim(password: string)
    requires forall i :: 0 <= i < |password| ==> IsLetter(password[i])
    ensures EscapeUserinfo(password) == password
  {
    if password != "" {
      PasswordVerbatim(password[1..]);
      assert password == [password[0]] + password[1..];
    }
  }

  lemma SingleKey(k: string, v: string)
    ensures Flatten(map[k := [v]]) == [(k, v)]
  {
    var m: Query := map[k := [v]];
    assert k in m.Keys;
    LeastExists(m.Keys);
    var l :| IsLeast(l, m.Keys) && Flatten(m) == KeyPairs(l, m[l]) + Flatten(m - {l});
    assert l == k && (m - {k}).Keys == {};
    assert KeyPairs(k, [v]) == [(k, v)];
  }

  ghost function OwnMap(k: string, v: string): Query { map[k := [v]] }

  ghost predicate Plain(s: string) { forall i :: 0 <= i < |s| ==> Unreserved(s[i]) }

  /** A query of one key and one value, neither of which needs escaping. */
  lemma OnePairQuery(k: string, v: string)
    requires Plain(k) && Plain(v)
    ensures EncodeQuery(OwnMap(k, v)) == k + "=" + v
    ensures ParseQuery(k + "=" + v) == OwnMap(k, v)
    ensures NoMark(k + "=" + v)
  {
    OnePairText(k, v);
    ParseInvertsEncode(OwnMap(k, v));
  }

  lemma OnePairText(k: string, v: string)
    requires Plain(k) && Plain(v)
    ensures EncodeQuery(OwnMap(k, v)) == k + "=" + v
    ensures NoMark(k + "=" + v)
  {
    SingleKey(k, v);
    EscapeUnreserved(k);
    EscapeUnreserved(v);
    assert EncodePairs([(k, v)]) == k + "=" + v;
  }

  lemma OwnMapIsRewritten(k: string, v: string)
    requires k == "ssl" && v == "verify-full"
    ensures VerifyFullQuery(OwnMap(k, v)) == OwnMap(k, v)
  {
    assert OwnMap(k, v) - {"sslmode"} == OwnMap(k, v);
  }

  /** A DNS name as Kubernetes admits it. */
  predicate DnsName(s: string) {
    forall i :: 0 <= i < |s| ==> 'a' <= s[i] <= 'z' || '0' <= s[i] <= '9' || s[i] == '-' || s[i] == '.'
  }

  ghost predicate NoMark(s: string) { '#' !in s && '?' !in s }

  lemma DnsNameNoMark(s: string)
    requires DnsName(s)
    ensures NoMark(s)
  {
  }

  lemma LettersNoMark(s: string)
    requires forall c :: c in s ==> IsLetter(c)
    ensures NoMark(s)
  {
  }

  lemma HostNoMark(name: string, namespace: string)
    requires NoMark(name) && NoMark(namespace)
    ensures NoMark(PostgresHost(name, namespace))
  {
  }

  lemma NoMark4(a: string, b: string, c: string, d: string)
    requires NoMark(a) && NoMark(b) && NoMark(c) && NoMark(d)
    ensures NoMark(a + b + c + d)
  {
  }

  /** The text before the query of the generated URL: the password verbatim, and no query or fragment mark. */
  lemma OwnBaseText(name: string, namespace: string, password: string)
    requires DnsName(name) && DnsName(namespace) && forall c :: c in password ==> IsLetter(c)
    ensures OwnBase(name, namespace, password) ==
            SCHEME + PG_USER + ":" + password + "@" + PostgresHost(name, namespace) + ":5432/" + PG_DB
    ensures NoMark(OwnBase(name, namespace, password))
  {
    PasswordVerbatim(password);
    PasswordVerbatim(PG_USER);
    DnsNameNoMark(name);
    DnsNameNoMark(namespace);
    HostNoMark(name, namespace);
    LettersNoMark(password);
    NoMark4(SCHEME, PG_USER, ":", password);
    NoMark4(SCHEME + PG_USER + ":" + password, "@", PostgresHost(name, namespace), ":5432/");
    NoMark4(SCHEME + PG_USER + ":" + password + "@" + PostgresHost(name, namespace) + ":5432/", PG_DB, "", "");
  }

  /** The generated URL is left as it is. */
  lemma OwnUrlIsFixedPoint(text: UrlText, name: string, namespace: string, password: string)
    requires DnsName(name) && DnsName(namespace) && forall c :: c in password ==> IsLetter(c)
    requires text.fragment("") == Some("")
    requires text.base(OwnBase(name, namespace, password)) == Some(OwnBase(name, namespace, password))
    ensures VerifyFull(text, OwnUrl(name, namespace, password)) == Some(OwnUrl(name, namespace, password))
  {
    var base := OwnBase(name, namespace, password);
    OwnBaseText(name, namespace, password);
    OnePairQuery(SSL_KEY, SSL_VALUE);
    OwnMapIsRewritten(SSL_KEY, SSL_VALUE);
    OwnUrlParts(text, base, OwnRawQuery(), OwnMap(SSL_KEY, SSL_VALUE));
  }

  lemma OwnUrlParts(text: UrlText, base: string, raw: string, m: Query)
    requires NoMark(base) && NoMark(raw) && text.fragment("") == Some("") && text.base(base) == Some(base)
    requires ParseQuery(raw) == m == VerifyFullQuery(m) && EncodeQuery(m) == raw
    ensures VerifyFull(text, PrintUrl(Url(base, raw, ""))) == Some(PrintUrl(Url(base, raw, "")))
  {
    ParseInvertsPrint(text, Url(base, raw, ""));
  }
}
