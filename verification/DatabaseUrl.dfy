/** The managed database URL: WithVerifyFullTLS and NewSecret of internal/manifests/postgres/statefulset.go.
    A Go string is a sequence of bytes: one character below 256 each. */
module DatabaseUrl {
  import opened Options
  import opened Text

  predicate IsBytes(s: string) { forall i :: 0 <= i < |s| ==> s[i] as int < 256 }

  // ---- Percent-encoding of query components (section 5 of the WHATWG URL Standard, as net/url does it) ----

  /** Never escaped, section 2.3 of RFC 3986. */
  predicate Unreserved(c: char) {
    'a' <= c <= 'z' || 'A' <= c <= 'Z' || '0' <= c <= '9' || c == '-' || c == '_' || c == '.' || c == '~'
  }

  function HexUpper(n: int): char
    requires 0 <= n < 16
  {
    if n < 10 then ('0' as int + n) as char else ('A' as int + n - 10) as char
  }

  function Unhex(c: char): Option<int> {
    if '0' <= c <= '9' then Some(c as int - '0' as int)
    else if 'a' <= c <= 'f' then Some(c as int - 'a' as int + 10)
    else if 'A' <= c <= 'F' then Some(c as int - 'A' as int + 10)
    else None
  }

  function EscapeChar(c: char): string {
    if Unreserved(c) then [c]
    else if c == ' ' then "+"
    else ['%', HexUpper(c as int / 16 % 16), HexUpper(c as int % 16)]
  }

  function Escape(s: string): string {
    if s == "" then "" else EscapeChar(s[0]) + Escape(s[1..])
  }

  function Unescape(s: string): Option<string> {
    if s == "" then Some("")
    else if s[0] == '%' then
      if |s| < 3 || Unhex(s[1]).None? || Unhex(s[2]).None? then None
      else Prepend((16 * Unhex(s[1]).value + Unhex(s[2]).value) as char, Unescape(s[3..]))
    else Prepend(if s[0] == '+' then ' ' else s[0], Unescape(s[1..]))
  }

  function Prepend(c: char, rest: Option<string>): Option<string> {
    if rest.None? then None else Some([c] + rest.value)
  }

  // ---- Queries ----

  datatype Cut = Cut(before: string, after: string, found: bool)

  /** strings.Cut */
  function CutAt(s: string, sep: char): (r: Cut)
    ensures |r.before| + |r.after| <= |s|
    ensures s != "" ==> |r.after| < |s|
  {
    if s == "" then Cut("", "", false)
    else if s[0] == sep then Cut("", s[1..], true)
    else var r := CutAt(s[1..], sep); Cut([s[0]] + r.before, r.after, r.found)
  }

  type Pair = (string, string)

  type Query = map<string, seq<string>>

  /** One `&`-separated piece; url.ParseQuery drops a malformed one. */
  function ParsePiece(piece: string): seq<Pair> {
    var r := CutAt(piece, '=');
    var key, value := Unescape(r.before), Unescape(r.after);
    if ';' in piece || piece == "" || key.None? || value.None? then [] else [(key.value, value.value)]
  }

  function ParsePairs(q: string): seq<Pair>
    decreases |q|
  {
    if q == "" then [] else ParsePiece(CutAt(q, '&').before) + ParsePairs(CutAt(q, '&').after)
  }

  function ValuesOf(m: Query, key: string): seq<string> { if key in m then m[key] else [] }

  /** url.Values built by appending each pair in turn. */
  function Collect(pairs: seq<Pair>): Query {
    if |pairs| == 0 then map[]
    else
      var m, last := Collect(pairs[..|pairs| - 1]), pairs[|pairs| - 1];
      m[last.0 := ValuesOf(m, last.0) + [last.1]]
  }

  function ParseQuery(q: string): Query { Collect(ParsePairs(q)) }

  ghost predicate IsLeast(k: string, keys: set<string>) {
    k in keys && forall j :: j in keys ==> !Less(j, k)
  }

  lemma {:induction false} LeastExists(keys: set<string>)
    requires keys != {}
    ensures exists k :: IsLeast(k, keys)
  {
    var k :| k in keys;
    LessTotal(k, k);
    if keys == {k} {
      assert IsLeast(k, keys);
    } else {
      LeastExists(keys - {k});
      var l :| IsLeast(l, keys - {k});
      LessTotal(k, l);
      if Less(k, l) {
        forall j | j in keys
          ensures !Less(j, k)
        {
          if j != k && Less(j, k) { LessTransitive(j, k, l); }
        }
        assert IsLeast(k, keys);
      } else {
        assert IsLeast(l, keys);
      }
    }
  }

  /** All values of one key, as pairs. */
  function KeyPairs(k: string, vs: seq<string>): seq<Pair> {
    seq(|vs|, i requires 0 <= i < |vs| => (k, vs[i]))
  }

  /** The pairs of url.Values in sorted key order. */
  ghost function Flatten(m: Query): seq<Pair>
    decreases |m.Keys|
  {
    if m.Keys == {} then []
    else
      LeastExists(m.Keys);
      var k :| IsLeast(k, m.Keys);
      assert (m - {k}).Keys == m.Keys - {k};
      KeyPairs(k, m[k]) + Flatten(m - {k})
  }

  function EncodePairs(pairs: seq<Pair>): string {
    if |pairs| == 0 then ""
    else Escape(pairs[0].0) + "=" + Escape(pairs[0].1) + if |pairs| == 1 then "" else "&" + EncodePairs(pairs[1..])
  }

  /** url.Values.Encode */
  ghost function EncodeQuery(m: Query): string { EncodePairs(Flatten(m)) }

  // ---- URLs ----

  /** How net/url reads and prints what surrounds the query: `base` is scheme, authority and path, and the result
      is the text String prints for it, or nothing when Parse rejects it. */
  datatype UrlText = UrlText(base: string -> Option<string>, fragment: string -> Option<string>)

  /** What String prints is read back as itself, and has no separator of the parts around it. */
  ghost predicate Prints(text: UrlText) {
    && (forall b :: text.base(b).Some? ==>
          var c := text.base(b).value; text.base(c) == Some(c) && '?' !in c && '#' !in c)
    && (forall f :: text.fragment(f).Some? ==> text.fragment(text.fragment(f).value) == text.fragment(f))
    && text.fragment("") == Some("")
  }

  datatype Url = Url(base: string, rawQuery: string, fragment: string)

  /** url.Parse */
  function ParseUrl(text: UrlText, s: string): Option<Url> {
    var f := CutAt(s, '#');
    var q := CutAt(f.before, '?');
    var base, fragment := text.base(q.before), text.fragment(f.after);
    if base.None? || fragment.None? then None else Some(Url(base.value, q.after, fragment.value))
  }

  /** URL.String for a URL with a nonempty query. */
  function PrintUrl(u: Url): string {
    u.base + "?" + u.rawQuery + if u.fragment == "" then "" else "#" + u.fragment
  }

  ghost function VerifyFullQuery(q: Query): Query { (q - {"sslmode"})["ssl" := ["verify-full"]] }

  ghost function VerifyFull(text: UrlText, s: string): Option<string> {
    var u := ParseUrl(text, s);
    if u.None? then None
    else Some(PrintUrl(u.value.(rawQuery := EncodeQuery(VerifyFullQuery(ParseQuery(u.value.rawQuery))))))
  }

  lemma FlattenLeast(m: Query, k: string)
    requires IsLeast(k, m.Keys)
    ensures Flatten(m) == KeyPairs(k, m[k]) + Flatten(m - {k})
  {
    var l :| IsLeast(l, m.Keys) && Flatten(m) == KeyPairs(l, m[l]) + Flatten(m - {l});
    LeastUnique(k, l, m.Keys);
  }

  lemma LeastUnique(k: string, l: string, keys: set<string>)
    requires IsLeast(k, keys) && IsLeast(l, keys)
    ensures k == l
  {
    LessTotal(k, l);
    assert !Less(k, l) && !Less(l, k);
  }

  lemma FlattenStep(pairs: seq<Pair>, rest: Query, k: string, q: Query)
    requires pairs + Flatten(rest) == Flatten(q) && IsLeast(k, rest.Keys)
    ensures pairs + KeyPairs(k, rest[k]) + Flatten(rest - {k}) == Flatten(q)
    ensures |(rest - {k}).Keys| < |rest.Keys|
  {
    FlattenLeast(rest, k);
    assert pairs + (KeyPairs(k, rest[k]) + Flatten(rest - {k})) == pairs + KeyPairs(k, rest[k]) + Flatten(rest - {k});
    assert (rest - {k}).Keys == rest.Keys - {k};
  }

  /** url.Values.Encode visits the keys in sorted order. */
  method EncodeValues(q: Query) returns (encoded: string)
    ensures encoded == EncodeQuery(q)
  {
    var pairs: seq<Pair> := [];
    var rest := q;
    while rest.Keys != {}
      invariant pairs + Flatten(rest) == Flatten(q)
      decreases |rest.Keys|
    {
      LeastExists(rest.Keys);
      var k :| k in rest.Keys && forall j :: j in rest.Keys ==> !Less(j, k);
      FlattenStep(pairs, rest, k, q);
      pairs := pairs + KeyPairs(k, rest[k]);
      rest := rest - {k};
    }
    assert Flatten(rest) == [] && pairs + [] == pairs;
    encoded := EncodePairs(pairs);
  }

  method WithVerifyFullTLS(text: UrlText, databaseURL: string) returns (updated: Option<string>)
    ensures updated == VerifyFull(text, databaseURL)
  {
    var parsed := ParseUrl(text, databaseURL);
    if parsed.None? {
      return None;
    }
    var u := parsed.value;
    var q := ParseQuery(u.rawQuery);
    q := q - {"sslmode"};
    q := q["ssl" := ["verify-full"]];
    var encoded := EncodeValues(q);
    u := u.(rawQuery := encoded);
    updated := Some(PrintUrl(u));
  }

  // ---- The Secret the operator generates ----

  const SCHEME := "postgresql+asyncpg://"
  const PG_USER := "apme"
  const PG_DB := "apme"

  /** Userinfo escaping (section 3.2.1 of RFC 3986): a few delimiters need none. */
  function EscapeUserinfo(s: string): string {
    if s == "" then ""
    else (if Unreserved(s[0]) || s[0] in "$&+,;=" then [s[0]]
          else ['%', HexUpper(s[0] as int / 16 % 16), HexUpper(s[0] as int % 16)]) + EscapeUserinfo(s[1..])
  }

  /** The managed Service's DNS name. */
  function PostgresHost(name: string, namespace: string): string {
    name + "-postgres." + namespace + ".svc"
  }

  /** The part of the generated URL before the query. */
  function OwnBase(name: string, namespace: string, password: string): string {
    SCHEME + EscapeUserinfo(PG_USER) + ":" + EscapeUserinfo(password)
    + "@" + PostgresHost(name, namespace) + ":5432/" + PG_DB
  }

  const SSL_KEY := "ssl"
  const SSL_VALUE := "verify-full"

  /** `ssl=verify-full`, asyncpg's spelling. */
  function OwnRawQuery(): string { SSL_KEY + "=" + SSL_VALUE }

  function OwnUrl(name: string, namespace: string, password: string): string {
    PrintUrl(Url(OwnBase(name, namespace, password), OwnRawQuery(), ""))
  }
}
