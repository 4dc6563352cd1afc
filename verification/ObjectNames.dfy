/** Kinds and names of the objects one Apme instance may write. */
module ObjectNames {

  datatype Kind =
    ServiceAccount | PersistentVolumeClaim | Secret | ConfigMap | StatefulSet
    | Service | NetworkPolicy | Deployment | Ingress | Route

  /** An object of the instance's namespace. */
  datatype Key = Key(kind: Kind, name: string)

  /** What the operator appends to the instance name, kind by kind. */
  function Suffixes(kind: Kind): seq<string> {
    match kind
    case ServiceAccount => [""]
    case PersistentVolumeClaim => ["-sessions", "-proxy-cache", "-abbenay-config"]
    case Secret => ["-proxy-admin", "-postgres", "-postgres-tls", "-abbenay"]
    case ConfigMap => ["-postgres-ssl", "-abbenay-config"]
    case StatefulSet => ["-postgres"]
    case Service => ["-postgres", "-engine", "-gateway", "-ui"]
    case NetworkPolicy => ["-engine", "-postgres"]
    case Deployment => [""]
    case Ingress => [""]
    case Route => ["-ui", "-api"]
  }

  /** `k` is one of the names generated for instance `name`. */
  ghost predicate Generated(name: string, k: Key) {
    exists s :: s in Suffixes(k.kind) && k.name == name + s
  }

  lemma MkGenerated(name: string, kind: Kind, s: string)
    requires s in Suffixes(kind)
    ensures Generated(name, Key(kind, name + s))
  {
  }

  /** No suffix of a kind is a proper suffix of another one of that kind. */
  lemma SuffixFree(kind: Kind, s: string, t: string)
    requires s in Suffixes(kind) && t in Suffixes(kind) && |s| <= |t|
    requires s == t[|t| - |s|..]
    ensures s == t
  {
    assert forall i :: 0 <= i < |s| ==> s[i] == t[|t| - |s| + i];
  }

  /** Two instances with different names share no generated name of any kind. */
  lemma GeneratedDisjoint(name: string, name': string, k: Key)
    requires Generated(name, k) && Generated(name', k)
    ensures name == name'
  {
    var s :| s in Suffixes(k.kind) && k.name == name + s;
    var t :| t in Suffixes(k.kind) && k.name == name' + t;
    SameEnding(k.kind, name, s, name', t);
  }

  lemma SameEnding(kind: Kind, m: string, s: string, n: string, t: string)
    requires s in Suffixes(kind) && t in Suffixes(kind) && m + s == n + t
    ensures m == n && s == t
  {
    var whole := m + s;
    assert whole[|m|..] == s && whole[|n|..] == t;
    if |s| <= |t| {
      assert t[|t| - |s|..] == whole[|m|..];
      SuffixFree(kind, s, t);
    } else {
      assert s[|s| - |t|..] == whole[|n|..];
      SuffixFree(kind, t, s);
    }
    assert whole[..|m|] == m && whole[..|n|] == n;
  }
}
