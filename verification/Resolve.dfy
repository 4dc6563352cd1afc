/** Defaulting of an Apme resource: From of internal/resolve/desired.go. The fields of Desired are grouped by
    the section of the spec they come from. */
module Resolve {
  import opened Text
  import opened PluginPorts
  import opened PluginPortLaws
  import opened Options
  import opened Lists

  datatype DatabaseMode = Managed | External

  /** An empty name means unset. */
  datatype KeyRef = KeyRef(name: string, key: string)

  /** spec of an Apme resource. `settings` stands for the sizes, images, resources and classes that pass through
      unread. */
  datatype ApmeSpec = ApmeSpec(
    version: string,
    gitleaks: Option<bool>, collectionHealth: Option<bool>, depAudit: Option<bool>, ui: Option<bool>,
    plugins: seq<PluginSpec>,
    connectionSecret: KeyRef, postgresTLSSecret: string,
    galaxyVerify: Option<bool>, galaxyCA: Option<KeyRef>,
    routeEnabled: Option<bool>, routeHost: string, ingressEnabled: bool, ingressHost: string,
    abbenay: AbbenaySpec,
    networkPolicy: Option<bool>,
    settings: string)

  datatype AbbenaySpec = AbbenaySpec(enabled: bool, token: KeyRef, configMap: string, persist: Option<bool>)

  datatype Components = Components(gitleaks: bool, collectionHealth: bool, depAudit: bool, ui: bool)

  datatype ProxyIntent = ProxyIntent(tokenName: string, tokenKey: string, tlsVerify: Option<bool>,
                                     caConfigMap: string, caKey: string)

  datatype AbbenayIntent = AbbenayIntent(enabled: bool, tokenName: string, tokenKey: string, generateToken: bool,
                                         configMap: string, persist: bool)

  datatype DatabaseIntent = DatabaseIntent(mode: DatabaseMode, secretName: string, secretKey: string,
                                           generate: bool, tlsSecretName: string, generateTLS: bool)

  datatype Exposure = Exposure(routeEnabled: bool, routeHost: string, ingressEnabled: bool, ingressHost: string)

  /** The fully defaulted intent for one instance. */
  datatype Desired = Desired(
    name: string, namespace: string, version: string,
    components: Components,
    plugins: seq<ResolvedPlugin>,
    proxy: ProxyIntent,
    abbenay: AbbenayIntent,
    database: DatabaseIntent,
    exposure: Exposure,
    networkPolicy: bool,
    proxyEnv: seq<ProxyVariable>,
    settings: string)

  /** The proxy settings the operator hands on from its own environment, in the order it reads them. */
  datatype ProxyVariable = HTTP_PROXY | HTTPS_PROXY | NO_PROXY | http_proxy | https_proxy | no_proxy

  const PROXY_VARIABLES := [HTTP_PROXY, HTTPS_PROXY, NO_PROXY, http_proxy, https_proxy, no_proxy]

  const DEFAULT_VERSION := "2026.8.10"

  function DefaultTrue(p: Option<bool>): bool { p.None? || p.value }

  function OrElse(s: string, default: string): string { if s == "" then default else s }

  // ---- What From computes ----

  function ProxyOf(name: string, s: ApmeSpec): ProxyIntent {
    var ca := if s.galaxyCA.Some? then s.galaxyCA.value else KeyRef("", "");
    ProxyIntent(name + "-proxy-admin", "token", s.galaxyVerify, ca.name, OrElse(ca.key, "ca-bundle.crt"))
  }

  function AbbenayOf(name: string, a: AbbenaySpec): AbbenayIntent {
    if !a.enabled then AbbenayIntent(false, a.token.name, a.token.key, false, a.configMap, false)
    else AbbenayIntent(true, OrElse(a.token.name, name + "-abbenay"), OrElse(a.token.key, "token"),
                       a.token.name == "", a.configMap, DefaultTrue(a.persist))
  }

  function DatabaseOf(name: string, s: ApmeSpec): DatabaseIntent {
    if s.connectionSecret.name != ""
    then DatabaseIntent(External, s.connectionSecret.name, OrElse(s.connectionSecret.key, "database-url"),
                        false, "", false)
    else DatabaseIntent(Managed, name + "-postgres", "database-url",
                        true, OrElse(s.postgresTLSSecret, name + "-postgres-tls"), s.postgresTLSSecret == "")
  }

  /** The resolved plugins, as the one list that resolves `ps`. */
  ghost function ResolvedPlugins(ps: seq<PluginSpec>): seq<ResolvedPlugin> {
    SortBy(seq(|ps|, i requires 0 <= i < |ps| => Assigned(Plugins(ps), ps[i])), PluginKey)
  }

  lemma ResolvedPluginsResolve(ps: seq<PluginSpec>)
    requires UniqueNames(ps)
    ensures Resolves(ps, ResolvedPlugins(ps))
  {
    var raw := seq(|ps|, i requires 0 <= i < |ps| => Assigned(Plugins(ps), ps[i]));
    SortBySorts(raw, PluginKey);
    SortedIsResolution(ps, raw, SortBy(raw, PluginKey));
  }

  /** The intent for an instance `name` with spec `s`, under proxy environment `proxyEnv`. */
  ghost function Intent(name: string, namespace: string, s: ApmeSpec, proxyEnv: seq<ProxyVariable>): Desired {
    Desired(
      name, namespace, OrElse(s.version, DEFAULT_VERSION),
      Components(DefaultTrue(s.gitleaks), DefaultTrue(s.collectionHealth), DefaultTrue(s.depAudit), DefaultTrue(s.ui)),
      ResolvedPlugins(s.plugins),
      ProxyOf(name, s),
      AbbenayOf(name, s.abbenay),
      DatabaseOf(name, s),
      Exposure(DefaultTrue(s.routeEnabled), s.routeHost, s.ingressEnabled, s.ingressHost),
      DefaultTrue(s.networkPolicy),
      proxyEnv,
      s.settings)
  }

  // ---- From, section by section ----

  method DefaultProxy(name: string, s: ApmeSpec) returns (p: ProxyIntent)
    ensures p == ProxyOf(name, s)
  {
    p := ProxyIntent(name + "-proxy-admin", "token", s.galaxyVerify, "", "");
    if s.galaxyCA.Some? {
      p := p.(caConfigMap := s.galaxyCA.value.name, caKey := s.galaxyCA.value.key);
    }
    if p.caKey == "" {
      p := p.(caKey := "ca-bundle.crt");
    }
  }

  method DefaultAbbenay(name: string, s: AbbenaySpec) returns (a: AbbenayIntent)
    ensures a == AbbenayOf(name, s)
  {
    a := AbbenayIntent(s.enabled, s.token.name, s.token.key, false, s.configMap, false);
    if a.enabled {
      if a.tokenKey == "" {
        a := a.(tokenKey := "token");
      }
      if a.tokenName == "" {
        a := a.(generateToken := true, tokenName := name + "-abbenay");
      }
      a := a.(persist := DefaultTrue(s.persist));
    }
  }

  method DefaultDatabase(name: string, s: ApmeSpec) returns (d: DatabaseIntent)
    ensures d == DatabaseOf(name, s)
  {
    d := DatabaseIntent(Managed, "", "", false, "", false);
    if s.connectionSecret.name != "" {
      d := d.(mode := External, secretName := s.connectionSecret.name, secretKey := s.connectionSecret.key);
      if d.secretKey == "" {
        d := d.(secretKey := "database-url");
      }
    } else {
      d := d.(mode := Managed, generate := true, secretName := name + "-postgres", secretKey := "database-url",
              tlsSecretName := s.postgresTLSSecret);
      if d.tlsSecretName == "" {
        d := d.(generateTLS := true, tlsSecretName := name + "-postgres-tls");
      }
    }
  }

  /** clusterProxyEnv: the variables of the operator's own environment that are set, each once. `isSet` says that a
      variable has a value that is not blank. */
  method ClusterProxyEnv(isSet: ProxyVariable -> bool) returns (env: seq<ProxyVariable>)
    ensures NoDup(env) && forall v :: v in env <==> isSet(v)
  {
    env := [];
    for i := 0 to |PROXY_VARIABLES|
      invariant NoDup(env)
      invariant forall v :: v in env <==> v in PROXY_VARIABLES[..i] && isSet(v)
    {
      var v := PROXY_VARIABLES[i];
      assert v !in PROXY_VARIABLES[..i];
      if isSet(v) {
        env := env + [v];
      }
    }
    forall v: ProxyVariable
      ensures v in PROXY_VARIABLES[..|PROXY_VARIABLES|]
    {
      EveryVariableListed(v);
    }
  }

  lemma EveryVariableListed(v: ProxyVariable)
    ensures v in PROXY_VARIABLES
  {
    var all := PROXY_VARIABLES;
    assert all[0] == HTTP_PROXY && all[1] == HTTPS_PROXY && all[2] == NO_PROXY;
    assert all[3] == http_proxy && all[4] == https_proxy && all[5] == no_proxy;
  }

  method From(name: string, namespace: string, s: ApmeSpec, proxyEnv: seq<ProxyVariable>) returns (d: Desired)
    requires Admitted(s.plugins)
    ensures d == Intent(name, namespace, s, proxyEnv)
  {
    var version := s.version;
    if version == "" {
      version := DEFAULT_VERSION;
    }
    var proxy := DefaultProxy(name, s);
    var database := DefaultDatabase(name, s);
    var abbenay := DefaultAbbenay(name, s.abbenay);
    var plugins := ResolvePlugins(s.plugins);
    ResolvedPluginsResolve(s.plugins);
    OrderIndependent(s.plugins, s.plugins, plugins[..], ResolvedPlugins(s.plugins));
    d := Desired(
      name, namespace, version,
      Components(DefaultTrue(s.gitleaks), DefaultTrue(s.collectionHealth), DefaultTrue(s.depAudit), DefaultTrue(s.ui)),
      plugins[..], proxy, abbenay, database,
      Exposure(DefaultTrue(s.routeEnabled), s.routeHost, s.ingressEnabled, s.ingressHost),
      DefaultTrue(s.networkPolicy),
      proxyEnv,
      s.settings);
  }
}
