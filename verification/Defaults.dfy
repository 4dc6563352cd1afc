/** What a spec that leaves something out asks for, told section by section in the spec's own terms. */
module Defaults {
  import opened Options
  import opened Resolve

  /** Every toggle but Abbenay and the Ingress is on unless it is set to false; Abbenay's persistence also needs Abbenay. */
  lemma TogglesDefaultOn(name: string, namespace: string, s: ApmeSpec, env: seq<ProxyVariable>)
    ensures var d := Intent(name, namespace, s, env);
            && (d.components.gitleaks <==> s.gitleaks != Some(false))
            && (d.components.collectionHealth <==> s.collectionHealth != Some(false))
            && (d.components.depAudit <==> s.depAudit != Some(false))
            && (d.components.ui <==> s.ui != Some(false))
            && (d.exposure.routeEnabled <==> s.routeEnabled != Some(false))
            && (d.networkPolicy <==> s.networkPolicy != Some(false))
            && (d.abbenay.enabled <==> s.abbenay.enabled)
            && (d.abbenay.persist <==> s.abbenay.enabled && s.abbenay.persist != Some(false))
            && (d.exposure.ingressEnabled <==> s.ingressEnabled)
  {
  }

  /** The database is the user's exactly when the spec names a Secret for it. A managed one generates its credentials, and
      its TLS Secret exactly when the spec names none. */
  lemma DatabaseChosen(name: string, namespace: string, s: ApmeSpec, env: seq<ProxyVariable>)
    ensures var d := Intent(name, namespace, s, env).database;
            && (d.mode == External <==> s.connectionSecret.name != "")
            && (d.generate <==> s.connectionSecret.name == "")
            && (d.generateTLS <==> s.connectionSecret.name == "" && s.postgresTLSSecret == "")
            && (d.mode == External ==> d.secretName == s.connectionSecret.name && d.tlsSecretName == "")
            && (d.mode == External && s.connectionSecret.key != "" ==> d.secretKey == s.connectionSecret.key)
            && (d.mode == Managed || s.connectionSecret.key == "" ==> d.secretKey == "database-url")
            && (d.mode == Managed ==> d.secretName == name + "-postgres")
            && (d.mode == Managed && s.postgresTLSSecret != "" ==> d.tlsSecretName == s.postgresTLSSecret)
            && (d.generateTLS ==> d.tlsSecretName == name + "-postgres-tls")
  {
  }

  /** An enabled Abbenay uses the token the spec names, and generates one exactly when it names none. The proxy's token is
      always generated; a CA bundle is used exactly when the spec gives one. */
  lemma TokensChosen(name: string, namespace: string, s: ApmeSpec, env: seq<ProxyVariable>)
    ensures var d := Intent(name, namespace, s, env);
            && (d.abbenay.generateToken <==> s.abbenay.enabled && s.abbenay.token.name == "")
            && (s.abbenay.enabled && s.abbenay.token.name != "" ==> d.abbenay.tokenName == s.abbenay.token.name)
            && (d.abbenay.generateToken ==> d.abbenay.tokenName == name + "-abbenay")
            && (s.abbenay.enabled && s.abbenay.token.key != "" ==> d.abbenay.tokenKey == s.abbenay.token.key)
            && (s.abbenay.enabled && s.abbenay.token.key == "" ==> d.abbenay.tokenKey == "token")
            && d.abbenay.configMap == s.abbenay.configMap
            && d.proxy.tokenName == name + "-proxy-admin" && d.proxy.tokenKey == "token" && d.proxy.tlsVerify == s.galaxyVerify
            && (d.proxy.caConfigMap != "" <==> s.galaxyCA.Some? && s.galaxyCA.value.name != "")
            && (s.galaxyCA.Some? ==> d.proxy.caConfigMap == s.galaxyCA.value.name)
            && (s.galaxyCA.Some? && s.galaxyCA.value.key != "" ==> d.proxy.caKey == s.galaxyCA.value.key)
            && (s.galaxyCA.None? || s.galaxyCA.value.key == "" ==> d.proxy.caKey == "ca-bundle.crt")
  {
  }

  /** Names, hosts and the version are as given, the version with a default. */
  lemma GivenIsKept(name: string, namespace: string, s: ApmeSpec, env: seq<ProxyVariable>)
    ensures var d := Intent(name, namespace, s, env);
            && d.name == name && d.namespace == namespace && d.proxyEnv == env && d.settings == s.settings
            && d.exposure.routeHost == s.routeHost && d.exposure.ingressHost == s.ingressHost
            && (s.version != "" ==> d.version == s.version) && (s.version == "" ==> d.version == "2026.8.10")
  {
  }

  /** The spec with its defaults written out. */
  ghost function SpelledOut(name: string, s: ApmeSpec): ApmeSpec {
    var d := Intent(name, "", s, []);
    s.(version := d.version, gitleaks := Some(d.components.gitleaks), collectionHealth := Some(d.components.collectionHealth),
       depAudit := Some(d.components.depAudit), ui := Some(d.components.ui), routeEnabled := Some(d.exposure.routeEnabled),
       networkPolicy := Some(d.networkPolicy), galaxyCA := Some(KeyRef(d.proxy.caConfigMap, d.proxy.caKey)),
       connectionSecret := if d.database.mode == External then KeyRef(d.database.secretName, d.database.secretKey)
                           else s.connectionSecret,
       abbenay := if s.abbenay.enabled
                  then s.abbenay.(token := KeyRef(s.abbenay.token.name, d.abbenay.tokenKey), persist := Some(d.abbenay.persist))
                  else s.abbenay)
  }

  /** Writing the defaults out asks for nothing else, and so does doing it twice. */
  lemma SpellingOutChangesNothing(name: string, namespace: string, s: ApmeSpec, env: seq<ProxyVariable>)
    ensures Intent(name, namespace, SpelledOut(name, s), env) == Intent(name, namespace, s, env)
    ensures SpelledOut(name, SpelledOut(name, s)) == SpelledOut(name, s)
  {
  }
}
