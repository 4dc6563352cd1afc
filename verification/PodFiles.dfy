/** What the containers of the APME Pod read: which Secret is behind each variable, and which claim, ConfigMap or Secret is
    behind each path, through mounts, volumes and init containers. */
module PodFiles {
  import opened Options
  import opened PluginPorts
  import opened Resolve
  import opened Pod
  import opened PodLaws
  import opened PodWiring
  import opened PodVolumes

  // ---- Secrets in variables ----

  /** The Secret and the key that a variable is to be read from. */
  function SecretFor(d: Desired, n: EnvName): Option<(string, string)> {
    match n
    case APME_PROXY_ADMIN_TOKEN => Some((d.proxy.tokenName, d.proxy.tokenKey))
    case APME_ABBENAY_TOKEN => Some((d.abbenay.tokenName, d.abbenay.tokenKey))
    case Other(text) =>
      if text == "APME_DATABASE_URL" then Some((d.database.secretName, d.database.secretKey))
      else if text == "APME_ABBENAY_HTTP_TOKEN" || text == "ABBENAY_API_TOKEN" then
        Some((d.abbenay.tokenName, d.abbenay.tokenKey))
      else None
    case _ => None
  }

  /** The variable is read from a Secret exactly when it is to be, and then from that one, under that key. */
  predicate ReadRight(d: Desired, e: EnvVar) {
    && (e.value.FromSecret? <==> SecretFor(d, e.name).Some?)
    && (e.value.FromSecret? ==> SecretFor(d, e.name) == Some((e.value.secret, e.value.key)))
  }

  ghost predicate AllReadRight(d: Desired, env: seq<EnvVar>) { forall e :: e in env ==> ReadRight(d, e) }

  lemma ReadJoin(d: Desired, a: seq<EnvVar>, b: seq<EnvVar>)
    requires AllReadRight(d, a) && AllReadRight(d, b)
    ensures AllReadRight(d, a + b)
  {
  }

  lemma ProxyEnvReadsNone(d: Desired)
    ensures AllReadRight(d, ProxyEnv(d))
  {
  }

  lemma EngineReadsRight(d: Desired)
    ensures AllReadRight(d, EngineContainer(d).env)
  {
    EngineFrontReads(d);
    EngineBackReads(d);
    assert AllReadRight(d, PluginAddresses(d.plugins));
    ReadJoin(d, EngineEnvFront(d), PluginAddresses(d.plugins));
    ReadJoin(d, EngineEnvFront(d) + PluginAddresses(d.plugins), EngineEnvBack(d));
  }

  lemma EngineFrontReads(d: Desired)
    ensures AllReadRight(d, EngineEnvFront(d))
  {
  }

  lemma EngineBackReads(d: Desired)
    ensures AllReadRight(d, EngineEnvBack(d))
  {
    ProxyEnvReadsNone(d);
  }

  lemma ValidatorReads(d: Desired, n: ContainerName, listen: string, port: int, more: seq<EnvVar>, mounts: seq<Mount>)
    requires AllReadRight(d, more) && SecretFor(d, Other(listen)) == None
    ensures AllReadRight(d, Validator(d, n, listen, port, more, mounts).env)
  {
    ProxyEnvReadsNone(d);
    ReadJoin(d, [EnvVar(Other(listen), Address(ANY, port))], more);
    ReadJoin(d, [EnvVar(Other(listen), Address(ANY, port))] + more, ProxyEnv(d));
  }

  lemma ListenNamesReadNone(d: Desired)
    ensures SecretFor(d, Other("APME_NATIVE_VALIDATOR_LISTEN")) == None
    ensures SecretFor(d, Other("APME_OPA_VALIDATOR_LISTEN")) == None
    ensures SecretFor(d, Other("APME_ANSIBLE_VALIDATOR_LISTEN")) == None
    ensures SecretFor(d, Other("APME_GITLEAKS_VALIDATOR_LISTEN")) == None
    ensures SecretFor(d, Other("APME_COLLECTION_HEALTH_VALIDATOR_LISTEN")) == None
    ensures SecretFor(d, Other("APME_DEP_AUDIT_VALIDATOR_LISTEN")) == None
    ensures SecretFor(d, Other("APME_PLUGIN_LISTEN")) == None
  {
  }

  lemma FrontReads(d: Desired, c: Container)
    requires c in FrontContainers(d)
    ensures AllReadRight(d, c.env)
  {
    FrontMember(d, c);
    ListenNamesReadNone(d);
    if c == EngineContainer(d) { EngineReadsRight(d); }
    else if c == NativeContainer(d) { ValidatorReads(d, Native, "APME_NATIVE_VALIDATOR_LISTEN", 50055, [], []); }
    else if c == OPAContainer(d) { ValidatorReads(d, OPA, "APME_OPA_VALIDATOR_LISTEN", 50054, [], []); }
    else if c == AnsibleContainer(d) {
      ValidatorReads(d, Ansible, "APME_ANSIBLE_VALIDATOR_LISTEN", 50053,
                     [EnvVar(APME_GALAXY_PROXY_URL, Address("http://127.0.0.1", 8765))], SESSIONS);
    }
    else if c == GitleaksContainer(d) { ValidatorReads(d, Gitleaks, "APME_GITLEAKS_VALIDATOR_LISTEN", 50056, [], []); }
    else if c == CollectionHealthContainer(d) {
      ValidatorReads(d, CollectionHealth, "APME_COLLECTION_HEALTH_VALIDATOR_LISTEN", 50058, [], SESSIONS);
    } else {
      ValidatorReads(d, DepAudit, "APME_DEP_AUDIT_VALIDATOR_LISTEN", 50059, [], SESSIONS);
    }
  }

  lemma SidecarReads(d: Desired, p: ResolvedPlugin)
    ensures AllReadRight(d, PluginContainer(d, p).env)
  {
    ListenNamesReadNone(d);
    ProxyEnvReadsNone(d);
  }

  lemma GatewaySecretNames(d: Desired)
    ensures SecretFor(d, Other("APME_ENGINE_ADDRESS")) == None && SecretFor(d, Other("APME_GATEWAY_GRPC_LISTEN")) == None
    ensures SecretFor(d, Other("APME_GATEWAY_HTTP_HOST")) == None && SecretFor(d, Other("APME_GATEWAY_HTTP_PORT")) == None
    ensures SecretFor(d, Other("SSL_CERT_FILE")) == None && SecretFor(d, Other("PGSSLROOTCERT")) == None
    ensures SecretFor(d, Other("APME_ABBENAY_HTTP_URL")) == None
    ensures SecretFor(d, Other("APME_DATABASE_URL")) == Some((d.database.secretName, d.database.secretKey))
    ensures SecretFor(d, Other("APME_ABBENAY_HTTP_TOKEN")) == Some((d.abbenay.tokenName, d.abbenay.tokenKey))
  {
  }

  lemma GatewayPiecesRead(d: Desired)
    ensures AllReadRight(d, GatewayEnvFixed(d)) && AllReadRight(d, GatewayEnvValidators(d))
  {
    GatewaySecretNames(d);
  }

  lemma GatewayOptionalReads(d: Desired)
    ensures AllReadRight(d, GatewayEnvOptional(d))
  {
    GatewaySecretNames(d);
  }

  lemma GatewayReads(d: Desired)
    ensures AllReadRight(d, GatewayContainer(d).env)
  {
    GatewayPiecesRead(d);
    GatewayOptionalReads(d);
    ProxyEnvReadsNone(d);
    ReadJoin(d, GatewayEnvFixed(d), GatewayEnvValidators(d));
    ReadJoin(d, GatewayEnvFixed(d) + GatewayEnvValidators(d), GatewayEnvOptional(d));
    ReadJoin(d, GatewayEnvFixed(d) + GatewayEnvValidators(d) + GatewayEnvOptional(d), ProxyEnv(d));
  }

  lemma OtherSecretNames(d: Desired)
    ensures SecretFor(d, Other("APME_PROXY_REQUIRE_GATEWAY_CONFIG")) == None
    ensures SecretFor(d, Other("ANSIBLE_GALAXY_IGNORE")) == None
    ensures SecretFor(d, Other("SSL_CERT_FILE")) == None && SecretFor(d, Other("APME_API_BACKEND")) == None
    ensures SecretFor(d, Other("ABBENAY_API_TOKEN")) == Some((d.abbenay.tokenName, d.abbenay.tokenKey))
    ensures SecretFor(d, Other("XDG_RUNTIME_DIR")) == None && SecretFor(d, Other("XDG_CONFIG_HOME")) == None
  {
  }

  lemma GalaxyProxyReads(d: Desired)
    ensures AllReadRight(d, GalaxyProxyContainer(d).env)
  {
    OtherSecretNames(d);
    ProxyEnvReadsNone(d);
  }

  lemma UIReads(d: Desired)
    ensures AllReadRight(d, UIContainer(d).env)
  {
    OtherSecretNames(d);
    ProxyEnvReadsNone(d);
  }

  lemma AbbenayReads(d: Desired)
    ensures AllReadRight(d, AbbenayContainer(d).env)
  {
    OtherSecretNames(d);
    ProxyEnvReadsNone(d);
  }

  lemma BackReads(d: Desired, c: Container)
    requires c in BackContainers(d)
    ensures AllReadRight(d, c.env)
  {
    BackMember(d, c);
    if c == GalaxyProxyContainer(d) { GalaxyProxyReads(d); }
    else if c == GatewayContainer(d) { GatewayReads(d); }
    else if c == UIContainer(d) { UIReads(d); }
    else { AbbenayReads(d); }
  }

  /** Every variable of every container comes from the Secret and key it is to come from, and no other does: containers that
      share a token, and the Gateway with the database, read one key of one Secret. */
  lemma SecretsReachTheirVariables(d: Desired, c: Container, e: EnvVar)
    requires c in PodOf(d).containers && e in c.env
    ensures e.value.FromSecret? <==> SecretFor(d, e.name).Some?
    ensures e.value.FromSecret? ==> SecretFor(d, e.name) == Some((e.value.secret, e.value.key))
  {
    if c in FrontContainers(d) {
      FrontReads(d, c);
    } else if c in PluginContainers(d, d.plugins) {
      var i :| 0 <= i < |d.plugins| && c == PluginContainer(d, d.plugins[i]);
      SidecarReads(d, d.plugins[i]);
    } else {
      BackReads(d, c);
    }
    assert ReadRight(d, e);
  }

  /** Some variable of the container is read under that name. */
  ghost predicate HasVar(c: Container, n: EnvName) { exists e :: e in c.env && e.name == n }

  lemma VarIs(c: Container, e: EnvVar)
    requires e in c.env
    ensures HasVar(c, e.name)
  {
  }

  lemma InGatewayEnv(d: Desired, e: EnvVar)
    requires e in GatewayEnvFixed(d) || e in GatewayEnvOptional(d)
    ensures HasVar(GatewayContainer(d), e.name)
  {
    VarIs(GatewayContainer(d), e);
  }

  lemma InEngineEnv(d: Desired, e: EnvVar)
    requires e in EngineEnvFixed(d) || e in EngineEnvBack(d)
    ensures HasVar(EngineContainer(d), e.name)
  {
    if e in EngineEnvFixed(d) { assert e in EngineEnvFront(d); }
    VarIs(EngineContainer(d), e);
  }

  /** The Engine, the proxy and the Gateway share the admin token; the Gateway has the database's URL; and with Abbenay, the
      Engine and Abbenay share its token, which the Gateway has for its HTTP port. */
  lemma TokensAreShared(d: Desired)
    ensures HasVar(EngineContainer(d), APME_PROXY_ADMIN_TOKEN) && HasVar(GalaxyProxyContainer(d), APME_PROXY_ADMIN_TOKEN)
    ensures HasVar(GatewayContainer(d), APME_PROXY_ADMIN_TOKEN) && HasVar(GatewayContainer(d), Other("APME_DATABASE_URL"))
    ensures d.abbenay.enabled ==>
              HasVar(EngineContainer(d), APME_ABBENAY_TOKEN) && HasVar(AbbenayContainer(d), APME_ABBENAY_TOKEN)
              && HasVar(GatewayContainer(d), Other("APME_ABBENAY_HTTP_TOKEN"))
  {
    assert EngineEnvFixed(d)[8] == AdminToken(d) && GatewayEnvFixed(d)[5] == AdminToken(d);
    InEngineEnv(d, AdminToken(d));
    InGatewayEnv(d, AdminToken(d));
    InGatewayEnv(d, GatewayEnvFixed(d)[4]);
    VarIs(GalaxyProxyContainer(d), GalaxyProxyContainer(d).env[0]);
    if d.abbenay.enabled { AbbenayTokenShared(d); }
  }

  lemma EngineHasAbbenayToken(d: Desired)
    requires d.abbenay.enabled
    ensures HasVar(EngineContainer(d), APME_ABBENAY_TOKEN)
  {
    var e := AbbenayToken(d, APME_ABBENAY_TOKEN);
    assert EngineEnvBack(d)[1] == e;
    InEngineEnv(d, e);
  }

  lemma GatewayHasAbbenayToken(d: Desired)
    requires d.abbenay.enabled
    ensures HasVar(GatewayContainer(d), Other("APME_ABBENAY_HTTP_TOKEN"))
  {
    var e := AbbenayToken(d, Other("APME_ABBENAY_HTTP_TOKEN"));
    assert GatewayEnvOptional(d)[if d.database.generate then 3 else 1] == e;
    InGatewayEnv(d, e);
  }

  lemma AbbenayTokenShared(d: Desired)
    requires d.abbenay.enabled
    ensures HasVar(EngineContainer(d), APME_ABBENAY_TOKEN) && HasVar(AbbenayContainer(d), APME_ABBENAY_TOKEN)
    ensures HasVar(GatewayContainer(d), Other("APME_ABBENAY_HTTP_TOKEN"))
  {
    EngineHasAbbenayToken(d);
    GatewayHasAbbenayToken(d);
    VarIs(AbbenayContainer(d), AbbenayContainer(d).env[0]);
  }

  // ---- Who is told of whom ----

  lemma GatewayKnows(d: Desired)
    ensures HasVar(GatewayContainer(d), Other("APME_ENGINE_ADDRESS"))
    ensures d.components.collectionHealth ==> HasVar(GatewayContainer(d), COLLECTION_HEALTH_GRPC_ADDRESS)
    ensures d.components.depAudit ==> HasVar(GatewayContainer(d), DEP_AUDIT_GRPC_ADDRESS)
  {
    InGatewayEnv(d, GatewayEnvFixed(d)[0]);
    if d.components.collectionHealth {
      GatewayValidatorKnown(d, EnvVar(COLLECTION_HEALTH_GRPC_ADDRESS, Address(LOOPBACK, 50058)));
    }
    if d.components.depAudit {
      GatewayValidatorKnown(d, EnvVar(DEP_AUDIT_GRPC_ADDRESS, Address(LOOPBACK, 50059)));
    }
  }

  lemma GatewayValidatorKnown(d: Desired, e: EnvVar)
    requires || (d.components.collectionHealth && e == EnvVar(COLLECTION_HEALTH_GRPC_ADDRESS, Address(LOOPBACK, 50058)))
             || (d.components.depAudit && e == EnvVar(DEP_AUDIT_GRPC_ADDRESS, Address(LOOPBACK, 50059)))
    ensures HasVar(GatewayContainer(d), e.name)
  {
    assert e in [e] && e in GatewayEnvValidators(d);
    VarIs(GatewayContainer(d), e);
  }

  lemma AbbenayVariables(d: Desired, e: EnvVar)
    requires d.abbenay.enabled
    requires || e == EnvVar(Other("APME_ABBENAY_HTTP_URL"), Address("http://127.0.0.1", 8787))
             || e == EnvVar(APME_ABBENAY_ADDR, Text(SOCKET))
    ensures e in GatewayEnvOptional(d)
  {
    assert e == GatewayEnvOptional(d)[(if d.database.generate then 2 else 0) + if e.name == APME_ABBENAY_ADDR then 2 else 0];
  }

  lemma GatewayKnowsAbbenay(d: Desired)
    requires d.abbenay.enabled
    ensures HasVar(GatewayContainer(d), Other("APME_ABBENAY_HTTP_URL")) && HasVar(GatewayContainer(d), APME_ABBENAY_ADDR)
  {
    var e, f := EnvVar(Other("APME_ABBENAY_HTTP_URL"), Address("http://127.0.0.1", 8787)),
                EnvVar(APME_ABBENAY_ADDR, Text(SOCKET));
    AbbenayVariables(d, e);
    AbbenayVariables(d, f);
    InGatewayEnv(d, e);
    InGatewayEnv(d, f);
  }

  lemma EngineKnowsAbbenay(d: Desired)
    requires d.abbenay.enabled
    ensures HasVar(EngineContainer(d), APME_ABBENAY_ADDR)
  {
    var e := EnvVar(APME_ABBENAY_ADDR, Text(SOCKET));
    assert EngineEnvBack(d)[0] == e;
    InEngineEnv(d, e);
  }

  /** Besides the Engine, which is told of everyone, the Gateway is told of the Engine, of the two validators it asks and of
      Abbenay, the Ansible validator of the proxy, and the UI of the Gateway. */
  lemma CallersAreTold(d: Desired)
    ensures HasVar(GatewayContainer(d), Other("APME_ENGINE_ADDRESS"))
    ensures HasVar(AnsibleContainer(d), APME_GALAXY_PROXY_URL)
    ensures d.components.collectionHealth ==> HasVar(GatewayContainer(d), COLLECTION_HEALTH_GRPC_ADDRESS)
    ensures d.components.depAudit ==> HasVar(GatewayContainer(d), DEP_AUDIT_GRPC_ADDRESS)
    ensures d.components.ui ==> HasVar(UIContainer(d), Other("APME_API_BACKEND"))
    ensures d.abbenay.enabled ==>
              && HasVar(GatewayContainer(d), Other("APME_ABBENAY_HTTP_URL")) && HasVar(GatewayContainer(d), APME_ABBENAY_ADDR)
              && HasVar(EngineContainer(d), APME_ABBENAY_ADDR)
  {
    GatewayKnows(d);
    VarIs(AnsibleContainer(d), AnsibleContainer(d).env[1]);
    VarIs(UIContainer(d), UIContainer(d).env[0]);
    if d.abbenay.enabled {
      GatewayKnowsAbbenay(d);
      EngineKnowsAbbenay(d);
    }
  }

  /** The CA bundles and Abbenay's directories are named to those who read them. */
  lemma ReadersAreTold(d: Desired)
    ensures d.database.generate ==>
              HasVar(GatewayContainer(d), Other("SSL_CERT_FILE")) && HasVar(GatewayContainer(d), Other("PGSSLROOTCERT"))
    ensures d.proxy.caConfigMap != "" ==> HasVar(GalaxyProxyContainer(d), Other("SSL_CERT_FILE"))
    ensures HasVar(AbbenayContainer(d), Other("XDG_RUNTIME_DIR")) && HasVar(AbbenayContainer(d), Other("XDG_CONFIG_HOME"))
  {
    if d.database.generate {
      InGatewayEnv(d, GatewayEnvOptional(d)[0]);
      InGatewayEnv(d, GatewayEnvOptional(d)[1]);
    }
    if d.proxy.caConfigMap != "" { ProxyBundleTold(d); }
    VarIs(AbbenayContainer(d), AbbenayContainer(d).env[2]);
    VarIs(AbbenayContainer(d), AbbenayContainer(d).env[3]);
  }

  lemma ProxyBundleTold(d: Desired)
    requires d.proxy.caConfigMap != ""
    ensures HasVar(GalaxyProxyContainer(d), Other("SSL_CERT_FILE"))
  {
    VarIs(GalaxyProxyContainer(d), GalaxyProxyContainer(d).env[if d.proxy.tlsVerify.Some? then 3 else 2]);
  }

  /** The proxy is told whether to ignore certificates exactly when the user says whether to verify them, and then to ignore
      them when they are not to be verified. */
  lemma IgnoresUnlessVerified(d: Desired)
    ensures HasVar(GalaxyProxyContainer(d), Other("ANSIBLE_GALAXY_IGNORE")) <==> d.proxy.tlsVerify.Some?
    ensures forall e :: e in GalaxyProxyContainer(d).env && e.name == Other("ANSIBLE_GALAXY_IGNORE") ==>
              e.value == Text(if d.proxy.tlsVerify == Some(false) then "true" else "false")
  {
    var c := GalaxyProxyContainer(d);
    if d.proxy.tlsVerify.Some? { VarIs(c, c.env[2]); }
    forall e | e in c.env && e.name == Other("ANSIBLE_GALAXY_IGNORE")
      ensures d.proxy.tlsVerify.Some? && e.value == Text(if d.proxy.tlsVerify == Some(false) then "true" else "false")
    {
      IgnoreVariable(d, e);
      assert d.proxy.tlsVerify == if d.proxy.tlsVerify.value then Some(true) else Some(false);
    }
  }

  lemma IgnoreVariable(d: Desired, e: EnvVar)
    requires e in GalaxyProxyContainer(d).env && e.name == Other("ANSIBLE_GALAXY_IGNORE")
    ensures e in TLSVerifyEnv(d)
  {
    assert e !in ProxyEnv(d);
  }

  // ---- What is behind each path ----

  /** What a path of the Pod's containers is to show. */
  function SourceAt(d: Desired, path: string): VolumeSource {
    if path == "/sessions" then Claim(d.name + "-sessions")
    else if path == "/cache" then Claim(d.name + "-proxy-cache")
    else if path == "/hub-ca" then ConfigMapFile(d.proxy.caConfigMap, d.proxy.caKey, "ca-bundle.crt")
    else if path == "/db-ca" then SecretFile(d.database.tlsSecretName, "ca.crt", "ca.crt")
    else if path == "/seed" then
      FromConfigMap(if d.abbenay.configMap != "" then d.abbenay.configMap else d.name + "-abbenay-config")
    else if (path == "/etc/abbenay-config" || path == "/mnt/config") && d.abbenay.persist then Claim(d.name + "-abbenay-config")
    else EmptyDir
  }

  /** A volume of the Pod with that name and source. */
  ghost predicate Backed(d: Desired, v: VolumeName, source: VolumeSource) {
    exists x :: x in PodOf(d).volumes && x.name == v && x.source == source
  }

  /** Behind the mount is what its path is to show. */
  ghost predicate ShowsRight(d: Desired, m: Mount) { Backed(d, m.volume, SourceAt(d, m.path)) }

  lemma InVolumes(d: Desired, x: Volume)
    requires x in FrontVolumes(d) || x in PluginVolumes(d.plugins) || x in BackVolumes(d)
    ensures Backed(d, x.name, x.source)
  {
    assert x in PodOf(d).volumes;
  }

  lemma ClaimsBacked(d: Desired)
    ensures Backed(d, Sessions, Claim(d.name + "-sessions")) && Backed(d, ProxyCache, Claim(d.name + "-proxy-cache"))
  {
    var vs := FrontVolumes(d);
    assert vs[0] == Volume(Sessions, Claim(d.name + "-sessions")) && vs[1] == Volume(ProxyCache, Claim(d.name + "-proxy-cache"));
    InVolumes(d, vs[0]);
    InVolumes(d, vs[1]);
  }

  lemma GalaxyBacked(d: Desired)
    requires d.proxy.caConfigMap != ""
    ensures Backed(d, GalaxyCA, ConfigMapFile(d.proxy.caConfigMap, d.proxy.caKey, "ca-bundle.crt"))
    ensures Backed(d, GalaxyCABundle, EmptyDir)
  {
    var vs := FrontVolumes(d);
    assert vs[2] == Volume(GalaxyCA, ConfigMapFile(d.proxy.caConfigMap, d.proxy.caKey, "ca-bundle.crt"));
    assert vs[3] == Volume(GalaxyCABundle, EmptyDir);
    InVolumes(d, vs[2]);
    InVolumes(d, vs[3]);
  }

  lemma DatabaseBacked(d: Desired)
    requires d.database.generate
    ensures Backed(d, DBCA, SecretFile(d.database.tlsSecretName, "ca.crt", "ca.crt")) && Backed(d, DBCABundle, EmptyDir)
  {
    var vs := BackVolumes(d);
    InVolumes(d, vs[0]);
    InVolumes(d, vs[1]);
  }

  lemma UIBacked(d: Desired)
    requires d.components.ui
    ensures Backed(d, NginxCache, EmptyDir) && Backed(d, NginxRun, EmptyDir) && Backed(d, NginxConf, EmptyDir)
  {
    var vs := UIVolumes(d);
    BackVolumeParts(d);
    InVolumes(d, vs[0]);
    InVolumes(d, vs[1]);
    InVolumes(d, vs[2]);
  }

  lemma AbbenayBacked(d: Desired)
    requires d.abbenay.enabled
    ensures Backed(d, AbbenayRun, EmptyDir)
    ensures Backed(d, AbbenayConfigSeed,
                   FromConfigMap(if d.abbenay.configMap != "" then d.abbenay.configMap else d.name + "-abbenay-config"))
    ensures Backed(d, AbbenayConfig, if d.abbenay.persist then Claim(d.name + "-abbenay-config") else EmptyDir)
  {
    var vs := AbbenayVolumes(d);
    BackVolumeParts(d);
    InVolumes(d, vs[0]);
    InVolumes(d, vs[1]);
    InVolumes(d, vs[2]);
  }

  /** Which volume has which source. */
  type Shelf = (VolumeName, VolumeSource) -> bool

  /** The sources the Pod's volumes have, as the toggles have it. */
  ghost predicate Stocked(d: Desired, has: Shelf) {
    && has(Sessions, Claim(d.name + "-sessions")) && has(ProxyCache, Claim(d.name + "-proxy-cache"))
    && (d.proxy.caConfigMap != "" ==>
          has(GalaxyCA, ConfigMapFile(d.proxy.caConfigMap, d.proxy.caKey, "ca-bundle.crt")) && has(GalaxyCABundle, EmptyDir))
    && (d.database.generate ==> has(DBCA, SecretFile(d.database.tlsSecretName, "ca.crt", "ca.crt")) && has(DBCABundle, EmptyDir))
    && (d.components.ui ==> has(NginxCache, EmptyDir) && has(NginxRun, EmptyDir) && has(NginxConf, EmptyDir))
    && (d.abbenay.enabled ==>
          && has(AbbenayRun, EmptyDir)
          && has(AbbenayConfigSeed,
                 FromConfigMap(if d.abbenay.configMap != "" then d.abbenay.configMap else d.name + "-abbenay-config"))
          && has(AbbenayConfig, if d.abbenay.persist then Claim(d.name + "-abbenay-config") else EmptyDir))
  }

  lemma PodStocked(d: Desired)
    ensures Stocked(d, (v: VolumeName, s: VolumeSource) => Backed(d, v, s))
  {
    ClaimsBacked(d);
    if d.proxy.caConfigMap != "" { GalaxyBacked(d); }
    if d.database.generate { DatabaseBacked(d); }
    if d.components.ui { UIBacked(d); }
    if d.abbenay.enabled { AbbenayBacked(d); }
  }

  ghost predicate AllShow(d: Desired, has: Shelf, ms: seq<Mount>) { forall m :: m in ms ==> has(m.volume, SourceAt(d, m.path)) }

  lemma ShowJoin(d: Desired, has: Shelf, a: seq<Mount>, b: seq<Mount>)
    requires AllShow(d, has, a) && AllShow(d, has, b)
    ensures AllShow(d, has, a + b)
  {
  }

  /** What each path the builders use is to show. */
  lemma PathsOfClaims(d: Desired)
    ensures SourceAt(d, "/sessions") == Claim(d.name + "-sessions")
    ensures SourceAt(d, "/cache") == Claim(d.name + "-proxy-cache")
  {
  }

  lemma PathsOfScratch(d: Desired)
    ensures SourceAt(d, "/tmp/abbenay-run") == EmptyDir && SourceAt(d, "/etc/apme/galaxy-ca") == EmptyDir
    ensures SourceAt(d, "/etc/apme/db-ca") == EmptyDir && SourceAt(d, "/work") == EmptyDir
    ensures SourceAt(d, "/var/cache/nginx") == EmptyDir && SourceAt(d, "/var/run") == EmptyDir
    ensures SourceAt(d, "/etc/nginx/conf.d") == EmptyDir && SourceAt(d, "/mnt/conf.d") == EmptyDir
  {
  }

  lemma PathsOfGiven(d: Desired)
    ensures SourceAt(d, "/hub-ca") == ConfigMapFile(d.proxy.caConfigMap, d.proxy.caKey, "ca-bundle.crt")
    ensures SourceAt(d, "/db-ca") == SecretFile(d.database.tlsSecretName, "ca.crt", "ca.crt")
    ensures SourceAt(d, "/seed")
         == FromConfigMap(if d.abbenay.configMap != "" then d.abbenay.configMap else d.name + "-abbenay-config")
    ensures SourceAt(d, "/etc/abbenay-config") == SourceAt(d, "/mnt/config")
         == if d.abbenay.persist then Claim(d.name + "-abbenay-config") else EmptyDir
  {
  }

  lemma EngineShows(d: Desired, has: Shelf)
    requires Stocked(d, has)
    ensures AllShow(d, has, EngineContainer(d).mounts)
  {
    PathsOfClaims(d);
    PathsOfScratch(d);
  }

  lemma FrontShows(d: Desired, has: Shelf, c: Container)
    requires Stocked(d, has) && c in FrontContainers(d)
    ensures AllShow(d, has, c.mounts)
  {
    FrontMember(d, c);
    PathsOfClaims(d);
    if c == EngineContainer(d) { EngineShows(d, has); }
  }

  lemma GalaxyProxyShows(d: Desired, has: Shelf)
    requires Stocked(d, has)
    ensures AllShow(d, has, GalaxyProxyContainer(d).mounts)
  {
    PathsOfClaims(d);
    PathsOfScratch(d);
  }

  lemma GatewayShows(d: Desired, has: Shelf)
    requires Stocked(d, has)
    ensures AllShow(d, has, GatewayContainer(d).mounts)
  {
    PathsOfScratch(d);
  }

  lemma UIAndAbbenayShow(d: Desired, has: Shelf)
    requires Stocked(d, has)
    ensures d.components.ui ==> AllShow(d, has, UIContainer(d).mounts)
    ensures d.abbenay.enabled ==> AllShow(d, has, AbbenayContainer(d).mounts)
  {
    PathsOfScratch(d);
    PathsOfGiven(d);
  }

  lemma BackShows(d: Desired, has: Shelf, c: Container)
    requires Stocked(d, has) && c in BackContainers(d)
    ensures AllShow(d, has, c.mounts)
  {
    BackMember(d, c);
    if c == GalaxyProxyContainer(d) { GalaxyProxyShows(d, has); }
    else if c == GatewayContainer(d) { GatewayShows(d, has); }
    else { UIAndAbbenayShow(d, has); }
  }

  lemma InitShows(d: Desired, has: Shelf, c: Container)
    requires Stocked(d, has) && c in Inits(d)
    ensures AllShow(d, has, c.mounts)
  {
    InitMember(d, c);
    PathsOfScratch(d);
    PathsOfGiven(d);
  }

  /** Behind every path that a container or init container other than a plugin's mounts is what that path is to show: the
      claims the operator applies for it, the key of the user's CA bundle, the CA of the TLS Secret, the config given. */
  lemma PathsShowWhatTheyShould(d: Desired, c: Container, m: Mount)
    requires c in PodOf(d).containers + PodOf(d).inits && m in c.mounts && !c.name.PluginSidecar?
    ensures Backed(d, m.volume, SourceAt(d, m.path))
  {
    var has: Shelf := (v: VolumeName, s: VolumeSource) => Backed(d, v, s);
    PodStocked(d);
    NotASidecar(d, c);
    if c in FrontContainers(d) { FrontShows(d, has, c); }
    else if c in BackContainers(d) { BackShows(d, has, c); }
    else { InitShows(d, has, c); }
    assert has(m.volume, SourceAt(d, m.path));
  }

  lemma NotASidecar(d: Desired, c: Container)
    requires c in PodOf(d).containers + PodOf(d).inits && !c.name.PluginSidecar?
    ensures c in FrontContainers(d) || c in BackContainers(d) || c in Inits(d)
  {
    forall x | x in PluginContainers(d, d.plugins)
      ensures x.name.PluginSidecar?
    {
      SidecarsAreNamed(d, x);
    }
  }

  lemma SidecarsAreNamed(d: Desired, c: Container)
    requires c in PluginContainers(d, d.plugins)
    ensures c.name.PluginSidecar?
  {
    var i :| 0 <= i < |d.plugins| && c == PluginContainer(d, d.plugins[i]);
  }

  /** A plugin's sidecar mounts its own ConfigMap, if it has one, and nothing else. */
  lemma PluginSeesItsConfig(d: Desired, c: Container, i: nat)
    requires Sound(d) && i < |d.plugins| && c in Containers(d) && c.name == PluginSidecar(d.plugins[i].name)
    ensures d.plugins[i].configMap == "" ==> c.mounts == []
    ensures d.plugins[i].configMap != "" ==>
              |c.mounts| == 1 && c.mounts[0].path == "/etc/apme-plugin"
              && Backed(d, c.mounts[0].volume, FromConfigMap(d.plugins[i].configMap))
  {
    var p := d.plugins[i];
    SidecarOf(d, c, i);
    if p.configMap != "" {
      PluginVolumeMembers(d.plugins);
      assert p in d.plugins && PluginVolume(p) in PluginVolumes(d.plugins);
      InVolumes(d, PluginVolume(p));
    }
  }

  // ---- What init containers prepare ----

  /** The init container that fills what a container finds at a path, and where it does so. */
  function PreparedBy(n: ContainerName, path: string): Option<(ContainerName, string)> {
    if n == GalaxyProxy && path == "/etc/apme/galaxy-ca" then Some((InitGalaxyCA, "/work"))
    else if n == Gateway && path == "/etc/apme/db-ca" then Some((InitDBCA, "/work"))
    else if n == UI && path == "/etc/nginx/conf.d" then Some((InitNginxConf, "/mnt/conf.d"))
    else if n == Abbenay && path == "/etc/abbenay-config" then Some((InitAbbenayConfig, "/mnt/config"))
    else None
  }

  /** An init container of that name mounts the volume at that path. */
  ghost predicate InitMountsAt(d: Desired, n: ContainerName, path: string, v: VolumeName) {
    exists c, w :: c in PodOf(d).inits && c.name == n && w in c.mounts && w.path == path && w.volume == v
  }

  /** Which init container mounts which volume where. */
  type InitShelf = (ContainerName, string, VolumeName) -> bool

  ghost predicate InitsFill(d: Desired, fills: InitShelf) {
    && (d.proxy.caConfigMap != "" ==> fills(InitGalaxyCA, "/work", GalaxyCABundle))
    && (d.database.generate ==> fills(InitDBCA, "/work", DBCABundle))
    && (d.components.ui ==> fills(InitNginxConf, "/mnt/conf.d", NginxConf))
    && (d.abbenay.enabled ==> fills(InitAbbenayConfig, "/mnt/config", AbbenayConfig))
  }

  lemma InitMountIs(d: Desired, c: Container, j: nat, n: ContainerName, path: string, v: VolumeName)
    requires c in Inits(d) && c.name == n && j < |c.mounts| && c.mounts[j] == Mount(v, path)
    ensures InitMountsAt(d, n, path, v)
  {
    assert c.mounts[j] in c.mounts;
  }

  lemma CAInitsFill(d: Desired)
    ensures d.proxy.caConfigMap != "" ==> InitMountsAt(d, InitGalaxyCA, "/work", GalaxyCABundle)
    ensures d.database.generate ==> InitMountsAt(d, InitDBCA, "/work", DBCABundle)
  {
    if d.proxy.caConfigMap != "" { InitMountIs(d, INIT_GALAXY_CA, 1, InitGalaxyCA, "/work", GalaxyCABundle); }
    if d.database.generate { InitMountIs(d, INIT_DB_CA, 1, InitDBCA, "/work", DBCABundle); }
  }

  lemma ConfigInitsFill(d: Desired)
    ensures d.components.ui ==> InitMountsAt(d, InitNginxConf, "/mnt/conf.d", NginxConf)
    ensures d.abbenay.enabled ==> InitMountsAt(d, InitAbbenayConfig, "/mnt/config", AbbenayConfig)
  {
    if d.components.ui { InitMountIs(d, INIT_NGINX, 0, InitNginxConf, "/mnt/conf.d", NginxConf); }
    if d.abbenay.enabled { InitMountIs(d, INIT_ABBENAY, 1, InitAbbenayConfig, "/mnt/config", AbbenayConfig); }
  }

  lemma PodInitsFill(d: Desired)
    ensures InitsFill(d, (n: ContainerName, path: string, v: VolumeName) => InitMountsAt(d, n, path, v))
  {
    CAInitsFill(d);
    ConfigInitsFill(d);
  }

  /** Every prepared path among these mounts has a volume that is filled as it is to be. */
  ghost predicate AllPrepared(fills: InitShelf, n: ContainerName, ms: seq<Mount>) {
    forall m :: m in ms && PreparedBy(n, m.path).Some? ==>
      fills(PreparedBy(n, m.path).value.0, PreparedBy(n, m.path).value.1, m.volume)
  }

  lemma NothingPrepared(fills: InitShelf, n: ContainerName, ms: seq<Mount>)
    requires n != GalaxyProxy && n != Gateway && n != UI && n != Abbenay
    ensures AllPrepared(fills, n, ms)
  {
  }

  lemma GalaxyProxyPrepared(d: Desired, fills: InitShelf)
    requires InitsFill(d, fills)
    ensures AllPrepared(fills, GalaxyProxy, GalaxyProxyContainer(d).mounts)
  {
    assert PreparedBy(GalaxyProxy, "/cache") == None;
    assert PreparedBy(GalaxyProxy, "/etc/apme/galaxy-ca") == Some((InitGalaxyCA, "/work"));
  }

  lemma GatewayPrepared(d: Desired, fills: InitShelf)
    requires InitsFill(d, fills)
    ensures AllPrepared(fills, Gateway, GatewayContainer(d).mounts)
  {
    assert PreparedBy(Gateway, "/tmp/abbenay-run") == None;
    assert PreparedBy(Gateway, "/etc/apme/db-ca") == Some((InitDBCA, "/work"));
  }

  lemma UIPrepared(d: Desired, fills: InitShelf)
    requires InitsFill(d, fills) && d.components.ui
    ensures AllPrepared(fills, UI, UIContainer(d).mounts)
  {
    assert PreparedBy(UI, "/var/cache/nginx") == None && PreparedBy(UI, "/var/run") == None;
    assert PreparedBy(UI, "/etc/nginx/conf.d") == Some((InitNginxConf, "/mnt/conf.d"));
  }

  lemma AbbenayPrepared(d: Desired, fills: InitShelf)
    requires InitsFill(d, fills) && d.abbenay.enabled
    ensures AllPrepared(fills, Abbenay, AbbenayContainer(d).mounts)
  {
    assert PreparedBy(Abbenay, "/tmp/abbenay-run") == None;
    assert PreparedBy(Abbenay, "/etc/abbenay-config") == Some((InitAbbenayConfig, "/mnt/config"));
  }

  lemma FrontIsFront(d: Desired, c: Container)
    requires c in FrontContainers(d)
    ensures c.name != GalaxyProxy && c.name != Gateway && c.name != UI && c.name != Abbenay
  {
    FrontMember(d, c);
  }

  lemma EveryonePrepared(d: Desired, fills: InitShelf, c: Container)
    requires InitsFill(d, fills) && c in PodOf(d).containers
    ensures AllPrepared(fills, c.name, c.mounts)
  {
    if c in FrontContainers(d) {
      FrontIsFront(d, c);
      NothingPrepared(fills, c.name, c.mounts);
    } else if c in PluginContainers(d, d.plugins) {
      SidecarsAreNamed(d, c);
      NothingPrepared(fills, c.name, c.mounts);
    } else {
      BackPrepared(d, fills, c);
    }
  }

  lemma BackPrepared(d: Desired, fills: InitShelf, c: Container)
    requires InitsFill(d, fills) && c in BackContainers(d)
    ensures AllPrepared(fills, c.name, c.mounts)
  {
    BackMember(d, c);
    if c == GalaxyProxyContainer(d) { GalaxyProxyPrepared(d, fills); }
    else if c == GatewayContainer(d) { GatewayPrepared(d, fills); }
    else if c == UIContainer(d) { UIPrepared(d, fills); }
    else { AbbenayPrepared(d, fills); }
  }

  /** What a container finds at a prepared path is the volume that the init container for it, which is in the Pod, fills: the
      CA bundles of the proxy and the Gateway, the nginx configuration of the UI, and Abbenay's. */
  lemma InitsPrepare(d: Desired, c: Container, m: Mount)
    requires c in PodOf(d).containers && m in c.mounts && PreparedBy(c.name, m.path).Some?
    ensures InitMountsAt(d, PreparedBy(c.name, m.path).value.0, PreparedBy(c.name, m.path).value.1, m.volume)
  {
    var fills: InitShelf := (n: ContainerName, path: string, v: VolumeName) => InitMountsAt(d, n, path, v);
    PodInitsFill(d);
    EveryonePrepared(d, fills, c);
    assert fills(PreparedBy(c.name, m.path).value.0, PreparedBy(c.name, m.path).value.1, m.volume);
  }

  // ---- Files named in variables ----

  /** A file named by a variable: the volume it is on, and what stands before and after the path of the mount. */
  datatype File = File(volume: VolumeName, before: string, after: string)

  /** The file or directory that a variable of a container names. */
  function FileOf(c: ContainerName, n: EnvName): Option<File> {
    match n
    case APME_ABBENAY_ADDR => Some(File(AbbenayRun, "unix://", "/abbenay/daemon.sock"))
    case Other(text) =>
      if text == "SSL_CERT_FILE" || text == "PGSSLROOTCERT" then
        Some(File(if c == GalaxyProxy then GalaxyCABundle else DBCABundle, "", "/ca-bundle.crt"))
      else if text == "XDG_RUNTIME_DIR" then Some(File(AbbenayRun, "", ""))
      else if text == "XDG_CONFIG_HOME" then Some(File(AbbenayConfig, "", ""))
      else None
    case _ => None
  }

  /** The value is the path of that file below one of the mounts. */
  ghost predicate OnAMount(ms: seq<Mount>, value: EnvValue, f: File) {
    exists m :: m in ms && m.volume == f.volume && value == Text(f.before + m.path + f.after)
  }

  lemma OnMount(ms: seq<Mount>, j: nat, value: EnvValue, f: File)
    requires j < |ms| && ms[j].volume == f.volume && value == Text(f.before + ms[j].path + f.after)
    ensures OnAMount(ms, value, f)
  {
    assert ms[j] in ms;
  }

  /** The variable names a file on the right volume, if it names one. */
  ghost predicate NamesWell(c: ContainerName, ms: seq<Mount>, e: EnvVar) {
    FileOf(c, e.name).Some? ==> OnAMount(ms, e.value, FileOf(c, e.name).value)
  }

  ghost predicate AllNameWell(c: ContainerName, ms: seq<Mount>, env: seq<EnvVar>) {
    forall e :: e in env ==> NamesWell(c, ms, e)
  }

  lemma NamesJoin(c: ContainerName, ms: seq<Mount>, a: seq<EnvVar>, b: seq<EnvVar>)
    requires AllNameWell(c, ms, a) && AllNameWell(c, ms, b)
    ensures AllNameWell(c, ms, a + b)
  {
  }

  lemma ProxyEnvNamesNoFile(d: Desired, c: ContainerName, ms: seq<Mount>)
    ensures AllNameWell(c, ms, ProxyEnv(d))
  {
  }

  const SOCKET := "unix:///tmp/abbenay-run/abbenay/daemon.sock"

  lemma SocketPath()
    ensures SOCKET == "unix://" + "/tmp/abbenay-run" + "/abbenay/daemon.sock"
  {
  }

  lemma EngineNamesWell(d: Desired)
    ensures AllNameWell(Engine, EngineContainer(d).mounts, EngineContainer(d).env)
  {
    var ms := EngineContainer(d).mounts;
    assert AllNameWell(Engine, ms, EngineEnvFront(d)) && AllNameWell(Engine, ms, PluginAddresses(d.plugins));
    if d.abbenay.enabled {
      SocketPath();
      OnMount(ms, 1, Text(SOCKET), File(AbbenayRun, "unix://", "/abbenay/daemon.sock"));
    }
    ProxyEnvNamesNoFile(d, Engine, ms);
    NamesJoin(Engine, ms, EngineEnvFront(d), PluginAddresses(d.plugins));
    NamesJoin(Engine, ms, EngineEnvFront(d) + PluginAddresses(d.plugins), EngineEnvBack(d));
  }

  lemma ListenNamesNoFile(c: ContainerName)
    ensures FileOf(c, Other("APME_NATIVE_VALIDATOR_LISTEN")) == None
    ensures FileOf(c, Other("APME_OPA_VALIDATOR_LISTEN")) == None
    ensures FileOf(c, Other("APME_ANSIBLE_VALIDATOR_LISTEN")) == None
    ensures FileOf(c, Other("APME_GITLEAKS_VALIDATOR_LISTEN")) == None
    ensures FileOf(c, Other("APME_COLLECTION_HEALTH_VALIDATOR_LISTEN")) == None
    ensures FileOf(c, Other("APME_DEP_AUDIT_VALIDATOR_LISTEN")) == None && FileOf(c, Other("APME_PLUGIN_LISTEN")) == None
  {
  }

  lemma ValidatorNamesWell(d: Desired, n: ContainerName, listen: string, port: int, more: seq<EnvVar>, mounts: seq<Mount>)
    requires AllNameWell(n, mounts, more) && FileOf(n, Other(listen)) == None
    ensures AllNameWell(n, mounts, Validator(d, n, listen, port, more, mounts).env)
  {
    ProxyEnvNamesNoFile(d, n, mounts);
    NamesJoin(n, mounts, [EnvVar(Other(listen), Address(ANY, port))], more);
    NamesJoin(n, mounts, [EnvVar(Other(listen), Address(ANY, port))] + more, ProxyEnv(d));
  }

  lemma FrontNamesWell(d: Desired, c: Container)
    requires c in FrontContainers(d)
    ensures AllNameWell(c.name, c.mounts, c.env)
  {
    FrontMember(d, c);
    ListenNamesNoFile(c.name);
    if c == EngineContainer(d) { EngineNamesWell(d); }
    else if c == NativeContainer(d) { ValidatorNamesWell(d, Native, "APME_NATIVE_VALIDATOR_LISTEN", 50055, [], []); }
    else if c == OPAContainer(d) { ValidatorNamesWell(d, OPA, "APME_OPA_VALIDATOR_LISTEN", 50054, [], []); }
    else if c == AnsibleContainer(d) {
      ValidatorNamesWell(d, Ansible, "APME_ANSIBLE_VALIDATOR_LISTEN", 50053,
                         [EnvVar(APME_GALAXY_PROXY_URL, Address("http://127.0.0.1", 8765))], SESSIONS);
    }
    else if c == GitleaksContainer(d) { ValidatorNamesWell(d, Gitleaks, "APME_GITLEAKS_VALIDATOR_LISTEN", 50056, [], []); }
    else if c == CollectionHealthContainer(d) {
      ValidatorNamesWell(d, CollectionHealth, "APME_COLLECTION_HEALTH_VALIDATOR_LISTEN", 50058, [], SESSIONS);
    } else {
      ValidatorNamesWell(d, DepAudit, "APME_DEP_AUDIT_VALIDATOR_LISTEN", 50059, [], SESSIONS);
    }
  }

  lemma SidecarNamesWell(d: Desired, p: ResolvedPlugin)
    ensures AllNameWell(PluginSidecar(p.name), PluginContainer(d, p).mounts, PluginContainer(d, p).env)
  {
    ListenNamesNoFile(PluginSidecar(p.name));
    ProxyEnvNamesNoFile(d, PluginSidecar(p.name), PluginContainer(d, p).mounts);
  }

  lemma GatewayFileNames()
    ensures FileOf(Gateway, Other("APME_ENGINE_ADDRESS")) == None
    ensures FileOf(Gateway, Other("APME_GATEWAY_GRPC_LISTEN")) == None
    ensures FileOf(Gateway, Other("APME_GATEWAY_HTTP_HOST")) == None
    ensures FileOf(Gateway, Other("APME_GATEWAY_HTTP_PORT")) == None
    ensures FileOf(Gateway, Other("APME_DATABASE_URL")) == None && FileOf(Gateway, Other("APME_ABBENAY_HTTP_URL")) == None
    ensures FileOf(Gateway, Other("APME_ABBENAY_HTTP_TOKEN")) == None
    ensures FileOf(Gateway, Other("SSL_CERT_FILE")) == Some(File(DBCABundle, "", "/ca-bundle.crt"))
    ensures FileOf(Gateway, Other("PGSSLROOTCERT")) == Some(File(DBCABundle, "", "/ca-bundle.crt"))
  {
  }

  lemma BundlePaths()
    ensures "/etc/apme/db-ca/ca-bundle.crt" == "" + "/etc/apme/db-ca" + "/ca-bundle.crt"
    ensures "/etc/apme/galaxy-ca/ca-bundle.crt" == "" + "/etc/apme/galaxy-ca" + "/ca-bundle.crt"
  {
  }

  lemma GatewayOptionalNamesWell(d: Desired, ms: seq<Mount>)
    requires ms == GatewayContainer(d).mounts
    ensures AllNameWell(Gateway, ms, GatewayEnvOptional(d))
  {
    GatewayFileNames();
    if d.database.generate {
      BundlePaths();
      OnMount(ms, 0, Text("/etc/apme/db-ca/ca-bundle.crt"), File(DBCABundle, "", "/ca-bundle.crt"));
    }
    if d.abbenay.enabled {
      SocketPath();
      OnMount(ms, if d.database.generate then 1 else 0, Text(SOCKET), File(AbbenayRun, "unix://", "/abbenay/daemon.sock"));
    }
  }

  lemma GatewayFixedNamesWell(d: Desired, ms: seq<Mount>)
    ensures AllNameWell(Gateway, ms, GatewayEnvFixed(d)) && AllNameWell(Gateway, ms, GatewayEnvValidators(d))
  {
    GatewayFileNames();
  }

  lemma GatewayNamesWell(d: Desired)
    ensures AllNameWell(Gateway, GatewayContainer(d).mounts, GatewayContainer(d).env)
  {
    var ms := GatewayContainer(d).mounts;
    GatewayFixedNamesWell(d, ms);
    GatewayOptionalNamesWell(d, ms);
    ProxyEnvNamesNoFile(d, Gateway, ms);
    NamesJoin(Gateway, ms, GatewayEnvFixed(d), GatewayEnvValidators(d));
    NamesJoin(Gateway, ms, GatewayEnvFixed(d) + GatewayEnvValidators(d), GatewayEnvOptional(d));
    NamesJoin(Gateway, ms, GatewayEnvFixed(d) + GatewayEnvValidators(d) + GatewayEnvOptional(d), ProxyEnv(d));
  }

  lemma BackFileNames(c: ContainerName)
    requires c == GalaxyProxy || c == UI || c == Abbenay
    ensures FileOf(c, Other("APME_PROXY_REQUIRE_GATEWAY_CONFIG")) == None
    ensures FileOf(c, Other("ANSIBLE_GALAXY_IGNORE")) == None
    ensures FileOf(c, Other("APME_API_BACKEND")) == None && FileOf(c, Other("ABBENAY_API_TOKEN")) == None
    ensures c == GalaxyProxy ==> FileOf(c, Other("SSL_CERT_FILE")) == Some(File(GalaxyCABundle, "", "/ca-bundle.crt"))
    ensures FileOf(c, Other("XDG_RUNTIME_DIR")) == Some(File(AbbenayRun, "", ""))
    ensures FileOf(c, Other("XDG_CONFIG_HOME")) == Some(File(AbbenayConfig, "", ""))
  {
  }

  lemma GalaxyProxyBundleNamed(d: Desired, ms: seq<Mount>)
    requires ms == GalaxyProxyContainer(d).mounts && d.proxy.caConfigMap != ""
    ensures NamesWell(GalaxyProxy, ms, EnvVar(Other("SSL_CERT_FILE"), Text("/etc/apme/galaxy-ca/ca-bundle.crt")))
  {
    BackFileNames(GalaxyProxy);
    BundlePaths();
    OnMount(ms, 1, Text("/etc/apme/galaxy-ca/ca-bundle.crt"), File(GalaxyCABundle, "", "/ca-bundle.crt"));
  }

  lemma GalaxyProxyNamesWell(d: Desired)
    ensures AllNameWell(GalaxyProxy, GalaxyProxyContainer(d).mounts, GalaxyProxyContainer(d).env)
  {
    var ms := GalaxyProxyContainer(d).mounts;
    BackFileNames(GalaxyProxy);
    if d.proxy.caConfigMap != "" { GalaxyProxyBundleNamed(d, ms); }
    ProxyEnvNamesNoFile(d, GalaxyProxy, ms);
  }

  lemma UINamesWell(d: Desired)
    ensures AllNameWell(UI, UIContainer(d).mounts, UIContainer(d).env)
  {
    BackFileNames(UI);
    ProxyEnvNamesNoFile(d, UI, UIContainer(d).mounts);
  }

  lemma AbbenayDirectoriesNamed(ms: seq<Mount>)
    requires ms == [Mount(AbbenayConfig, "/etc/abbenay-config"), Mount(AbbenayRun, "/tmp/abbenay-run")]
    ensures NamesWell(Abbenay, ms, EnvVar(Other("XDG_RUNTIME_DIR"), Text("/tmp/abbenay-run")))
    ensures NamesWell(Abbenay, ms, EnvVar(Other("XDG_CONFIG_HOME"), Text("/etc/abbenay-config")))
  {
    BackFileNames(Abbenay);
    OnMount(ms, 0, Text("/etc/abbenay-config"), File(AbbenayConfig, "", ""));
    OnMount(ms, 1, Text("/tmp/abbenay-run"), File(AbbenayRun, "", ""));
  }

  lemma AbbenayNamesWell(d: Desired)
    ensures AllNameWell(Abbenay, AbbenayContainer(d).mounts, AbbenayContainer(d).env)
  {
    var ms := AbbenayContainer(d).mounts;
    AbbenayFixedNamesWell(d, ms);
    ProxyEnvNamesNoFile(d, Abbenay, ms);
    NamesJoin(Abbenay, ms, AbbenayEnvFixed(d), ProxyEnv(d));
  }

  lemma AbbenayFixedNamesWell(d: Desired, ms: seq<Mount>)
    requires ms == [Mount(AbbenayConfig, "/etc/abbenay-config"), Mount(AbbenayRun, "/tmp/abbenay-run")]
    ensures AllNameWell(Abbenay, ms, AbbenayEnvFixed(d))
  {
    AbbenayTokensNameNoFile(d, ms);
    AbbenayDirectoriesNamed(ms);
    FourNameWell(Abbenay, ms, AbbenayToken(d, APME_ABBENAY_TOKEN), AbbenayToken(d, Other("ABBENAY_API_TOKEN")),
                 EnvVar(Other("XDG_RUNTIME_DIR"), Text("/tmp/abbenay-run")),
                 EnvVar(Other("XDG_CONFIG_HOME"), Text("/etc/abbenay-config")));
  }

  lemma AbbenayTokensNameNoFile(d: Desired, ms: seq<Mount>)
    ensures NamesWell(Abbenay, ms, AbbenayToken(d, APME_ABBENAY_TOKEN))
    ensures NamesWell(Abbenay, ms, AbbenayToken(d, Other("ABBENAY_API_TOKEN")))
  {
    BackFileNames(Abbenay);
  }

  lemma FourNameWell(c: ContainerName, ms: seq<Mount>, e: EnvVar, f: EnvVar, g: EnvVar, h: EnvVar)
    requires NamesWell(c, ms, e) && NamesWell(c, ms, f) && NamesWell(c, ms, g) && NamesWell(c, ms, h)
    ensures AllNameWell(c, ms, [e, f, g, h])
  {
  }

  lemma BackNamesWell(d: Desired, c: Container)
    requires c in BackContainers(d)
    ensures AllNameWell(c.name, c.mounts, c.env)
  {
    BackMember(d, c);
    if c == GalaxyProxyContainer(d) { GalaxyProxyNamesWell(d); }
    else if c == GatewayContainer(d) { GatewayNamesWell(d); }
    else if c == UIContainer(d) { UINamesWell(d); }
    else { AbbenayNamesWell(d); }
  }

  /** Every file or directory named in a variable lies below a mount of the volume it is to be on: the merged bundles, the
      directory with the socket that Abbenay opens and the Engine and the Gateway call, and Abbenay's configuration. */
  lemma FilesLieOnMounts(d: Desired, c: Container, e: EnvVar)
    requires c in PodOf(d).containers && e in c.env && FileOf(c.name, e.name).Some?
    ensures OnAMount(c.mounts, e.value, FileOf(c.name, e.name).value)
  {
    if c in FrontContainers(d) {
      FrontNamesWell(d, c);
    } else if c in PluginContainers(d, d.plugins) {
      var i :| 0 <= i < |d.plugins| && c == PluginContainer(d, d.plugins[i]);
      SidecarNamesWell(d, d.plugins[i]);
    } else {
      BackNamesWell(d, c);
    }
    assert NamesWell(c.name, c.mounts, e);
  }
}
