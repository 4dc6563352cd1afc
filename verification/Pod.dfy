/** The APME Pod: Deployment of internal/manifests/deployment.go and the container builders of
    internal/manifests/containers/containers.go. Names are the values of a datatype, and `Text` spells them. */
module Pod {
  import opened Lists
  import opened Options
  import opened PluginPorts
  import opened Resolve

  // ---- Names ----

  datatype ContainerName =
    Engine | Native | OPA | Ansible | Gitleaks | CollectionHealth | DepAudit
    | PluginSidecar(plugin: string) | GalaxyProxy | Gateway | UI | Abbenay
    | InitGalaxyCA | InitDBCA | InitNginxConf | InitAbbenayConfig
  {
    function Text(): string {
      match this
      case Engine => "engine"
      case Native => "native"
      case OPA => "opa"
      case Ansible => "ansible"
      case Gitleaks => "gitleaks"
      case CollectionHealth => "collection-health"
      case DepAudit => "dep-audit"
      case PluginSidecar(p) => "plugin-" + p
      case GalaxyProxy => "galaxy-proxy"
      case Gateway => "gateway"
      case UI => "ui"
      case Abbenay => "abbenay"
      case InitGalaxyCA => "init-galaxy-ca"
      case InitDBCA => "init-db-ca"
      case InitNginxConf => "init-nginx-conf"
      case InitAbbenayConfig => "init-abbenay-config"
    }
  }

  datatype VolumeName =
    Sessions | ProxyCache | GalaxyCA | GalaxyCABundle | PluginConfig(plugin: string) | DBCA | DBCABundle
    | NginxCache | NginxRun | NginxConf | AbbenayConfigSeed | AbbenayRun | AbbenayConfig
  {
    function Text(): string {
      match this
      case Sessions => "sessions"
      case ProxyCache => "proxy-cache"
      case GalaxyCA => "galaxy-ca"
      case GalaxyCABundle => "galaxy-ca-bundle"
      case PluginConfig(p) => "plugin-" + p + "-config"
      case DBCA => "db-ca"
      case DBCABundle => "db-ca-bundle"
      case NginxCache => "nginx-cache"
      case NginxRun => "nginx-run"
      case NginxConf => "nginx-conf"
      case AbbenayConfigSeed => "abbenay-config-seed"
      case AbbenayRun => "abbenay-run"
      case AbbenayConfig => "abbenay-config"
    }
  }

  /** Environment variables of the Engine container, and of the others where they matter here. */
  datatype EnvName =
    UV_CACHE_DIR | APME_ENGINE_LISTEN | APME_ENGINE_MAX_RPCS | NATIVE_GRPC_ADDRESS | OPA_GRPC_ADDRESS
    | ANSIBLE_GRPC_ADDRESS | APME_GALAXY_PROXY_URL | APME_REPORTING_ENDPOINT | APME_PROXY_ADMIN_TOKEN
    | GITLEAKS_GRPC_ADDRESS | COLLECTION_HEALTH_GRPC_ADDRESS | DEP_AUDIT_GRPC_ADDRESS
    | PluginAddress(plugin: string) | APME_ABBENAY_ADDR | APME_ABBENAY_TOKEN | Proxy(variable: ProxyVariable)
    | Other(text: string)
  {
    function Text(): string {
      match this
      case UV_CACHE_DIR => "UV_CACHE_DIR"
      case APME_ENGINE_LISTEN => "APME_ENGINE_LISTEN"
      case APME_ENGINE_MAX_RPCS => "APME_ENGINE_MAX_RPCS"
      case NATIVE_GRPC_ADDRESS => "NATIVE_GRPC_ADDRESS"
      case OPA_GRPC_ADDRESS => "OPA_GRPC_ADDRESS"
      case ANSIBLE_GRPC_ADDRESS => "ANSIBLE_GRPC_ADDRESS"
      case APME_GALAXY_PROXY_URL => "APME_GALAXY_PROXY_URL"
      case APME_REPORTING_ENDPOINT => "APME_REPORTING_ENDPOINT"
      case APME_PROXY_ADMIN_TOKEN => "APME_PROXY_ADMIN_TOKEN"
      case GITLEAKS_GRPC_ADDRESS => "GITLEAKS_GRPC_ADDRESS"
      case COLLECTION_HEALTH_GRPC_ADDRESS => "COLLECTION_HEALTH_GRPC_ADDRESS"
      case DEP_AUDIT_GRPC_ADDRESS => "DEP_AUDIT_GRPC_ADDRESS"
      case PluginAddress(p) => "APME_PLUGIN_" + ToUpper(p) + "_ADDRESS"
      case APME_ABBENAY_ADDR => "APME_ABBENAY_ADDR"
      case APME_ABBENAY_TOKEN => "APME_ABBENAY_TOKEN"
      case Proxy(v) => ProxyText(v)
      case Other(text) => text
    }
  }

  function ProxyText(v: ProxyVariable): string {
    match v
    case HTTP_PROXY => "HTTP_PROXY"
    case HTTPS_PROXY => "HTTPS_PROXY"
    case NO_PROXY => "NO_PROXY"
    case http_proxy => "http_proxy"
    case https_proxy => "https_proxy"
    case no_proxy => "no_proxy"
  }

  function UpperChar(c: char): char {
    if 'a' <= c <= 'z' then (c as int - 'a' as int + 'A' as int) as char else c
  }

  /** strings.ToUpper on ASCII. */
  function ToUpper(s: string): string {
    seq(|s|, i requires 0 <= i < |s| => UpperChar(s[i]))
  }

  // ---- Pod structure ----

  /** `Address(host, port)` is the text host:port. */
  datatype EnvValue = Text(text: string) | Address(host: string, port: int) | FromSecret(secret: string, key: string)

  datatype EnvVar = EnvVar(name: EnvName, value: EnvValue)

  datatype ContainerPort = ContainerPort(name: string, port: int)

  datatype Probe = TcpSocket(port: int) | HttpGet(portName: string) | Exec

  datatype Mount = Mount(volume: VolumeName, path: string)

  /** A port given by a command-line flag, --port or --grpc-port. */
  datatype Flag = WebPort(port: int) | GrpcPort(port: int)

  /** Both probes of a container have one handler. */
  datatype Container = Container(name: ContainerName, env: seq<EnvVar>, flags: seq<Flag>,
                                 ports: seq<ContainerPort>, probe: Option<Probe>, mounts: seq<Mount>)

  /** The last two show one key's content as the file `path`. */
  datatype VolumeSource = Claim(claim: string) | EmptyDir | FromConfigMap(configMap: string)
    | ConfigMapFile(configMap: string, key: string, path: string) | SecretFile(secret: string, key: string, path: string)

  datatype Volume = Volume(name: VolumeName, source: VolumeSource)

  datatype PodSpec = PodSpec(serviceAccount: string, inits: seq<Container>, containers: seq<Container>,
                             volumes: seq<Volume>)

  const ANY := "0.0.0.0"
  const LOOPBACK := "127.0.0.1"

  function ProxyEnv(d: Desired): seq<EnvVar> {
    seq(|d.proxyEnv|, i requires 0 <= i < |d.proxyEnv| => EnvVar(Proxy(d.proxyEnv[i]), Text("")))
  }

  function AdminToken(d: Desired): EnvVar {
    EnvVar(APME_PROXY_ADMIN_TOKEN, FromSecret(d.proxy.tokenName, d.proxy.tokenKey))
  }

  function AbbenayToken(d: Desired, name: EnvName): EnvVar {
    EnvVar(name, FromSecret(d.abbenay.tokenName, d.abbenay.tokenKey))
  }

  // ---- Containers ----

  function PluginAddressVar(p: ResolvedPlugin): EnvVar {
    EnvVar(PluginAddress(p.name), Address(LOOPBACK, p.port))
  }

  function PluginAddresses(ps: seq<ResolvedPlugin>): seq<EnvVar> {
    seq(|ps|, i requires 0 <= i < |ps| => PluginAddressVar(ps[i]))
  }

  function EngineEnvFixed(d: Desired): seq<EnvVar> {
    [EnvVar(UV_CACHE_DIR, Text("/tmp/uv-cache")),
     EnvVar(APME_ENGINE_LISTEN, Address(ANY, 50051)),
     EnvVar(APME_ENGINE_MAX_RPCS, Text("16")),
     EnvVar(NATIVE_GRPC_ADDRESS, Address(LOOPBACK, 50055)),
     EnvVar(OPA_GRPC_ADDRESS, Address(LOOPBACK, 50054)),
     EnvVar(ANSIBLE_GRPC_ADDRESS, Address(LOOPBACK, 50053)),
     EnvVar(APME_GALAXY_PROXY_URL, Address("http://127.0.0.1", 8765)),
     EnvVar(APME_REPORTING_ENDPOINT, Address(LOOPBACK, 50060)),
     AdminToken(d)]
  }

  function EngineEnvFront(d: Desired): seq<EnvVar> {
    EngineEnvFixed(d)
    + When(d.components.gitleaks, [EnvVar(GITLEAKS_GRPC_ADDRESS, Address(LOOPBACK, 50056))])
    + When(d.components.collectionHealth, [EnvVar(COLLECTION_HEALTH_GRPC_ADDRESS, Address(LOOPBACK, 50058))])
    + When(d.components.depAudit, [EnvVar(DEP_AUDIT_GRPC_ADDRESS, Address(LOOPBACK, 50059))])
  }

  function EngineEnvBack(d: Desired): seq<EnvVar> {
    When(d.abbenay.enabled, [EnvVar(APME_ABBENAY_ADDR, Text("unix:///tmp/abbenay-run/abbenay/daemon.sock")),
                             AbbenayToken(d, APME_ABBENAY_TOKEN)])
    + ProxyEnv(d)
  }

  function EngineContainer(d: Desired): Container {
    Container(Engine, EngineEnvFront(d) + PluginAddresses(d.plugins) + EngineEnvBack(d), [],
              [ContainerPort("grpc", 50051)], Some(TcpSocket(50051)),
              [Mount(Sessions, "/sessions")] + When(d.abbenay.enabled, [Mount(AbbenayRun, "/tmp/abbenay-run")]))
  }

  /** Engine of containers.go: the environment grows step by step. */
  method BuildEngine(d: Desired) returns (c: Container)
    ensures c == EngineContainer(d)
  {
    var e := [
      EnvVar(UV_CACHE_DIR, Text("/tmp/uv-cache")),
      EnvVar(APME_ENGINE_LISTEN, Address(ANY, 50051)),
      EnvVar(APME_ENGINE_MAX_RPCS, Text("16")),
      EnvVar(NATIVE_GRPC_ADDRESS, Address(LOOPBACK, 50055)),
      EnvVar(OPA_GRPC_ADDRESS, Address(LOOPBACK, 50054)),
      EnvVar(ANSIBLE_GRPC_ADDRESS, Address(LOOPBACK, 50053)),
      EnvVar(APME_GALAXY_PROXY_URL, Address("http://127.0.0.1", 8765)),
      EnvVar(APME_REPORTING_ENDPOINT, Address(LOOPBACK, 50060))];
    e := e + [AdminToken(d)];
    if d.components.gitleaks {
      e := e + [EnvVar(GITLEAKS_GRPC_ADDRESS, Address(LOOPBACK, 50056))];
    }
    if d.components.collectionHealth {
      e := e + [EnvVar(COLLECTION_HEALTH_GRPC_ADDRESS, Address(LOOPBACK, 50058))];
    }
    if d.components.depAudit {
      e := e + [EnvVar(DEP_AUDIT_GRPC_ADDRESS, Address(LOOPBACK, 50059))];
    }
    assert e == EngineEnvFront(d);
    for i := 0 to |d.plugins|
      invariant e == EngineEnvFront(d) + PluginAddresses(d.plugins[..i])
    {
      e := e + [PluginAddressVar(d.plugins[i])];
      assert PluginAddresses(d.plugins[..i + 1]) == PluginAddresses(d.plugins[..i]) + [PluginAddressVar(d.plugins[i])];
    }
    assert d.plugins[..|d.plugins|] == d.plugins;
    var mounts := [Mount(Sessions, "/sessions")];
    if d.abbenay.enabled {
      e := e + [EnvVar(APME_ABBENAY_ADDR, Text("unix:///tmp/abbenay-run/abbenay/daemon.sock")),
                AbbenayToken(d, APME_ABBENAY_TOKEN)];
      mounts := mounts + [Mount(AbbenayRun, "/tmp/abbenay-run")];
    }
    c := Container(Engine, e + ProxyEnv(d), [], [ContainerPort("grpc", 50051)], Some(TcpSocket(50051)), mounts);
  }

  /** A validator listening on `port`, told so by variable `listen`. */
  function Validator(d: Desired, name: ContainerName, listen: string, port: int, more: seq<EnvVar>,
                     mounts: seq<Mount>): Container
  {
    Container(name, [EnvVar(Other(listen), Address(ANY, port))] + more + ProxyEnv(d), [], [],
              Some(TcpSocket(port)), mounts)
  }

  const SESSIONS := [Mount(Sessions, "/sessions")]

  function NativeContainer(d: Desired): Container {
    Validator(d, Native, "APME_NATIVE_VALIDATOR_LISTEN", 50055, [], [])
  }

  function OPAContainer(d: Desired): Container {
    Validator(d, OPA, "APME_OPA_VALIDATOR_LISTEN", 50054, [], [])
  }

  function AnsibleContainer(d: Desired): Container {
    Validator(d, Ansible, "APME_ANSIBLE_VALIDATOR_LISTEN", 50053,
              [EnvVar(APME_GALAXY_PROXY_URL, Address("http://127.0.0.1", 8765))], SESSIONS)
  }

  function GitleaksContainer(d: Desired): Container {
    Validator(d, Gitleaks, "APME_GITLEAKS_VALIDATOR_LISTEN", 50056, [], [])
  }

  function CollectionHealthContainer(d: Desired): Container {
    Validator(d, CollectionHealth, "APME_COLLECTION_HEALTH_VALIDATOR_LISTEN", 50058, [], SESSIONS)
  }

  function DepAuditContainer(d: Desired): Container {
    Validator(d, DepAudit, "APME_DEP_AUDIT_VALIDATOR_LISTEN", 50059, [], SESSIONS)
  }

  function PluginContainer(d: Desired, p: ResolvedPlugin): Container {
    Container(PluginSidecar(p.name), [EnvVar(Other("APME_PLUGIN_LISTEN"), Address(ANY, p.port))] + ProxyEnv(d), [], [],
              Some(TcpSocket(p.port)),
              When(p.configMap != "", [Mount(PluginConfig(p.name), "/etc/apme-plugin")]))
  }

  /** ANSIBLE_GALAXY_IGNORE is the opposite of verifying. */
  function TLSVerifyEnv(d: Desired): seq<EnvVar> {
    When(d.proxy.tlsVerify.Some?,
         [EnvVar(Other("ANSIBLE_GALAXY_IGNORE"), Text(if d.proxy.tlsVerify == Some(true) then "false" else "true"))])
  }

  function GalaxyProxyContainer(d: Desired): Container {
    Container(GalaxyProxy,
              [AdminToken(d), EnvVar(Other("APME_PROXY_REQUIRE_GATEWAY_CONFIG"), Text("1"))] + TLSVerifyEnv(d)
              + When(d.proxy.caConfigMap != "",
                     [EnvVar(Other("SSL_CERT_FILE"), Text("/etc/apme/galaxy-ca/ca-bundle.crt"))])
              + ProxyEnv(d),
              [], [], Some(TcpSocket(8765)),
              [Mount(ProxyCache, "/cache")]
              + When(d.proxy.caConfigMap != "", [Mount(GalaxyCABundle, "/etc/apme/galaxy-ca")]))
  }

  function GatewayEnvFixed(d: Desired): seq<EnvVar> {
    [EnvVar(Other("APME_ENGINE_ADDRESS"), Address(LOOPBACK, 50051)),
     EnvVar(Other("APME_GATEWAY_GRPC_LISTEN"), Address(ANY, 50060)),
     EnvVar(Other("APME_GATEWAY_HTTP_HOST"), Text("0.0.0.0")),
     EnvVar(Other("APME_GATEWAY_HTTP_PORT"), Text("8080")),
     EnvVar(Other("APME_DATABASE_URL"), FromSecret(d.database.secretName, d.database.secretKey)),
     AdminToken(d)]
  }

  function GatewayEnvValidators(d: Desired): seq<EnvVar> {
    When(d.components.collectionHealth, [EnvVar(COLLECTION_HEALTH_GRPC_ADDRESS, Address(LOOPBACK, 50058))])
    + When(d.components.depAudit, [EnvVar(DEP_AUDIT_GRPC_ADDRESS, Address(LOOPBACK, 50059))])
  }

  function GatewayEnvOptional(d: Desired): seq<EnvVar> {
    When(d.database.generate,
         [EnvVar(Other("SSL_CERT_FILE"), Text("/etc/apme/db-ca/ca-bundle.crt")),
          EnvVar(Other("PGSSLROOTCERT"), Text("/etc/apme/db-ca/ca-bundle.crt"))])
    + When(d.abbenay.enabled,
           [EnvVar(Other("APME_ABBENAY_HTTP_URL"), Address("http://127.0.0.1", 8787)),
            AbbenayToken(d, Other("APME_ABBENAY_HTTP_TOKEN")),
            EnvVar(APME_ABBENAY_ADDR, Text("unix:///tmp/abbenay-run/abbenay/daemon.sock"))])
  }

  function GatewayContainer(d: Desired): Container {
    Container(Gateway, GatewayEnvFixed(d) + GatewayEnvValidators(d) + GatewayEnvOptional(d) + ProxyEnv(d), [],
              [ContainerPort("gateway-grpc", 50060), ContainerPort("http", 8080)], Some(HttpGet("http")),
              When(d.database.generate, [Mount(DBCABundle, "/etc/apme/db-ca")])
              + When(d.abbenay.enabled, [Mount(AbbenayRun, "/tmp/abbenay-run")]))
  }

  function UIContainer(d: Desired): Container {
    Container(UI, [EnvVar(Other("APME_API_BACKEND"), Address("http://127.0.0.1", 8080))] + ProxyEnv(d), [],
              [ContainerPort("ui-http", 8081)], Some(HttpGet("ui-http")),
              [Mount(NginxCache, "/var/cache/nginx"), Mount(NginxRun, "/var/run"), Mount(NginxConf, "/etc/nginx/conf.d")])
  }

  function AbbenayEnvFixed(d: Desired): seq<EnvVar> {
    [AbbenayToken(d, APME_ABBENAY_TOKEN), AbbenayToken(d, Other("ABBENAY_API_TOKEN")),
     EnvVar(Other("XDG_RUNTIME_DIR"), Text("/tmp/abbenay-run")),
     EnvVar(Other("XDG_CONFIG_HOME"), Text("/etc/abbenay-config"))]
  }

  function AbbenayContainer(d: Desired): Container {
    Container(Abbenay, AbbenayEnvFixed(d) + ProxyEnv(d), [WebPort(8787), GrpcPort(50057)], [], Some(Exec),
              [Mount(AbbenayConfig, "/etc/abbenay-config"), Mount(AbbenayRun, "/tmp/abbenay-run")])
  }

  function Init(name: ContainerName, mounts: seq<Mount>): Container {
    Container(name, [], [], [], None, mounts)
  }

  const INIT_GALAXY_CA := Init(InitGalaxyCA, [Mount(GalaxyCA, "/hub-ca"), Mount(GalaxyCABundle, "/work")])
  const INIT_DB_CA := Init(InitDBCA, [Mount(DBCA, "/db-ca"), Mount(DBCABundle, "/work")])
  const INIT_NGINX := Init(InitNginxConf, [Mount(NginxConf, "/mnt/conf.d")])
  const INIT_ABBENAY := Init(InitAbbenayConfig, [Mount(AbbenayConfigSeed, "/seed"), Mount(AbbenayConfig, "/mnt/config")])

  // ---- The Pod as a whole ----

  function PluginContainers(d: Desired, ps: seq<ResolvedPlugin>): seq<Container> {
    seq(|ps|, i requires 0 <= i < |ps| => PluginContainer(d, ps[i]))
  }

  function FrontContainers(d: Desired): seq<Container> {
    [EngineContainer(d), NativeContainer(d), OPAContainer(d), AnsibleContainer(d)]
    + When(d.components.gitleaks, [GitleaksContainer(d)])
    + When(d.components.collectionHealth, [CollectionHealthContainer(d)])
    + When(d.components.depAudit, [DepAuditContainer(d)])
  }

  function BackContainers(d: Desired): seq<Container> {
    [GalaxyProxyContainer(d), GatewayContainer(d)]
    + When(d.components.ui, [UIContainer(d)])
    + When(d.abbenay.enabled, [AbbenayContainer(d)])
  }

  function Containers(d: Desired): seq<Container> {
    FrontContainers(d) + PluginContainers(d, d.plugins) + BackContainers(d)
  }

  function Inits(d: Desired): seq<Container> {
    When(d.proxy.caConfigMap != "", [INIT_GALAXY_CA])
    + When(d.database.generate, [INIT_DB_CA])
    + When(d.components.ui, [INIT_NGINX])
    + When(d.abbenay.enabled, [INIT_ABBENAY])
  }

  function FrontVolumes(d: Desired): seq<Volume> {
    [Volume(Sessions, Claim(d.name + "-sessions")), Volume(ProxyCache, Claim(d.name + "-proxy-cache"))]
    + When(d.proxy.caConfigMap != "",
           [Volume(GalaxyCA, ConfigMapFile(d.proxy.caConfigMap, d.proxy.caKey, "ca-bundle.crt")),
            Volume(GalaxyCABundle, EmptyDir)])
  }

  function PluginVolume(p: ResolvedPlugin): Volume { Volume(PluginConfig(p.name), FromConfigMap(p.configMap)) }

  function PluginVolumes(ps: seq<ResolvedPlugin>): seq<Volume> {
    if |ps| == 0 then []
    else PluginVolumes(ps[..|ps| - 1]) + When(ps[|ps| - 1].configMap != "", [PluginVolume(ps[|ps| - 1])])
  }

  /** The seed for Abbenay's config.yaml: the user's ConfigMap or the operator's default one. */
  function AbbenaySeed(d: Desired): string {
    if d.abbenay.configMap != "" then d.abbenay.configMap else d.name + "-abbenay-config"
  }

  function BackVolumes(d: Desired): seq<Volume> {
    When(d.database.generate,
         [Volume(DBCA, SecretFile(d.database.tlsSecretName, "ca.crt", "ca.crt")), Volume(DBCABundle, EmptyDir)])
    + When(d.components.ui, [Volume(NginxCache, EmptyDir), Volume(NginxRun, EmptyDir), Volume(NginxConf, EmptyDir)])
    + When(d.abbenay.enabled,
           [Volume(AbbenayConfigSeed, FromConfigMap(AbbenaySeed(d))), Volume(AbbenayRun, EmptyDir),
            Volume(AbbenayConfig, if d.abbenay.persist then Claim(d.name + "-abbenay-config") else EmptyDir)])
  }

  function Volumes(d: Desired): seq<Volume> {
    FrontVolumes(d) + PluginVolumes(d.plugins) + BackVolumes(d)
  }

  function PodOf(d: Desired): PodSpec { PodSpec(d.name, Inits(d), Containers(d), Volumes(d)) }

  method BuildFront(d: Desired) returns (cs: seq<Container>)
    ensures cs == FrontContainers(d)
  {
    var engine := BuildEngine(d);
    cs := [engine, NativeContainer(d), OPAContainer(d), AnsibleContainer(d)];
    if d.components.gitleaks {
      cs := cs + [GitleaksContainer(d)];
    }
    if d.components.collectionHealth {
      cs := cs + [CollectionHealthContainer(d)];
    }
    if d.components.depAudit {
      cs := cs + [DepAuditContainer(d)];
    }
  }

  method BuildBack(d: Desired) returns (cs: seq<Container>)
    ensures cs == BackContainers(d)
  {
    cs := [GalaxyProxyContainer(d), GatewayContainer(d)];
    if d.components.ui {
      cs := cs + [UIContainer(d)];
    }
    if d.abbenay.enabled {
      cs := cs + [AbbenayContainer(d)];
    }
  }

  method BuildContainers(d: Desired) returns (cs: seq<Container>)
    ensures cs == Containers(d)
  {
    cs := BuildFront(d);
    ghost var front := cs;
    for i := 0 to |d.plugins|
      invariant cs == front + PluginContainers(d, d.plugins[..i])
    {
      cs := cs + [PluginContainer(d, d.plugins[i])];
      assert PluginContainers(d, d.plugins[..i + 1])
          == PluginContainers(d, d.plugins[..i]) + [PluginContainer(d, d.plugins[i])];
    }
    assert d.plugins[..|d.plugins|] == d.plugins;
    var back := BuildBack(d);
    cs := cs + back;
  }

  method BuildInits(d: Desired) returns (inits: seq<Container>)
    ensures inits == Inits(d)
  {
    inits := [];
    if d.proxy.caConfigMap != "" {
      inits := inits + [INIT_GALAXY_CA];
    }
    if d.database.generate {
      inits := inits + [INIT_DB_CA];
    }
    if d.components.ui {
      inits := inits + [INIT_NGINX];
    }
    if d.abbenay.enabled {
      inits := inits + [INIT_ABBENAY];
    }
  }

  method BuildVolumes(d: Desired) returns (vols: seq<Volume>)
    ensures vols == Volumes(d)
  {
    vols := [Volume(Sessions, Claim(d.name + "-sessions")), Volume(ProxyCache, Claim(d.name + "-proxy-cache"))];
    if d.proxy.caConfigMap != "" {
      vols := vols + [Volume(GalaxyCA, ConfigMapFile(d.proxy.caConfigMap, d.proxy.caKey, "ca-bundle.crt")),
                      Volume(GalaxyCABundle, EmptyDir)];
    }
    assert vols == FrontVolumes(d);
    var plugins := BuildPluginVolumes(d.plugins);
    var back := BuildBackVolumes(d);
    vols := vols + plugins + back;
  }

  method BuildPluginVolumes(ps: seq<ResolvedPlugin>) returns (vols: seq<Volume>)
    ensures vols == PluginVolumes(ps)
  {
    vols := [];
    for i := 0 to |ps|
      invariant vols == PluginVolumes(ps[..i])
    {
      var p := ps[i];
      assert ps[..i + 1][..i] == ps[..i];
      if p.configMap == "" {
        continue;
      }
      vols := vols + [PluginVolume(p)];
    }
    assert ps[..|ps|] == ps;
  }

  method BuildBackVolumes(d: Desired) returns (vols: seq<Volume>)
    ensures vols == BackVolumes(d)
  {
    vols := [];
    if d.database.generate {
      vols := vols + [Volume(DBCA, SecretFile(d.database.tlsSecretName, "ca.crt", "ca.crt")), Volume(DBCABundle, EmptyDir)];
    }
    if d.components.ui {
      vols := vols + [Volume(NginxCache, EmptyDir), Volume(NginxRun, EmptyDir), Volume(NginxConf, EmptyDir)];
    }
    if d.abbenay.enabled {
      var seed := d.name + "-abbenay-config";
      if d.abbenay.configMap != "" {
        seed := d.abbenay.configMap;
      }
      vols := vols + [Volume(AbbenayConfigSeed, FromConfigMap(seed)), Volume(AbbenayRun, EmptyDir)];
      if d.abbenay.persist {
        vols := vols + [Volume(AbbenayConfig, Claim(d.name + "-abbenay-config"))];
      } else {
        vols := vols + [Volume(AbbenayConfig, EmptyDir)];
      }
    }
  }

  /** Deployment of deployment.go, its Pod template. */
  method BuildPod(d: Desired) returns (pod: PodSpec)
    ensures pod == PodOf(d)
  {
    var cs := BuildContainers(d);
    var inits := BuildInits(d);
    var vols := BuildVolumes(d);
    pod := PodSpec(d.name, inits, cs, vols);
  }
}
