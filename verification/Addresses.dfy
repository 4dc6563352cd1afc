/** Whom the containers of the APME Pod call: every address variable carries a port on which the container it names, and no
    other, listens. */
module Addresses {
  import opened Lists
  import opened Options
  import opened PluginPorts
  import opened Resolve
  import opened Pod
  import opened PodLaws
  import opened PodWiring

  // ---- What the variables mean ----

  /** The container an address variable is about. */
  function Dials(n: EnvName): Option<ContainerName> {
    match n
    case NATIVE_GRPC_ADDRESS => Some(Native)
    case OPA_GRPC_ADDRESS => Some(OPA)
    case ANSIBLE_GRPC_ADDRESS => Some(Ansible)
    case GITLEAKS_GRPC_ADDRESS => Some(Gitleaks)
    case COLLECTION_HEALTH_GRPC_ADDRESS => Some(CollectionHealth)
    case DEP_AUDIT_GRPC_ADDRESS => Some(DepAudit)
    case APME_GALAXY_PROXY_URL => Some(GalaxyProxy)
    case APME_REPORTING_ENDPOINT => Some(Gateway)
    case PluginAddress(plugin) => Some(PluginSidecar(plugin))
    case Other(text) =>
      if text == "APME_ENGINE_ADDRESS" then Some(Engine)
      else if text == "APME_API_BACKEND" then Some(Gateway)
      else if text == "APME_ABBENAY_HTTP_URL" then Some(Abbenay)
      else None
    case _ => None
  }

  /** The container that a listen variable tells where to listen. */
  function TellsToListen(n: EnvName): Option<ContainerName> {
    match n
    case APME_ENGINE_LISTEN => Some(Engine)
    case Other(text) =>
      if text == "APME_NATIVE_VALIDATOR_LISTEN" then Some(Native)
      else if text == "APME_OPA_VALIDATOR_LISTEN" then Some(OPA)
      else if text == "APME_ANSIBLE_VALIDATOR_LISTEN" then Some(Ansible)
      else if text == "APME_GITLEAKS_VALIDATOR_LISTEN" then Some(Gitleaks)
      else if text == "APME_COLLECTION_HEALTH_VALIDATOR_LISTEN" then Some(CollectionHealth)
      else if text == "APME_DEP_AUDIT_VALIDATOR_LISTEN" then Some(DepAudit)
      else if text == "APME_GATEWAY_GRPC_LISTEN" then Some(Gateway)
      else None
    case _ => None
  }

  /** Where a container takes calls: on the port that a listen variable gives, that is declared under a name, that the flag
      --port gives, or that its probe asks. */
  datatype Door = ByVariable(name: EnvName) | ByName(port: string) | ByFlag | ByProbe

  function VariableDoor(text: string): Door { ByVariable(Other(text)) }

  /** The door that an address variable leads to. */
  function DoorOf(n: EnvName): Door {
    match n
    case NATIVE_GRPC_ADDRESS => VariableDoor("APME_NATIVE_VALIDATOR_LISTEN")
    case OPA_GRPC_ADDRESS => VariableDoor("APME_OPA_VALIDATOR_LISTEN")
    case ANSIBLE_GRPC_ADDRESS => VariableDoor("APME_ANSIBLE_VALIDATOR_LISTEN")
    case GITLEAKS_GRPC_ADDRESS => VariableDoor("APME_GITLEAKS_VALIDATOR_LISTEN")
    case COLLECTION_HEALTH_GRPC_ADDRESS => VariableDoor("APME_COLLECTION_HEALTH_VALIDATOR_LISTEN")
    case DEP_AUDIT_GRPC_ADDRESS => VariableDoor("APME_DEP_AUDIT_VALIDATOR_LISTEN")
    case APME_REPORTING_ENDPOINT => VariableDoor("APME_GATEWAY_GRPC_LISTEN")
    case PluginAddress(_) => VariableDoor("APME_PLUGIN_LISTEN")
    case Other(text) =>
      if text == "APME_ENGINE_ADDRESS" then ByVariable(APME_ENGINE_LISTEN)
      else if text == "APME_API_BACKEND" then ByName("http")
      else if text == "APME_ABBENAY_HTTP_URL" then ByFlag
      else ByProbe
    case _ => ByProbe
  }

  /** The container takes calls at that door on that port. */
  predicate Opens(c: Container, door: Door, port: int) {
    match door
    case ByVariable(name) => EnvVar(name, Address(ANY, port)) in c.env
    case ByName(name) => ContainerPort(name, port) in c.ports
    case ByFlag => WebPort(port) in c.flags
    case ByProbe => c.probe == Some(TcpSocket(port))
  }

  lemma OpensListens(c: Container, door: Door, port: int)
    requires Opens(c, door, port)
    ensures Listens(c, port)
  {
  }

  /** A container of that name listens on that port of the Pod. */
  ghost predicate Answers(d: Desired, n: ContainerName, port: int) {
    exists c :: c in PodOf(d).containers && c.name == n && Listens(c, port)
  }

  /** The port at which a variable is to be answered, under the toggles. */
  ghost predicate Expected(d: Desired, n: EnvName, port: int) {
    match n
    case NATIVE_GRPC_ADDRESS => port == 50055
    case OPA_GRPC_ADDRESS => port == 50054
    case ANSIBLE_GRPC_ADDRESS => port == 50053
    case GITLEAKS_GRPC_ADDRESS => d.components.gitleaks && port == 50056
    case COLLECTION_HEALTH_GRPC_ADDRESS => d.components.collectionHealth && port == 50058
    case DEP_AUDIT_GRPC_ADDRESS => d.components.depAudit && port == 50059
    case APME_GALAXY_PROXY_URL => port == 8765
    case APME_REPORTING_ENDPOINT => port == 50060
    case PluginAddress(plugin) => exists i :: 0 <= i < |d.plugins| && d.plugins[i].name == plugin && d.plugins[i].port == port
    case Other(text) =>
      if text == "APME_ENGINE_ADDRESS" then port == 50051
      else if text == "APME_API_BACKEND" then port == 8080
      else text == "APME_ABBENAY_HTTP_URL" && d.abbenay.enabled && port == 8787
    case _ => false
  }

  /** At which port which variable is answered. */
  type Directory = (EnvName, int) -> bool

  ghost function DirectoryOf(d: Desired): Directory { (n: EnvName, port: int) => Expected(d, n, port) }

  /** The variable carries a loopback address at which it is answered. */
  ghost predicate WellDialled(ok: Directory, e: EnvVar) {
    Dials(e.name).Some? ==>
      e.value.Address? && (e.value.host == "127.0.0.1" || e.value.host == "http://127.0.0.1") && ok(e.name, e.value.port)
  }

  ghost predicate AllWellDialled(ok: Directory, env: seq<EnvVar>) { forall e :: e in env ==> WellDialled(ok, e) }

  lemma AllJoin(ok: Directory, a: seq<EnvVar>, b: seq<EnvVar>)
    requires AllWellDialled(ok, a) && AllWellDialled(ok, b)
    ensures AllWellDialled(ok, a + b)
  {
  }

  lemma OneDial(ok: Directory, on: bool, e: EnvVar)
    requires on ==> WellDialled(ok, e)
    ensures AllWellDialled(ok, When(on, [e]))
  {
  }

  lemma ProxyEnvDialsNobody(d: Desired, ok: Directory)
    ensures AllWellDialled(ok, ProxyEnv(d))
  {
  }

  // ---- Who answers ----

  lemma InContainers(d: Desired, c: Container)
    requires c in FrontContainers(d) || c in PluginContainers(d, d.plugins) || c in BackContainers(d)
    ensures c in PodOf(d).containers
  {
  }

  lemma ValidatorOpens(d: Desired, n: ContainerName, listen: string, port: int, more: seq<EnvVar>, ms: seq<Mount>)
    ensures Opens(Validator(d, n, listen, port, more, ms), VariableDoor(listen), port)
  {
    assert Validator(d, n, listen, port, more, ms).env[0] == EnvVar(Other(listen), Address(ANY, port));
  }

  lemma NativeOpens(d: Desired)
    ensures Opens(NativeContainer(d), DoorOf(NATIVE_GRPC_ADDRESS), 50055) && NativeContainer(d).name == Native
  {
    ValidatorOpens(d, Native, "APME_NATIVE_VALIDATOR_LISTEN", 50055, [], []);
  }

  lemma NativeInPod(d: Desired)
    ensures NativeContainer(d) in PodOf(d).containers
  {
    assert NativeContainer(d) == FrontContainers(d)[1];
    InContainers(d, NativeContainer(d));
  }

  lemma OPAOpens(d: Desired)
    ensures Opens(OPAContainer(d), DoorOf(OPA_GRPC_ADDRESS), 50054) && OPAContainer(d).name == OPA
  {
    ValidatorOpens(d, OPA, "APME_OPA_VALIDATOR_LISTEN", 50054, [], []);
  }

  lemma OPAInPod(d: Desired)
    ensures OPAContainer(d) in PodOf(d).containers
  {
    assert OPAContainer(d) == FrontContainers(d)[2];
    InContainers(d, OPAContainer(d));
  }

  lemma AnsibleOpens(d: Desired)
    ensures Opens(AnsibleContainer(d), DoorOf(ANSIBLE_GRPC_ADDRESS), 50053) && AnsibleContainer(d).name == Ansible
  {
    ValidatorOpens(d, Ansible, "APME_ANSIBLE_VALIDATOR_LISTEN", 50053,
                   [EnvVar(APME_GALAXY_PROXY_URL, Address("http://127.0.0.1", 8765))], SESSIONS);
  }

  lemma AnsibleInPod(d: Desired)
    ensures AnsibleContainer(d) in PodOf(d).containers
  {
    assert AnsibleContainer(d) == FrontContainers(d)[3];
    InContainers(d, AnsibleContainer(d));
  }

  lemma GitleaksOpens(d: Desired)
    ensures Opens(GitleaksContainer(d), DoorOf(GITLEAKS_GRPC_ADDRESS), 50056) && GitleaksContainer(d).name == Gitleaks
  {
    ValidatorOpens(d, Gitleaks, "APME_GITLEAKS_VALIDATOR_LISTEN", 50056, [], []);
  }

  lemma GitleaksInPod(d: Desired)
    requires d.components.gitleaks
    ensures GitleaksContainer(d) in PodOf(d).containers
  {
    assert GitleaksContainer(d) == FrontContainers(d)[4];
    InContainers(d, GitleaksContainer(d));
  }

  lemma CollectionHealthOpens(d: Desired)
    ensures Opens(CollectionHealthContainer(d), DoorOf(COLLECTION_HEALTH_GRPC_ADDRESS), 50058)
    ensures CollectionHealthContainer(d).name == CollectionHealth
  {
    ValidatorOpens(d, CollectionHealth, "APME_COLLECTION_HEALTH_VALIDATOR_LISTEN", 50058, [], SESSIONS);
  }

  lemma CollectionHealthInPod(d: Desired)
    requires d.components.collectionHealth
    ensures CollectionHealthContainer(d) in PodOf(d).containers
  {
    assert CollectionHealthContainer(d) in When(d.components.collectionHealth, [CollectionHealthContainer(d)]);
    InContainers(d, CollectionHealthContainer(d));
  }

  lemma DepAuditOpens(d: Desired)
    ensures Opens(DepAuditContainer(d), DoorOf(DEP_AUDIT_GRPC_ADDRESS), 50059) && DepAuditContainer(d).name == DepAudit
  {
    ValidatorOpens(d, DepAudit, "APME_DEP_AUDIT_VALIDATOR_LISTEN", 50059, [], SESSIONS);
  }

  lemma DepAuditInPod(d: Desired)
    requires d.components.depAudit
    ensures DepAuditContainer(d) in PodOf(d).containers
  {
    assert DepAuditContainer(d) in When(d.components.depAudit, [DepAuditContainer(d)]);
    InContainers(d, DepAuditContainer(d));
  }

  lemma EngineOpens(d: Desired)
    ensures Opens(EngineContainer(d), ByVariable(APME_ENGINE_LISTEN), 50051) && EngineContainer(d).name == Engine
  {
    assert EngineContainer(d).env[1] == EnvVar(APME_ENGINE_LISTEN, Address(ANY, 50051));
  }

  lemma EngineInPod(d: Desired)
    ensures EngineContainer(d) in PodOf(d).containers
  {
    assert EngineContainer(d) == FrontContainers(d)[0];
    InContainers(d, EngineContainer(d));
  }

  lemma PluginOpens(d: Desired, p: ResolvedPlugin)
    ensures Opens(PluginContainer(d, p), VariableDoor("APME_PLUGIN_LISTEN"), p.port)
  {
    assert PluginContainer(d, p).env[0] == EnvVar(Other("APME_PLUGIN_LISTEN"), Address(ANY, p.port));
  }

  lemma PluginInPod(d: Desired, i: nat)
    requires i < |d.plugins|
    ensures PluginContainer(d, d.plugins[i]) in PodOf(d).containers
  {
    assert PluginContainer(d, d.plugins[i]) == PluginContainers(d, d.plugins)[i];
    InContainers(d, PluginContainer(d, d.plugins[i]));
  }

  lemma GalaxyProxyInPod(d: Desired)
    ensures GalaxyProxyContainer(d) in PodOf(d).containers
  {
    assert GalaxyProxyContainer(d) == BackContainers(d)[0];
    InContainers(d, GalaxyProxyContainer(d));
  }

  lemma GatewayOpens(d: Desired)
    ensures Opens(GatewayContainer(d), VariableDoor("APME_GATEWAY_GRPC_LISTEN"), 50060)
    ensures Opens(GatewayContainer(d), ByName("http"), 8080) && GatewayContainer(d).name == Gateway
  {
    var c := GatewayContainer(d);
    assert c.ports[1] in c.ports && c.env[1] == EnvVar(Other("APME_GATEWAY_GRPC_LISTEN"), Address(ANY, 50060));
  }

  lemma GatewayInPod(d: Desired)
    ensures GatewayContainer(d) in PodOf(d).containers
  {
    assert GatewayContainer(d) == BackContainers(d)[1];
    InContainers(d, GatewayContainer(d));
  }

  lemma AbbenayInPod(d: Desired)
    requires d.abbenay.enabled
    ensures AbbenayContainer(d) in PodOf(d).containers
  {
    var c := AbbenayContainer(d);
    assert c in When(d.abbenay.enabled, [c]);
    InContainers(d, c);
  }

  /** A container takes calls at a door on a port. */
  ghost predicate Takes(d: Desired, c: Container, n: ContainerName, door: Door, port: int) {
    c in PodOf(d).containers && c.name == n && Opens(c, door, port)
  }

  lemma ValidatorTakes(d: Desired, n: EnvName, port: int) returns (c: Container)
    requires Expected(d, n, port) && (n.NATIVE_GRPC_ADDRESS? || n.OPA_GRPC_ADDRESS? || n.ANSIBLE_GRPC_ADDRESS?)
    ensures Takes(d, c, Dials(n).value, DoorOf(n), port)
  {
    if n.NATIVE_GRPC_ADDRESS? {
      c := NativeContainer(d);
      NativeInPod(d);
      NativeOpens(d);
    } else if n.OPA_GRPC_ADDRESS? {
      c := OPAContainer(d);
      OPAInPod(d);
      OPAOpens(d);
    } else {
      c := AnsibleContainer(d);
      AnsibleInPod(d);
      AnsibleOpens(d);
    }
  }

  lemma OptionalTakes(d: Desired, n: EnvName, port: int) returns (c: Container)
    requires Expected(d, n, port)
    requires n.GITLEAKS_GRPC_ADDRESS? || n.COLLECTION_HEALTH_GRPC_ADDRESS? || n.DEP_AUDIT_GRPC_ADDRESS?
    ensures Takes(d, c, Dials(n).value, DoorOf(n), port)
  {
    if n.GITLEAKS_GRPC_ADDRESS? {
      c := GitleaksContainer(d);
      GitleaksInPod(d);
      GitleaksOpens(d);
    } else if n.COLLECTION_HEALTH_GRPC_ADDRESS? {
      c := CollectionHealthContainer(d);
      CollectionHealthInPod(d);
      CollectionHealthOpens(d);
    } else {
      c := DepAuditContainer(d);
      DepAuditInPod(d);
      DepAuditOpens(d);
    }
  }

  lemma SidecarTakes(d: Desired, n: EnvName, port: int) returns (c: Container)
    requires Expected(d, n, port) && n.PluginAddress?
    ensures Takes(d, c, Dials(n).value, DoorOf(n), port)
  {
    var i :| 0 <= i < |d.plugins| && d.plugins[i].name == n.plugin && d.plugins[i].port == port;
    c := PluginContainer(d, d.plugins[i]);
    PluginInPod(d, i);
    PluginOpens(d, d.plugins[i]);
  }

  lemma BackTakes(d: Desired, n: EnvName, port: int) returns (c: Container)
    requires Expected(d, n, port) && (n.APME_GALAXY_PROXY_URL? || n.APME_REPORTING_ENDPOINT?)
    ensures Takes(d, c, Dials(n).value, DoorOf(n), port)
  {
    if n.APME_GALAXY_PROXY_URL? {
      c := GalaxyProxyContainer(d);
      GalaxyProxyInPod(d);
    } else {
      c := GatewayContainer(d);
      GatewayInPod(d);
      GatewayOpens(d);
    }
  }

  lemma NamedTakes(d: Desired, n: EnvName, port: int) returns (c: Container)
    requires Expected(d, n, port) && n.Other?
    ensures Takes(d, c, Dials(n).value, DoorOf(n), port)
  {
    if n.text == "APME_ENGINE_ADDRESS" {
      c := EngineContainer(d);
      EngineInPod(d);
      EngineOpens(d);
    } else if n.text == "APME_API_BACKEND" {
      c := GatewayContainer(d);
      GatewayInPod(d);
      GatewayOpens(d);
    } else {
      c := AbbenayContainer(d);
      AbbenayInPod(d);
      AbbenayOpens(d);
    }
  }

  lemma AbbenayOpens(d: Desired)
    ensures Opens(AbbenayContainer(d), ByFlag, 8787)
  {
  }

  /** Where a call is expected, the container that the variable names takes it. */
  lemma TakerOf(d: Desired, n: EnvName, port: int) returns (c: Container)
    requires Expected(d, n, port)
    ensures Takes(d, c, Dials(n).value, DoorOf(n), port)
  {
    if n.NATIVE_GRPC_ADDRESS? || n.OPA_GRPC_ADDRESS? || n.ANSIBLE_GRPC_ADDRESS? {
      c := ValidatorTakes(d, n, port);
    } else if n.GITLEAKS_GRPC_ADDRESS? || n.COLLECTION_HEALTH_GRPC_ADDRESS? || n.DEP_AUDIT_GRPC_ADDRESS? {
      c := OptionalTakes(d, n, port);
    } else if n.PluginAddress? {
      c := SidecarTakes(d, n, port);
    } else if n.Other? {
      c := NamedTakes(d, n, port);
    } else {
      c := BackTakes(d, n, port);
    }
  }

  /** What the builders rely on: which variable is answered where, as the toggles have it. */
  ghost predicate Listed(d: Desired, ok: Directory) {
    && ok(NATIVE_GRPC_ADDRESS, 50055) && ok(OPA_GRPC_ADDRESS, 50054) && ok(ANSIBLE_GRPC_ADDRESS, 50053)
    && (d.components.gitleaks ==> ok(GITLEAKS_GRPC_ADDRESS, 50056))
    && (d.components.collectionHealth ==> ok(COLLECTION_HEALTH_GRPC_ADDRESS, 50058))
    && (d.components.depAudit ==> ok(DEP_AUDIT_GRPC_ADDRESS, 50059))
    && (forall i :: 0 <= i < |d.plugins| ==> ok(PluginAddress(d.plugins[i].name), d.plugins[i].port))
    && ok(APME_GALAXY_PROXY_URL, 8765) && ok(APME_REPORTING_ENDPOINT, 50060) && ok(Other("APME_ENGINE_ADDRESS"), 50051)
    && ok(Other("APME_API_BACKEND"), 8080) && (d.abbenay.enabled ==> ok(Other("APME_ABBENAY_HTTP_URL"), 8787))
  }

  lemma NamesExpected(d: Desired)
    ensures Expected(d, Other("APME_ENGINE_ADDRESS"), 50051) && Expected(d, Other("APME_API_BACKEND"), 8080)
    ensures d.abbenay.enabled ==> Expected(d, Other("APME_ABBENAY_HTTP_URL"), 8787)
  {
  }

  lemma PluginsExpected(d: Desired)
    ensures forall i :: 0 <= i < |d.plugins| ==> Expected(d, PluginAddress(d.plugins[i].name), d.plugins[i].port)
  {
  }

  lemma AllListed(d: Desired)
    ensures Listed(d, DirectoryOf(d))
  {
    var ok := DirectoryOf(d);
    NamesExpected(d);
    PluginsExpected(d);
    assert ok(Other("APME_ENGINE_ADDRESS"), 50051) && ok(Other("APME_API_BACKEND"), 8080);
    assert d.abbenay.enabled ==> ok(Other("APME_ABBENAY_HTTP_URL"), 8787);
  }

  // ---- Container by container ----

  lemma EngineFixedDials(d: Desired, ok: Directory)
    requires Listed(d, ok)
    ensures AllWellDialled(ok, EngineEnvFixed(d))
  {
  }

  lemma EngineFrontDials(d: Desired, ok: Directory)
    requires Listed(d, ok)
    ensures AllWellDialled(ok, EngineEnvFront(d))
  {
    var g, h, a := EnvVar(GITLEAKS_GRPC_ADDRESS, Address(LOOPBACK, 50056)),
                   EnvVar(COLLECTION_HEALTH_GRPC_ADDRESS, Address(LOOPBACK, 50058)),
                   EnvVar(DEP_AUDIT_GRPC_ADDRESS, Address(LOOPBACK, 50059));
    EngineFixedDials(d, ok);
    OneDial(ok, d.components.gitleaks, g);
    OneDial(ok, d.components.collectionHealth, h);
    OneDial(ok, d.components.depAudit, a);
    AllJoin(ok, EngineEnvFixed(d), When(d.components.gitleaks, [g]));
    AllJoin(ok, EngineEnvFixed(d) + When(d.components.gitleaks, [g]), When(d.components.collectionHealth, [h]));
    AllJoin(ok, EngineEnvFixed(d) + When(d.components.gitleaks, [g]) + When(d.components.collectionHealth, [h]),
            When(d.components.depAudit, [a]));
  }

  lemma PluginDials(d: Desired, ok: Directory)
    requires Listed(d, ok)
    ensures AllWellDialled(ok, PluginAddresses(d.plugins))
  {
  }

  lemma EngineBackDials(d: Desired, ok: Directory)
    ensures AllWellDialled(ok, EngineEnvBack(d))
  {
    ProxyEnvDialsNobody(d, ok);
  }

  lemma EngineDials(d: Desired, ok: Directory)
    requires Listed(d, ok)
    ensures AllWellDialled(ok, EngineContainer(d).env)
  {
    EngineFrontDials(d, ok);
    PluginDials(d, ok);
    EngineBackDials(d, ok);
    AllJoin(ok, EngineEnvFront(d), PluginAddresses(d.plugins));
    AllJoin(ok, EngineEnvFront(d) + PluginAddresses(d.plugins), EngineEnvBack(d));
  }

  lemma ValidatorDials(d: Desired, ok: Directory, name: ContainerName, listen: string, port: int,
                       more: seq<EnvVar>, mounts: seq<Mount>)
    requires AllWellDialled(ok, more) && Dials(Other(listen)) == None
    ensures AllWellDialled(ok, Validator(d, name, listen, port, more, mounts).env)
  {
    ProxyEnvDialsNobody(d, ok);
    AllJoin(ok, [EnvVar(Other(listen), Address(ANY, port))], more);
    AllJoin(ok, [EnvVar(Other(listen), Address(ANY, port))] + more, ProxyEnv(d));
  }

  lemma FrontDials(d: Desired, ok: Directory, c: Container)
    requires Listed(d, ok) && c in FrontContainers(d)
    ensures AllWellDialled(ok, c.env)
  {
    FrontMember(d, c);
    if c == EngineContainer(d) { EngineDials(d, ok); }
    else if c == NativeContainer(d) { ValidatorDials(d, ok, Native, "APME_NATIVE_VALIDATOR_LISTEN", 50055, [], []); }
    else if c == OPAContainer(d) { ValidatorDials(d, ok, OPA, "APME_OPA_VALIDATOR_LISTEN", 50054, [], []); }
    else if c == AnsibleContainer(d) { AnsibleDials(d, ok); }
    else if c == GitleaksContainer(d) { ValidatorDials(d, ok, Gitleaks, "APME_GITLEAKS_VALIDATOR_LISTEN", 50056, [], []); }
    else if c == CollectionHealthContainer(d) {
      ValidatorDials(d, ok, CollectionHealth, "APME_COLLECTION_HEALTH_VALIDATOR_LISTEN", 50058, [], SESSIONS);
    } else {
      ValidatorDials(d, ok, DepAudit, "APME_DEP_AUDIT_VALIDATOR_LISTEN", 50059, [], SESSIONS);
    }
  }

  lemma AnsibleDials(d: Desired, ok: Directory)
    requires Listed(d, ok)
    ensures AllWellDialled(ok, AnsibleContainer(d).env)
  {
    ValidatorDials(d, ok, Ansible, "APME_ANSIBLE_VALIDATOR_LISTEN", 50053,
                   [EnvVar(APME_GALAXY_PROXY_URL, Address("http://127.0.0.1", 8765))], SESSIONS);
  }

  lemma SidecarDials(d: Desired, ok: Directory, p: ResolvedPlugin)
    ensures AllWellDialled(ok, PluginContainer(d, p).env)
  {
    ProxyEnvDialsNobody(d, ok);
    AllJoin(ok, [EnvVar(Other("APME_PLUGIN_LISTEN"), Address(ANY, p.port))], ProxyEnv(d));
  }

  lemma ProxyNames()
    ensures Dials(Other("APME_PROXY_REQUIRE_GATEWAY_CONFIG")) == None
    ensures Dials(Other("ANSIBLE_GALAXY_IGNORE")) == None && Dials(Other("SSL_CERT_FILE")) == None
  {
  }

  lemma GalaxyProxyDials(d: Desired, ok: Directory)
    ensures AllWellDialled(ok, GalaxyProxyContainer(d).env)
  {
    ProxyNames();
    ProxyEnvDialsNobody(d, ok);
  }

  lemma UIDials(d: Desired, ok: Directory)
    requires Listed(d, ok)
    ensures AllWellDialled(ok, UIContainer(d).env)
  {
    ProxyEnvDialsNobody(d, ok);
    AllJoin(ok, [EnvVar(Other("APME_API_BACKEND"), Address("http://127.0.0.1", 8080))], ProxyEnv(d));
  }

  lemma AbbenayNames()
    ensures Dials(Other("ABBENAY_API_TOKEN")) == None && Dials(Other("XDG_RUNTIME_DIR")) == None
    ensures Dials(Other("XDG_CONFIG_HOME")) == None
  {
  }

  lemma AbbenayDials(d: Desired, ok: Directory)
    ensures AllWellDialled(ok, AbbenayContainer(d).env)
  {
    AbbenayNames();
    ProxyEnvDialsNobody(d, ok);
  }

  // ---- The Gateway, piece by piece ----

  lemma GatewayNames()
    ensures Dials(Other("APME_GATEWAY_GRPC_LISTEN")) == None && Dials(Other("APME_GATEWAY_HTTP_HOST")) == None
    ensures Dials(Other("APME_GATEWAY_HTTP_PORT")) == None && Dials(Other("APME_DATABASE_URL")) == None
    ensures Dials(Other("SSL_CERT_FILE")) == None && Dials(Other("PGSSLROOTCERT")) == None
    ensures Dials(Other("APME_ABBENAY_HTTP_TOKEN")) == None
    ensures Dials(Other("APME_ENGINE_ADDRESS")) == Some(Engine) && Dials(Other("APME_ABBENAY_HTTP_URL")) == Some(Abbenay)
  {
  }

  lemma GatewayFixedDials(d: Desired, ok: Directory)
    requires Listed(d, ok)
    ensures AllWellDialled(ok, GatewayEnvFixed(d))
  {
    GatewayNames();
  }

  lemma GatewayValidatorsDialled(d: Desired, ok: Directory)
    requires Listed(d, ok)
    ensures AllWellDialled(ok, GatewayEnvValidators(d))
  {
    var h, a := EnvVar(COLLECTION_HEALTH_GRPC_ADDRESS, Address(LOOPBACK, 50058)),
                EnvVar(DEP_AUDIT_GRPC_ADDRESS, Address(LOOPBACK, 50059));
    OneDial(ok, d.components.collectionHealth, h);
    OneDial(ok, d.components.depAudit, a);
    AllJoin(ok, When(d.components.collectionHealth, [h]), When(d.components.depAudit, [a]));
  }

  lemma GatewayOptionalDials(d: Desired, ok: Directory)
    requires Listed(d, ok)
    ensures AllWellDialled(ok, GatewayEnvOptional(d))
  {
    GatewayNames();
  }

  lemma GatewayDials(d: Desired, ok: Directory)
    requires Listed(d, ok)
    ensures AllWellDialled(ok, GatewayContainer(d).env)
  {
    var x, y, z := GatewayEnvFixed(d), GatewayEnvValidators(d), GatewayEnvOptional(d);
    GatewayFixedDials(d, ok);
    GatewayValidatorsDialled(d, ok);
    GatewayOptionalDials(d, ok);
    ProxyEnvDialsNobody(d, ok);
    AllJoin(ok, x, y);
    AllJoin(ok, x + y, z);
    AllJoin(ok, x + y + z, ProxyEnv(d));
  }

  lemma BackDials(d: Desired, ok: Directory, c: Container)
    requires Listed(d, ok) && c in BackContainers(d)
    ensures AllWellDialled(ok, c.env)
  {
    BackMember(d, c);
    if c == GalaxyProxyContainer(d) { GalaxyProxyDials(d, ok); }
    else if c == GatewayContainer(d) { GatewayDials(d, ok); }
    else if c == UIContainer(d) { UIDials(d, ok); }
    else { AbbenayDials(d, ok); }
  }

  lemma EveryoneDialsWell(d: Desired, ok: Directory, c: Container)
    requires Listed(d, ok) && c in PodOf(d).containers
    ensures AllWellDialled(ok, c.env)
  {
    if c in FrontContainers(d) {
      FrontDials(d, ok, c);
    } else if c in PluginContainers(d, d.plugins) {
      var i :| 0 <= i < |d.plugins| && c == PluginContainer(d, d.plugins[i]);
      SidecarDials(d, ok, d.plugins[i]);
    } else {
      BackDials(d, ok, c);
    }
  }

  // ---- The theorems ----

  /** Every address variable of every container carries a loopback address on whose port the container it names takes such
      calls, and on which no container of another name listens. */
  lemma EveryAddressAnswered(d: Desired, c: Container, e: EnvVar) returns (l: Container)
    requires Sound(d) && c in PodOf(d).containers && e in c.env && Dials(e.name).Some?
    ensures e.value.Address? && (e.value.host == "127.0.0.1" || e.value.host == "http://127.0.0.1")
    ensures l in PodOf(d).containers && l.name == Dials(e.name).value && Opens(l, DoorOf(e.name), e.value.port)
    ensures forall m :: m in PodOf(d).containers && Listens(m, e.value.port) ==> m.name == Dials(e.name).value
  {
    AllListed(d);
    EveryoneDialsWell(d, DirectoryOf(d), c);
    assert WellDialled(DirectoryOf(d), e);
    l := TakerOf(d, e.name, e.value.port);
    OpensListens(l, DoorOf(e.name), e.value.port);
    OnlyAnswer(d, Dials(e.name).value, e.value.port);
  }

  /** No container of another name listens where one answers. */
  lemma OnlyAnswer(d: Desired, n: ContainerName, port: int)
    requires Sound(d) && Answers(d, n, port)
    ensures forall l :: l in PodOf(d).containers && Listens(l, port) ==> l.name == n
  {
    var l :| l in PodOf(d).containers && l.name == n && Listens(l, port);
    forall m | m in PodOf(d).containers && Listens(m, port)
      ensures m.name == n
    {
      OneListener(d, m, l, port);
    }
  }

  /** The Engine has an address variable for the container named `n`. */
  ghost predicate EngineDialsIt(d: Desired, n: ContainerName) {
    exists e :: e in EngineContainer(d).env && Dials(e.name) == Some(n)
  }

  lemma InEngineEnv(d: Desired, e: EnvVar)
    requires e in EngineEnvFront(d) || e in PluginAddresses(d.plugins)
    ensures e in EngineContainer(d).env
  {
  }

  lemma EngineDialsFixed(d: Desired)
    ensures EngineDialsIt(d, Native) && EngineDialsIt(d, OPA) && EngineDialsIt(d, Ansible)
    ensures EngineDialsIt(d, GalaxyProxy) && EngineDialsIt(d, Gateway)
  {
    var env := EngineEnvFixed(d);
    assert Dials(env[3].name) == Some(Native) && Dials(env[4].name) == Some(OPA) && Dials(env[5].name) == Some(Ansible);
    assert Dials(env[6].name) == Some(GalaxyProxy) && Dials(env[7].name) == Some(Gateway);
    forall i | 0 <= i < |env|
      ensures env[i] in EngineContainer(d).env
    {
      assert env[i] == EngineEnvFront(d)[i];
      InEngineEnv(d, env[i]);
    }
  }

  lemma EngineDialsOptional(d: Desired, e: EnvVar)
    requires || (d.components.gitleaks && e == EnvVar(GITLEAKS_GRPC_ADDRESS, Address(LOOPBACK, 50056)))
             || (d.components.collectionHealth && e == EnvVar(COLLECTION_HEALTH_GRPC_ADDRESS, Address(LOOPBACK, 50058)))
             || (d.components.depAudit && e == EnvVar(DEP_AUDIT_GRPC_ADDRESS, Address(LOOPBACK, 50059)))
    ensures e in EngineContainer(d).env
  {
    assert e in [e];
    InEngineEnv(d, e);
  }

  /** The names in `known` include those of all validators and plugins that the toggles and the plugin list call for, and
      of the proxy and the Gateway. */
  ghost predicate Complete(d: Desired, known: ContainerName -> bool) {
    && known(Native) && known(OPA) && known(Ansible) && known(GalaxyProxy) && known(Gateway)
    && (d.components.gitleaks ==> known(Gitleaks)) && (d.components.collectionHealth ==> known(CollectionHealth))
    && (d.components.depAudit ==> known(DepAudit)) && forall i :: 0 <= i < |d.plugins| ==> known(PluginSidecar(d.plugins[i].name))
  }

  lemma EngineKnowsGitleaks(d: Desired)
    requires d.components.gitleaks
    ensures EngineDialsIt(d, Gitleaks)
  {
    var e := EnvVar(GITLEAKS_GRPC_ADDRESS, Address(LOOPBACK, 50056));
    EngineDialsOptional(d, e);
    DialIs(d, e, Gitleaks);
  }

  lemma EngineKnowsCollectionHealth(d: Desired)
    requires d.components.collectionHealth
    ensures EngineDialsIt(d, CollectionHealth)
  {
    var e := EnvVar(COLLECTION_HEALTH_GRPC_ADDRESS, Address(LOOPBACK, 50058));
    EngineDialsOptional(d, e);
    DialIs(d, e, CollectionHealth);
  }

  lemma EngineKnowsDepAudit(d: Desired)
    requires d.components.depAudit
    ensures EngineDialsIt(d, DepAudit)
  {
    var e := EnvVar(DEP_AUDIT_GRPC_ADDRESS, Address(LOOPBACK, 50059));
    EngineDialsOptional(d, e);
    DialIs(d, e, DepAudit);
  }

  lemma EngineKnowsPlugin(d: Desired, i: nat)
    requires i < |d.plugins|
    ensures EngineDialsIt(d, PluginSidecar(d.plugins[i].name))
  {
    var e := PluginAddressVar(d.plugins[i]);
    assert e == PluginAddresses(d.plugins)[i];
    InEngineEnv(d, e);
    DialIs(d, e, PluginSidecar(d.plugins[i].name));
  }

  lemma EngineKnows(d: Desired)
    ensures Complete(d, n => EngineDialsIt(d, n))
  {
    EngineDialsFixed(d);
    if d.components.gitleaks { EngineKnowsGitleaks(d); }
    if d.components.collectionHealth { EngineKnowsCollectionHealth(d); }
    if d.components.depAudit { EngineKnowsDepAudit(d); }
    forall i | 0 <= i < |d.plugins|
      ensures EngineDialsIt(d, PluginSidecar(d.plugins[i].name))
    {
      EngineKnowsPlugin(d, i);
    }
  }

  lemma DialIs(d: Desired, e: EnvVar, n: ContainerName)
    requires e in EngineContainer(d).env && Dials(e.name) == Some(n)
    ensures EngineDialsIt(d, n)
  {
  }

  lemma AllKnown(d: Desired, known: ContainerName -> bool, c: Container)
    requires Complete(d, known) && c in PodOf(d).containers && c.name != Engine && c.name != UI && c.name != Abbenay
    ensures known(c.name)
  {
    if c in FrontContainers(d) {
      FrontToggled(d, c);
    } else if c in PluginContainers(d, d.plugins) {
      SidecarNamed(d, c);
    } else {
      BackNames(d, c);
    }
  }

  lemma SidecarNamed(d: Desired, c: Container)
    requires c in PluginContainers(d, d.plugins)
    ensures exists i :: 0 <= i < |d.plugins| && c.name == PluginSidecar(d.plugins[i].name)
  {
    var i :| 0 <= i < |d.plugins| && c == PluginContainer(d, d.plugins[i]);
  }

  lemma BackNames(d: Desired, c: Container)
    requires c in BackContainers(d)
    ensures c.name == GalaxyProxy || c.name == Gateway || c.name == UI || c.name == Abbenay
  {
    BackMember(d, c);
  }

  /** Conversely the Engine is told of every validator and plugin in the Pod, and of the proxy and the Gateway. */
  lemma EngineKnowsEveryone(d: Desired, c: Container)
    requires c in PodOf(d).containers && c.name != Engine && c.name != UI && c.name != Abbenay
    ensures EngineDialsIt(d, c.name)
  {
    EngineKnows(d);
    AllKnown(d, n => EngineDialsIt(d, n), c);
  }

  lemma FrontToggled(d: Desired, c: Container)
    requires c in FrontContainers(d)
    ensures c.name == Engine || c.name == Native || c.name == OPA || c.name == Ansible
            || (c.name == Gitleaks && d.components.gitleaks) || (c.name == CollectionHealth && d.components.collectionHealth)
            || (c.name == DepAudit && d.components.depAudit)
  {
  }

  // ---- The Gateway's HTTP port ----

  /** The number that decimal digits spell. */
  function NumberOf(s: string): int {
    if s == "" then 0 else NumberOf(s[..|s| - 1]) * 10 + (s[|s| - 1] as int - '0' as int)
  }

  lemma FourDigits(s: string)
    requires |s| == 4
    ensures NumberOf(s) == (s[0] as int - 48) * 1000 + (s[1] as int - 48) * 100 + (s[2] as int - 48) * 10 + (s[3] as int - 48)
  {
    var a, b, c := s[..3], s[..2], s[..1];
    assert a[..2] == b && b[..1] == c && c[..0] == "";
    assert NumberOf(c) == s[0] as int - 48;
    assert NumberOf(b) == NumberOf(c) * 10 + (s[1] as int - 48);
    assert NumberOf(a) == NumberOf(b) * 10 + (s[2] as int - 48);
  }

  /** The port that the Gateway is told to serve HTTP on is the one it declares as http, which its probes ask. */
  lemma HttpPortIsDeclared(d: Desired, e: EnvVar)
    requires e in GatewayContainer(d).env && e.name == Other("APME_GATEWAY_HTTP_PORT")
    ensures e.value.Text? && ContainerPort("http", NumberOf(e.value.text)) in GatewayContainer(d).ports
    ensures GatewayContainer(d).probe == Some(HttpGet("http"))
  {
    HttpPortText(d, e);
    FourDigits("8080");
    assert GatewayContainer(d).ports[1] == ContainerPort("http", 8080);
  }

  lemma HttpPortText(d: Desired, e: EnvVar)
    requires e in GatewayContainer(d).env && e.name == Other("APME_GATEWAY_HTTP_PORT")
    ensures e.value == Text("8080")
  {
    if e in GatewayEnvFixed(d) { HttpPortFixed(d, e); }
    else if e in GatewayEnvOptional(d) { HttpPortNotOptional(d, e); }
  }

  lemma HttpPortFixed(d: Desired, e: EnvVar)
    requires e in GatewayEnvFixed(d) && e.name == Other("APME_GATEWAY_HTTP_PORT")
    ensures e.value == Text("8080")
  {
  }

  lemma HttpPortNotOptional(d: Desired, e: EnvVar)
    requires e in GatewayEnvOptional(d)
    ensures e.name != Other("APME_GATEWAY_HTTP_PORT")
  {
  }

  // ---- Who is told to listen ----

  /** A listen variable among these is the one of container `n`, and gives an address on all interfaces. */
  ghost predicate OwnListen(n: ContainerName, e: EnvVar) {
    TellsToListen(e.name).Some? ==> TellsToListen(e.name) == Some(n) && e.value.Address? && e.value.host == "0.0.0.0"
  }

  ghost predicate AllOwnListen(n: ContainerName, env: seq<EnvVar>) { forall e :: e in env ==> OwnListen(n, e) }

  lemma OwnJoin(n: ContainerName, a: seq<EnvVar>, b: seq<EnvVar>)
    requires AllOwnListen(n, a) && AllOwnListen(n, b)
    ensures AllOwnListen(n, a + b)
  {
  }

  lemma ProxyEnvNoListen(d: Desired, n: ContainerName)
    ensures AllOwnListen(n, ProxyEnv(d))
  {
  }

  lemma EngineListensOwn(d: Desired)
    ensures AllOwnListen(Engine, EngineContainer(d).env)
  {
    ProxyEnvNoListen(d, Engine);
    EngineFrontOwn(d);
    PluginAddressesOwn(d);
    OwnJoin(Engine, EngineEnvFront(d), PluginAddresses(d.plugins));
    EngineBackOwn(d);
    OwnJoin(Engine, EngineEnvFront(d) + PluginAddresses(d.plugins), EngineEnvBack(d));
  }

  lemma EngineFrontOwn(d: Desired)
    ensures AllOwnListen(Engine, EngineEnvFront(d))
  {
  }

  lemma PluginAddressesOwn(d: Desired)
    ensures AllOwnListen(Engine, PluginAddresses(d.plugins))
  {
  }

  lemma EngineBackOwn(d: Desired)
    ensures AllOwnListen(Engine, EngineEnvBack(d))
  {
    ProxyEnvNoListen(d, Engine);
  }

  lemma ValidatorListensOwn(d: Desired, n: ContainerName, listen: string, port: int, more: seq<EnvVar>, mounts: seq<Mount>)
    requires AllOwnListen(n, more) && TellsToListen(Other(listen)) == Some(n)
    ensures AllOwnListen(n, Validator(d, n, listen, port, more, mounts).env)
  {
    ProxyEnvNoListen(d, n);
    OwnJoin(n, [EnvVar(Other(listen), Address(ANY, port))], more);
    OwnJoin(n, [EnvVar(Other(listen), Address(ANY, port))] + more, ProxyEnv(d));
  }

  lemma ValidatorListenNames()
    ensures TellsToListen(Other("APME_NATIVE_VALIDATOR_LISTEN")) == Some(Native)
    ensures TellsToListen(Other("APME_OPA_VALIDATOR_LISTEN")) == Some(OPA)
    ensures TellsToListen(Other("APME_ANSIBLE_VALIDATOR_LISTEN")) == Some(Ansible)
    ensures TellsToListen(Other("APME_GITLEAKS_VALIDATOR_LISTEN")) == Some(Gitleaks)
    ensures TellsToListen(Other("APME_COLLECTION_HEALTH_VALIDATOR_LISTEN")) == Some(CollectionHealth)
    ensures TellsToListen(Other("APME_DEP_AUDIT_VALIDATOR_LISTEN")) == Some(DepAudit)
  {
  }

  lemma FrontListensOwn(d: Desired, c: Container)
    requires c in FrontContainers(d)
    ensures AllOwnListen(c.name, c.env)
  {
    FrontMember(d, c);
    ValidatorListenNames();
    if c == EngineContainer(d) { EngineListensOwn(d); }
    else if c == NativeContainer(d) { ValidatorListensOwn(d, Native, "APME_NATIVE_VALIDATOR_LISTEN", 50055, [], []); }
    else if c == OPAContainer(d) { ValidatorListensOwn(d, OPA, "APME_OPA_VALIDATOR_LISTEN", 50054, [], []); }
    else if c == AnsibleContainer(d) {
      ValidatorListensOwn(d, Ansible, "APME_ANSIBLE_VALIDATOR_LISTEN", 50053,
                          [EnvVar(APME_GALAXY_PROXY_URL, Address("http://127.0.0.1", 8765))], SESSIONS);
    }
    else if c == GitleaksContainer(d) { ValidatorListensOwn(d, Gitleaks, "APME_GITLEAKS_VALIDATOR_LISTEN", 50056, [], []); }
    else if c == CollectionHealthContainer(d) {
      ValidatorListensOwn(d, CollectionHealth, "APME_COLLECTION_HEALTH_VALIDATOR_LISTEN", 50058, [], SESSIONS);
    } else {
      ValidatorListensOwn(d, DepAudit, "APME_DEP_AUDIT_VALIDATOR_LISTEN", 50059, [], SESSIONS);
    }
  }

  lemma GatewayListenNames()
    ensures TellsToListen(Other("APME_GATEWAY_HTTP_HOST")) == None
    ensures TellsToListen(Other("APME_GATEWAY_HTTP_PORT")) == None
    ensures TellsToListen(Other("APME_DATABASE_URL")) == None && TellsToListen(Other("SSL_CERT_FILE")) == None
    ensures TellsToListen(Other("PGSSLROOTCERT")) == None && TellsToListen(Other("APME_ABBENAY_HTTP_TOKEN")) == None
    ensures TellsToListen(Other("APME_ENGINE_ADDRESS")) == None && TellsToListen(Other("APME_ABBENAY_HTTP_URL")) == None
    ensures TellsToListen(Other("APME_GATEWAY_GRPC_LISTEN")) == Some(Gateway)
  {
  }

  lemma GatewayPiecesOwn(d: Desired)
    ensures AllOwnListen(Gateway, GatewayEnvFixed(d)) && AllOwnListen(Gateway, GatewayEnvValidators(d))
  {
    GatewayListenNames();
  }

  lemma GatewayOptionalOwn(d: Desired)
    ensures AllOwnListen(Gateway, GatewayEnvOptional(d))
  {
    GatewayListenNames();
  }

  lemma GatewayListensOwn(d: Desired)
    ensures AllOwnListen(Gateway, GatewayContainer(d).env)
  {
    var x, y, z := GatewayEnvFixed(d), GatewayEnvValidators(d), GatewayEnvOptional(d);
    GatewayPiecesOwn(d);
    GatewayOptionalOwn(d);
    ProxyEnvNoListen(d, Gateway);
    OwnJoin(Gateway, x, y);
    OwnJoin(Gateway, x + y, z);
    OwnJoin(Gateway, x + y + z, ProxyEnv(d));
  }

  lemma ProxyListenNames()
    ensures TellsToListen(Other("APME_PROXY_REQUIRE_GATEWAY_CONFIG")) == None
    ensures TellsToListen(Other("ANSIBLE_GALAXY_IGNORE")) == None && TellsToListen(Other("SSL_CERT_FILE")) == None
  {
  }

  lemma AbbenayListenNames()
    ensures TellsToListen(Other("ABBENAY_API_TOKEN")) == None && TellsToListen(Other("XDG_RUNTIME_DIR")) == None
    ensures TellsToListen(Other("XDG_CONFIG_HOME")) == None
  {
  }

  lemma BackListensOwn(d: Desired, c: Container)
    requires c in BackContainers(d)
    ensures AllOwnListen(c.name, c.env)
  {
    BackMember(d, c);
    if c == GatewayContainer(d) { GatewayListensOwn(d); }
    else if c == GalaxyProxyContainer(d) { GalaxyProxyToldNothing(d); }
    else if c == UIContainer(d) { UIToldNothing(d); }
    else { AbbenayToldNothing(d); }
  }

  lemma GalaxyProxyToldNothing(d: Desired)
    ensures AllOwnListen(GalaxyProxy, GalaxyProxyContainer(d).env)
  {
    ProxyListenNames();
    ProxyEnvNoListen(d, GalaxyProxy);
  }

  lemma UIToldNothing(d: Desired)
    ensures AllOwnListen(UI, UIContainer(d).env)
  {
    ProxyEnvNoListen(d, UI);
  }

  lemma AbbenayToldNothing(d: Desired)
    ensures AllOwnListen(Abbenay, AbbenayContainer(d).env)
  {
    AbbenayListenNames();
    ProxyEnvNoListen(d, Abbenay);
  }

  lemma SidecarListensOwn(d: Desired, p: ResolvedPlugin)
    ensures AllOwnListen(PluginSidecar(p.name), PluginContainer(d, p).env)
  {
    ProxyEnvNoListen(d, PluginSidecar(p.name));
  }

  lemma EveryoneListensOwn(d: Desired, c: Container)
    requires c in PodOf(d).containers
    ensures AllOwnListen(c.name, c.env)
  {
    if c in FrontContainers(d) {
      FrontListensOwn(d, c);
    } else if c in PluginContainers(d, d.plugins) {
      var i :| 0 <= i < |d.plugins| && c == PluginContainer(d, d.plugins[i]);
      SidecarListensOwn(d, d.plugins[i]);
    } else {
      BackListensOwn(d, c);
    }
  }

  /** A listen variable in a container is that container's own, and names a port on which no other container listens. */
  lemma ListenVariableIsOwn(d: Desired, c: Container, e: EnvVar)
    requires Sound(d) && c in PodOf(d).containers && e in c.env && TellsToListen(e.name).Some?
    ensures TellsToListen(e.name) == Some(c.name) && e.value.Address? && e.value.host == "0.0.0.0"
    ensures forall l :: l in PodOf(d).containers && Listens(l, e.value.port) ==> l.name == c.name
  {
    EveryoneListensOwn(d, c);
    assert OwnListen(c.name, e);
    assert ListensByEnv(c.env, e.value.port);
    OnlyAnswer(d, c.name, e.value.port);
  }
}
