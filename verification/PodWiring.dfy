/** Ports, volumes and references of the APME Pod fit together, for all toggles and any plugin list. */
module PodWiring {
  import opened Options
  import opened PluginPorts
  import opened Resolve
  import opened Pod
  import opened PodLaws

  // ---- Ports ----

  ghost predicate ListensByEnv(env: seq<EnvVar>, port: int) {
    exists e :: e in env && e.value == Address(ANY, port)
  }

  /** The container listens on `port`, going by its variables, flags, declared ports and TCP probe. */
  ghost predicate Listens(c: Container, port: int) {
    || ListensByEnv(c.env, port)
    || WebPort(port) in c.flags || GrpcPort(port) in c.flags
    || c.probe == Some(TcpSocket(port))
    || exists p :: p in c.ports && p.port == port
  }

  /** The rank of the container a port belongs to. */
  function Owner(port: int): int {
    if InRange(port) then 7
    else if port == 50051 then 0 else if port == 50055 then 1 else if port == 50054 then 2
    else if port == 50053 then 3 else if port == 50056 then 4 else if port == 50058 then 5
    else if port == 50059 then 6 else if port == 8765 then 8 else if port == 50060 || port == 8080 then 9
    else if port == 8081 then 10 else if port == 8787 || port == 50057 then 11 else -1
  }

  ghost predicate KeepsToItsPorts(c: Container) {
    forall port :: Listens(c, port) ==> ContainerRank(c.name) == Owner(port)
  }

  lemma EnginePorts(d: Desired)
    ensures KeepsToItsPorts(EngineContainer(d))
  {
    forall port | ListensByEnv(EngineContainer(d).env, port)
      ensures port == 50051
    {
      var e :| e in EngineContainer(d).env && e.value == Address(ANY, port);
      EngineListenVar(d, e);
    }
  }

  lemma EngineListenVar(d: Desired, e: EnvVar)
    requires e in EngineContainer(d).env && e.value.Address? && e.value.host == ANY
    ensures e.value.port == 50051
  {
    if e in EngineEnvFront(d) {
      EngineFrontListenVar(d, e);
    }
  }

  lemma EngineFrontListenVar(d: Desired, e: EnvVar)
    requires e in EngineEnvFront(d) && e.value.Address? && e.value.host == ANY
    ensures e.value.port == 50051
  {
  }

  lemma ValidatorPorts(d: Desired, name: ContainerName, listen: string, port: int, more: seq<EnvVar>, mounts: seq<Mount>)
    requires forall e :: e in more ==> e.value.Address? && e.value.host != ANY
    requires ContainerRank(name) == Owner(port)
    ensures KeepsToItsPorts(Validator(d, name, listen, port, more, mounts))
  {
  }

  lemma NativeKeepsToPorts(d: Desired)
    ensures KeepsToItsPorts(NativeContainer(d))
  {
    ValidatorPorts(d, Native, "APME_NATIVE_VALIDATOR_LISTEN", 50055, [], []);
  }

  lemma OPAKeepsToPorts(d: Desired)
    ensures KeepsToItsPorts(OPAContainer(d))
  {
    ValidatorPorts(d, OPA, "APME_OPA_VALIDATOR_LISTEN", 50054, [], []);
  }

  lemma AnsibleKeepsToPorts(d: Desired)
    ensures KeepsToItsPorts(AnsibleContainer(d))
  {
    ValidatorPorts(d, Ansible, "APME_ANSIBLE_VALIDATOR_LISTEN", 50053,
                   [EnvVar(APME_GALAXY_PROXY_URL, Address("http://127.0.0.1", 8765))], SESSIONS);
  }

  lemma GitleaksKeepsToPorts(d: Desired)
    ensures KeepsToItsPorts(GitleaksContainer(d))
  {
    ValidatorPorts(d, Gitleaks, "APME_GITLEAKS_VALIDATOR_LISTEN", 50056, [], []);
  }

  lemma CollectionHealthKeepsToPorts(d: Desired)
    ensures KeepsToItsPorts(CollectionHealthContainer(d))
  {
    ValidatorPorts(d, CollectionHealth, "APME_COLLECTION_HEALTH_VALIDATOR_LISTEN", 50058, [], SESSIONS);
  }

  lemma DepAuditKeepsToPorts(d: Desired)
    ensures KeepsToItsPorts(DepAuditContainer(d))
  {
    ValidatorPorts(d, DepAudit, "APME_DEP_AUDIT_VALIDATOR_LISTEN", 50059, [], SESSIONS);
  }

  lemma FrontMember(d: Desired, c: Container)
    requires c in FrontContainers(d)
    ensures c == EngineContainer(d) || c == NativeContainer(d) || c == OPAContainer(d) || c == AnsibleContainer(d)
         || c == GitleaksContainer(d) || c == CollectionHealthContainer(d) || c == DepAuditContainer(d)
  {
  }

  lemma FrontKeepsToPorts(d: Desired, c: Container)
    requires c in FrontContainers(d)
    ensures KeepsToItsPorts(c)
  {
    FrontMember(d, c);
    if c == EngineContainer(d) { EnginePorts(d); }
    else if c == NativeContainer(d) { NativeKeepsToPorts(d); }
    else if c == OPAContainer(d) { OPAKeepsToPorts(d); }
    else if c == AnsibleContainer(d) { AnsibleKeepsToPorts(d); }
    else if c == GitleaksContainer(d) { GitleaksKeepsToPorts(d); }
    else if c == CollectionHealthContainer(d) { CollectionHealthKeepsToPorts(d); }
    else { DepAuditKeepsToPorts(d); }
  }

  lemma GalaxyProxyKeepsToPorts(d: Desired)
    ensures KeepsToItsPorts(GalaxyProxyContainer(d))
  {
    forall e | e in GalaxyProxyContainer(d).env
      ensures !e.value.Address?
    {
    }
  }

  lemma UIKeepsToPorts(d: Desired)
    ensures KeepsToItsPorts(UIContainer(d))
  {
  }

  lemma AbbenayKeepsToPorts(d: Desired)
    ensures KeepsToItsPorts(AbbenayContainer(d))
  {
  }

  lemma GatewayListenVar(d: Desired, e: EnvVar)
    requires e in GatewayContainer(d).env && e.value.Address? && e.value.host == ANY
    ensures e.value.port == 50060
  {
  }

  lemma GatewayKeepsToPorts(d: Desired)
    ensures KeepsToItsPorts(GatewayContainer(d))
  {
    var c := GatewayContainer(d);
    GatewayRank(d);
    forall port | Listens(c, port)
      ensures ContainerRank(c.name) == Owner(port)
    {
      GatewayListensOn(d, port);
    }
  }

  lemma GatewayRank(d: Desired)
    ensures ContainerRank(GatewayContainer(d).name) == Owner(50060) == Owner(8080)
  {
  }

  lemma GatewayListensOn(d: Desired, port: int)
    requires Listens(GatewayContainer(d), port)
    ensures port == 50060 || port == 8080
  {
    if ListensByEnv(GatewayContainer(d).env, port) {
      var e :| e in GatewayContainer(d).env && e.value == Address(ANY, port);
      GatewayListenVar(d, e);
    }
  }

  lemma BackMember(d: Desired, c: Container)
    requires c in BackContainers(d)
    ensures c == GalaxyProxyContainer(d) || c == GatewayContainer(d)
         || (d.components.ui && c == UIContainer(d)) || (d.abbenay.enabled && c == AbbenayContainer(d))
  {
  }

  lemma BackKeepsToPorts(d: Desired, c: Container)
    requires c in BackContainers(d)
    ensures KeepsToItsPorts(c)
  {
    BackMember(d, c);
    if c == GalaxyProxyContainer(d) { GalaxyProxyKeepsToPorts(d); }
    else if c == GatewayContainer(d) { GatewayKeepsToPorts(d); }
    else if c == UIContainer(d) { UIKeepsToPorts(d); }
    else { AbbenayKeepsToPorts(d); }
  }

  /** A plugin sidecar listens on its own port and no other. */
  lemma PluginListens(d: Desired, p: ResolvedPlugin, port: int)
    ensures Listens(PluginContainer(d, p), port) <==> port == p.port
  {
    var c := PluginContainer(d, p);
    assert c.env[0] in c.env;
  }

  lemma PluginKeepsToPorts(d: Desired, p: ResolvedPlugin)
    requires InRange(p.port)
    ensures KeepsToItsPorts(PluginContainer(d, p))
  {
    forall port | Listens(PluginContainer(d, p), port)
      ensures port == p.port
    {
      PluginListens(d, p, port);
    }
  }

  lemma EveryoneKeepsToPorts(d: Desired, c: Container)
    requires Sound(d) && c in Containers(d)
    ensures KeepsToItsPorts(c)
  {
    if c in FrontContainers(d) {
      FrontKeepsToPorts(d, c);
    } else if c in PluginContainers(d, d.plugins) {
      SidecarKeepsToPorts(d, c);
    } else {
      BackKeepsToPorts(d, c);
    }
  }

  lemma SidecarKeepsToPorts(d: Desired, c: Container)
    requires Sound(d) && c in PluginContainers(d, d.plugins)
    ensures KeepsToItsPorts(c)
  {
    var i :| 0 <= i < |d.plugins| && c == PluginContainer(d, d.plugins[i]);
    PluginKeepsToPorts(d, d.plugins[i]);
  }

  lemma RankOfMember(cs: seq<Container>, c: Container, lo: int, hi: int)
    requires c in cs && Spread(cs, NameOf, ContainerRank, lo, hi)
    ensures lo <= ContainerRank(c.name) < hi
  {
    var i :| 0 <= i < |cs| && cs[i] == c;
    assert lo <= ContainerRank(NameOf(cs[i])) < hi;
  }

  lemma PluginByName(d: Desired, c: Container)
    requires c in Containers(d) && c.name.PluginSidecar?
    ensures c in PluginContainers(d, d.plugins)
  {
    if c in FrontContainers(d) {
      FrontSpread(d);
      RankOfMember(FrontContainers(d), c, 0, 7);
    } else if c in BackContainers(d) {
      BackSpread(d);
      RankOfMember(BackContainers(d), c, 8, 12);
    }
  }

  lemma PluginAt(d: Desired, c: Container) returns (k: nat)
    requires c in Containers(d) && c.name.PluginSidecar?
    ensures k < |d.plugins| && c == PluginContainer(d, d.plugins[k])
  {
    PluginByName(d, c);
    k :| k < |d.plugins| && c == PluginContainer(d, d.plugins[k]);
  }

  /** No two containers of the Pod listen on one port. */
  lemma PortsDistinct(d: Desired, i: nat, j: nat, port: int)
    requires Sound(d) && i < j < |PodOf(d).containers|
    ensures !(Listens(PodOf(d).containers[i], port) && Listens(PodOf(d).containers[j], port))
  {
    var cs := PodOf(d).containers;
    NamesDiffer(d, i, j);
    if Listens(cs[i], port) && Listens(cs[j], port) { OneListener(d, cs[i], cs[j], port); }
  }

  lemma NamesDiffer(d: Desired, i: nat, j: nat)
    requires Sound(d) && i < j < |PodOf(d).containers|
    ensures PodOf(d).containers[i].name != PodOf(d).containers[j].name
  {
    var all := PodOf(d).containers + PodOf(d).inits;
    ContainerNamesUnique(d);
    assert all[i] == PodOf(d).containers[i] && all[j] == PodOf(d).containers[j];
  }

  /** Two listeners on one port have one name. */
  lemma OneListener(d: Desired, a: Container, b: Container, port: int)
    requires Sound(d) && a in PodOf(d).containers && b in PodOf(d).containers && Listens(a, port) && Listens(b, port)
    ensures a.name == b.name
  {
    OwnerListens(d, a, port);
    OwnerListens(d, b, port);
    RankTells(a.name, b.name);
    if a.name.PluginSidecar? && b.name.PluginSidecar? { OneSidecar(d, a, b, port); }
  }

  lemma OwnerListens(d: Desired, c: Container, port: int)
    requires Sound(d) && c in PodOf(d).containers && Listens(c, port)
    ensures ContainerRank(c.name) == Owner(port)
  {
    EveryoneKeepsToPorts(d, c);
  }

  lemma OneSidecar(d: Desired, a: Container, b: Container, port: int)
    requires Sound(d) && a in PodOf(d).containers && b in PodOf(d).containers && Listens(a, port) && Listens(b, port)
    requires a.name.PluginSidecar? && b.name.PluginSidecar?
    ensures a.name == b.name
  {
    var k := SidecarPort(d, a, port);
    var l := SidecarPort(d, b, port);
    OnePluginPerPort(d, k, l);
  }

  lemma OnePluginPerPort(d: Desired, k: nat, l: nat)
    requires Sound(d) && k < |d.plugins| && l < |d.plugins| && d.plugins[k].port == d.plugins[l].port
    ensures k == l
  {
  }

  lemma SidecarPort(d: Desired, c: Container, port: int) returns (k: nat)
    requires c in PodOf(d).containers && Listens(c, port) && c.name.PluginSidecar?
    ensures k < |d.plugins| && c.name == PluginSidecar(d.plugins[k].name) && port == d.plugins[k].port
  {
    k := PluginAt(d, c);
    PluginListens(d, d.plugins[k], port);
  }

  lemma RankTells(m: ContainerName, n: ContainerName)
    requires ContainerRank(m) == ContainerRank(n)
    ensures m == n || (m.PluginSidecar? && n.PluginSidecar?)
  {
  }
}
