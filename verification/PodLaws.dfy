/** Uniqueness and agreement across the whole APME Pod, for every admitted spec. */
module PodLaws {
  import opened Lists
  import opened Text
  import opened PluginPorts
  import opened PluginPortLaws
  import opened Resolve
  import opened Pod

  /** What admission of the spec gives the resolved plugins and the proxy environment. */
  ghost predicate Sound(d: Desired) {
    && (forall i :: 0 <= i < |d.plugins| ==> PluginName(d.plugins[i].name) && InRange(d.plugins[i].port))
    && (forall i, j :: 0 <= i < j < |d.plugins| ==>
          d.plugins[i].name != d.plugins[j].name && d.plugins[i].port != d.plugins[j].port)
    && NoDup(d.proxyEnv)
  }

  lemma AdmittedIsSound(name: string, namespace: string, s: ApmeSpec, proxyEnv: seq<ProxyVariable>)
    requires Admitted(s.plugins) && NoDup(proxyEnv)
    ensures Sound(Intent(name, namespace, s, proxyEnv))
  {
    var out := ResolvedPlugins(s.plugins);
    ResolvedPluginsResolve(s.plugins);
    NeverExhausted(s.plugins, out);
    forall i | 0 <= i < |out|
      ensures PluginName(out[i].name)
    {
      assert out[i] in out;
    }
    forall i, j | 0 <= i < j < |out|
      ensures out[i].name != out[j].name
    {
      LessTotal(out[i].name, out[j].name);
    }
  }

  // ---- Names are spelled apart ----

  lemma ContainerTextStart(n: ContainerName)
    ensures |n.Text()| > 0 && (n.Text()[0] == 'p' <==> n.PluginSidecar?)
  {
  }

  lemma ContainerTextInjective(m: ContainerName, n: ContainerName)
    requires m.Text() == n.Text()
    ensures m == n
  {
    var s := m.Text();
    ContainerTextStart(m);
    ContainerTextStart(n);
    if m.PluginSidecar? {
      assert s[7..] == m.plugin && s[7..] == n.plugin;
    } else {
      FixedContainerText(m, n);
    }
  }

  lemma FixedContainerText(m: ContainerName, n: ContainerName)
    requires !m.PluginSidecar? && !n.PluginSidecar? && m.Text() == n.Text()
    ensures m == n
  {
  }

  lemma VolumeTextStart(n: VolumeName)
    ensures |n.Text()| > 1 && (n.Text()[..2] == "pl" <==> n.PluginConfig?)
  {
    assert n.Text()[..2] == [n.Text()[0], n.Text()[1]];
  }

  lemma VolumeTextInjective(m: VolumeName, n: VolumeName)
    requires m.Text() == n.Text()
    ensures m == n
  {
    var s := m.Text();
    VolumeTextStart(m);
    VolumeTextStart(n);
    if m.PluginConfig? {
      assert s[7..|s| - 7] == m.plugin && s[7..|s| - 7] == n.plugin;
    } else {
      FixedVolumeText(m, n);
    }
  }

  lemma FixedVolumeText(m: VolumeName, n: VolumeName)
    requires !m.PluginConfig? && !n.PluginConfig? && m.Text() == n.Text()
    ensures m == n
  {
  }

  /** Uppercasing is injective on plugin names. */
  lemma {:induction false} UpperInjective(a: string, b: string)
    requires PluginName(a) && PluginName(b) && ToUpper(a) == ToUpper(b)
    ensures a == b
  {
    assert |a| == |ToUpper(a)| == |ToUpper(b)| == |b|;
    forall i | 0 <= i < |a|
      ensures a[i] == b[i]
    {
      assert a[i] in a && b[i] in b;
      assert ToUpper(a)[i] == ToUpper(b)[i];
    }
  }

  lemma EnvTextStart(n: EnvName)
    requires !n.Other?
    ensures |n.Text()| > 6 && (n.Text()[..7] == "APME_PL" <==> n.PluginAddress?)
  {
    assert n.Text()[..7] == [n.Text()[0], n.Text()[1], n.Text()[2], n.Text()[3], n.Text()[4], n.Text()[5], n.Text()[6]];
  }

  lemma EnvTextInjective(m: EnvName, n: EnvName)
    requires !m.Other? && !n.Other? && m.Text() == n.Text()
    requires m.PluginAddress? ==> PluginName(m.plugin)
    requires n.PluginAddress? ==> PluginName(n.plugin)
    ensures m == n
  {
    var s := m.Text();
    EnvTextStart(m);
    EnvTextStart(n);
    if m.PluginAddress? {
      assert s[12..|s| - 8] == ToUpper(m.plugin) && s[12..|s| - 8] == ToUpper(n.plugin);
      UpperInjective(m.plugin, n.plugin);
    } else {
      FixedEnvText(m, n);
    }
  }

  lemma FixedEnvText(m: EnvName, n: EnvName)
    requires !m.Other? && !n.Other? && !m.PluginAddress? && !n.PluginAddress? && m.Text() == n.Text()
    ensures m == n
  {
  }

  // ---- Unique names ----

  /** The keys of `s` are distinct, and their ranks lie in lo..hi-1. */
  ghost predicate Spread<T, K>(s: seq<T>, key: T -> K, rank: K -> int, lo: int, hi: int) {
    && (forall i :: 0 <= i < |s| ==> lo <= rank(key(s[i])) < hi)
    && (forall i, j :: 0 <= i < j < |s| ==> key(s[i]) != key(s[j]))
  }

  lemma SpreadConcat<T, K>(a: seq<T>, b: seq<T>, key: T -> K, rank: K -> int, lo: int, mid: int, hi: int)
    requires Spread(a, key, rank, lo, mid) && Spread(b, key, rank, mid, hi) && lo <= mid <= hi
    ensures Spread(a + b, key, rank, lo, hi)
  {
  }

  function ContainerRank(n: ContainerName): int {
    match n
    case Engine => 0 case Native => 1 case OPA => 2 case Ansible => 3
    case Gitleaks => 4 case CollectionHealth => 5 case DepAudit => 6
    case PluginSidecar(_) => 7
    case GalaxyProxy => 8 case Gateway => 9 case UI => 10 case Abbenay => 11
    case InitGalaxyCA => 12 case InitDBCA => 13 case InitNginxConf => 14 case InitAbbenayConfig => 15
  }

  function NameOf(c: Container): ContainerName { c.name }

  lemma FirstFourSpread(d: Desired)
    ensures Spread([EngineContainer(d), NativeContainer(d), OPAContainer(d), AnsibleContainer(d)], NameOf, ContainerRank, 0, 4)
  {
  }

  lemma FrontSpread(d: Desired)
    ensures Spread(FrontContainers(d), NameOf, ContainerRank, 0, 7)
  {
    FirstFourSpread(d);
    var e, g := [EngineContainer(d), NativeContainer(d), OPAContainer(d), AnsibleContainer(d)],
                When(d.components.gitleaks, [GitleaksContainer(d)]);
    var h, a := When(d.components.collectionHealth, [CollectionHealthContainer(d)]),
                When(d.components.depAudit, [DepAuditContainer(d)]);
    SpreadConcat(e, g, NameOf, ContainerRank, 0, 4, 5);
    SpreadConcat(e + g, h, NameOf, ContainerRank, 0, 5, 6);
    SpreadConcat(e + g + h, a, NameOf, ContainerRank, 0, 6, 7);
  }

  lemma ProxyAndGatewaySpread(d: Desired)
    ensures Spread([GalaxyProxyContainer(d), GatewayContainer(d)], NameOf, ContainerRank, 8, 10)
  {
  }

  lemma BackSpread(d: Desired)
    ensures Spread(BackContainers(d), NameOf, ContainerRank, 8, 12)
  {
    ProxyAndGatewaySpread(d);
    var g, u, a := [GalaxyProxyContainer(d), GatewayContainer(d)], When(d.components.ui, [UIContainer(d)]),
                   When(d.abbenay.enabled, [AbbenayContainer(d)]);
    SpreadConcat(g, u, NameOf, ContainerRank, 8, 10, 11);
    SpreadConcat(g + u, a, NameOf, ContainerRank, 8, 11, 12);
  }

  lemma InitSpread(d: Desired)
    ensures Spread(Inits(d), NameOf, ContainerRank, 12, 16)
  {
    InitFrontSpread(d);
    InitBackSpread(d);
    var front, back := InitFront(d), InitBack(d);
    SpreadConcat(front, back, NameOf, ContainerRank, 12, 14, 16);
    assert Inits(d) == front + back;
  }

  function InitFront(d: Desired): seq<Container> {
    When(d.proxy.caConfigMap != "", [INIT_GALAXY_CA]) + When(d.database.generate, [INIT_DB_CA])
  }

  function InitBack(d: Desired): seq<Container> {
    When(d.components.ui, [INIT_NGINX]) + When(d.abbenay.enabled, [INIT_ABBENAY])
  }

  lemma InitFrontSpread(d: Desired)
    ensures Spread(InitFront(d), NameOf, ContainerRank, 12, 14)
  {
  }

  lemma InitBackSpread(d: Desired)
    ensures Spread(InitBack(d), NameOf, ContainerRank, 14, 16)
  {
  }

  /** No two containers or init containers of the Pod share a name. */
  lemma ContainerNamesUnique(d: Desired)
    requires Sound(d)
    ensures var all := PodOf(d).containers + PodOf(d).inits;
            forall i, j :: 0 <= i < j < |all| ==> all[i].name.Text() != all[j].name.Text()
  {
    var plugins := PluginContainers(d, d.plugins);
    assert Spread(plugins, NameOf, ContainerRank, 7, 8) by {
      forall i, j | 0 <= i < j < |plugins|
        ensures NameOf(plugins[i]) != NameOf(plugins[j])
      {
        assert d.plugins[i].name != d.plugins[j].name;
      }
    }
    FrontSpread(d);
    BackSpread(d);
    InitSpread(d);
    SpreadConcat(FrontContainers(d), plugins, NameOf, ContainerRank, 0, 7, 8);
    SpreadConcat(FrontContainers(d) + plugins, BackContainers(d), NameOf, ContainerRank, 0, 8, 12);
    SpreadConcat(Containers(d), Inits(d), NameOf, ContainerRank, 0, 12, 16);
    var all := PodOf(d).containers + PodOf(d).inits;
    forall i, j | 0 <= i < j < |all|
      ensures all[i].name.Text() != all[j].name.Text()
    {
      assert NameOf(all[i]) != NameOf(all[j]);
      if all[i].name.Text() == all[j].name.Text() { ContainerTextInjective(all[i].name, all[j].name); }
    }
  }

  // ---- Engine environment ----

  function EnvRank(n: EnvName): int {
    match n
    case UV_CACHE_DIR => 0 case APME_ENGINE_LISTEN => 1 case APME_ENGINE_MAX_RPCS => 2 case NATIVE_GRPC_ADDRESS => 3
    case OPA_GRPC_ADDRESS => 4 case ANSIBLE_GRPC_ADDRESS => 5 case APME_GALAXY_PROXY_URL => 6
    case APME_REPORTING_ENDPOINT => 7 case APME_PROXY_ADMIN_TOKEN => 8 case GITLEAKS_GRPC_ADDRESS => 9
    case COLLECTION_HEALTH_GRPC_ADDRESS => 10 case DEP_AUDIT_GRPC_ADDRESS => 11
    case PluginAddress(_) => 12
    case APME_ABBENAY_ADDR => 13 case APME_ABBENAY_TOKEN => 14
    case Proxy(_) => 15
    case Other(_) => 16
  }

  function VarName(e: EnvVar): EnvName { e.name }

  lemma EngineFrontSpread(d: Desired)
    ensures Spread(EngineEnvFront(d), VarName, EnvRank, 0, 12)
  {
    var f := EngineEnvFixed(d);
    var g := When(d.components.gitleaks, [EnvVar(GITLEAKS_GRPC_ADDRESS, Address(LOOPBACK, 50056))]);
    var h := When(d.components.collectionHealth, [EnvVar(COLLECTION_HEALTH_GRPC_ADDRESS, Address(LOOPBACK, 50058))]);
    var a := When(d.components.depAudit, [EnvVar(DEP_AUDIT_GRPC_ADDRESS, Address(LOOPBACK, 50059))]);
    EngineFixedSpread(d);
    SpreadConcat(f, g, VarName, EnvRank, 0, 9, 10);
    SpreadConcat(f + g, h, VarName, EnvRank, 0, 10, 11);
    SpreadConcat(f + g + h, a, VarName, EnvRank, 0, 11, 12);
  }

  lemma EngineFixedSpread(d: Desired)
    ensures Spread(EngineEnvFixed(d), VarName, EnvRank, 0, 9)
  {
    var f := EngineEnvFixed(d);
    assert forall i :: 0 <= i < |f| ==> EnvRank(VarName(f[i])) == i;
  }

  lemma EngineBackSpread(d: Desired)
    requires Sound(d)
    ensures Spread(EngineEnvBack(d), VarName, EnvRank, 13, 16)
  {
    var a := When(d.abbenay.enabled, [EnvVar(APME_ABBENAY_ADDR, Text("unix:///tmp/abbenay-run/abbenay/daemon.sock")),
                                      AbbenayToken(d, APME_ABBENAY_TOKEN)]);
    forall i, j | 0 <= i < j < |ProxyEnv(d)|
      ensures VarName(ProxyEnv(d)[i]) != VarName(ProxyEnv(d)[j])
    {
      assert d.proxyEnv[i] != d.proxyEnv[j];
    }
    SpreadConcat(a, ProxyEnv(d), VarName, EnvRank, 13, 15, 16);
  }

  /** No two variables of the Engine's environment share a name. */
  lemma EngineEnvUnique(d: Desired)
    requires Sound(d)
    ensures var env := EngineContainer(d).env;
            forall i, j :: 0 <= i < j < |env| ==> env[i].name.Text() != env[j].name.Text()
  {
    var ps := PluginAddresses(d.plugins);
    assert Spread(ps, VarName, EnvRank, 12, 13) by {
      forall i, j | 0 <= i < j < |ps|
        ensures VarName(ps[i]) != VarName(ps[j])
      {
        assert d.plugins[i].name != d.plugins[j].name;
      }
    }
    EngineFrontSpread(d);
    EngineBackSpread(d);
    SpreadConcat(EngineEnvFront(d), ps, VarName, EnvRank, 0, 12, 13);
    SpreadConcat(EngineEnvFront(d) + ps, EngineEnvBack(d), VarName, EnvRank, 0, 13, 16);
    PluginVarNames(EngineEnvFront(d), ps, EngineEnvBack(d));
    SpelledApart(EngineContainer(d).env);
  }

  /** Plugin variables occur in the middle part only. */
  lemma PluginVarNames(front: seq<EnvVar>, ps: seq<EnvVar>, back: seq<EnvVar>)
    requires Spread(front, VarName, EnvRank, 0, 12) && Spread(back, VarName, EnvRank, 13, 16)
    requires forall i :: 0 <= i < |ps| ==> ps[i].name.PluginAddress? && PluginName(ps[i].name.plugin)
    ensures var env := front + ps + back;
            forall i :: 0 <= i < |env| && env[i].name.PluginAddress? ==> PluginName(env[i].name.plugin)
  {
    var env := front + ps + back;
    forall i | 0 <= i < |env| && env[i].name.PluginAddress?
      ensures PluginName(env[i].name.plugin)
    {
      assert EnvRank(VarName(env[i])) == 12;
    }
  }

  lemma SpelledApart(env: seq<EnvVar>)
    requires Spread(env, VarName, EnvRank, 0, 16)
    requires forall i :: 0 <= i < |env| && env[i].name.PluginAddress? ==> PluginName(env[i].name.plugin)
    ensures forall i, j :: 0 <= i < j < |env| ==> env[i].name.Text() != env[j].name.Text()
  {
    forall i, j | 0 <= i < j < |env|
      ensures env[i].name.Text() != env[j].name.Text()
    {
      assert VarName(env[i]) != VarName(env[j]) && EnvRank(VarName(env[i])) < 16 && EnvRank(VarName(env[j])) < 16;
      if env[i].name.Text() == env[j].name.Text() { EnvTextInjective(env[i].name, env[j].name); }
    }
  }
}
