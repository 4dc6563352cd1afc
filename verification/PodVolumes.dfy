/** Volumes and mounts of the APME Pod match in both directions, and each plugin's port is one port everywhere. */
module PodVolumes {
  import opened Lists
  import opened Options
  import opened PluginPorts
  import opened Resolve
  import opened Pod
  import opened PodLaws
  import opened PodWiring

  // ---- Which volumes a Pod needs ----

  /** The volumes the toggles and the plugin list call for. */
  ghost predicate Needed(d: Desired, v: VolumeName) {
    match v
    case Sessions => true
    case ProxyCache => true
    case GalaxyCA => d.proxy.caConfigMap != ""
    case GalaxyCABundle => d.proxy.caConfigMap != ""
    case PluginConfig(name) => exists p :: p in d.plugins && p.name == name && p.configMap != ""
    case DBCA => d.database.generate
    case DBCABundle => d.database.generate
    case NginxCache => d.components.ui
    case NginxRun => d.components.ui
    case NginxConf => d.components.ui
    case AbbenayConfigSeed => d.abbenay.enabled
    case AbbenayRun => d.abbenay.enabled
    case AbbenayConfig => d.abbenay.enabled
  }

  ghost predicate Declares(vols: seq<Volume>, v: VolumeName) { exists x :: x in vols && x.name == v }

  lemma {:induction false} PluginVolumeMembers(ps: seq<ResolvedPlugin>)
    ensures forall x :: x in PluginVolumes(ps) <==> exists p :: p in ps && p.configMap != "" && x == PluginVolume(p)
  {
    if |ps| > 0 {
      var front, last := ps[..|ps| - 1], ps[|ps| - 1];
      PluginVolumeMembers(front);
      assert ps == front + [last];
    }
  }

  lemma DeclaredIffNeeded(d: Desired, v: VolumeName)
    ensures Declares(Volumes(d), v) <==> Needed(d, v)
  {
    PluginVolumeMembers(d.plugins);
    FrontDeclares(d, v);
    BackDeclares(d, v);
    assert Declares(Volumes(d), v) <==>
           Declares(FrontVolumes(d), v) || Declares(PluginVolumes(d.plugins), v) || Declares(BackVolumes(d), v);
    if v.PluginConfig? && Needed(d, v) {
      var p :| p in d.plugins && p.name == v.plugin && p.configMap != "";
      assert PluginVolume(p) in PluginVolumes(d.plugins);
    }
  }

  lemma FrontDeclares(d: Desired, v: VolumeName)
    ensures Declares(FrontVolumes(d), v) <==> Needed(d, v) && VolumeRank(v) < 4
  {
    var f := FrontVolumes(d);
    assert f[0].name == Sessions && f[1].name == ProxyCache && f[0] in f && f[1] in f;
    if d.proxy.caConfigMap != "" {
      assert f[2].name == GalaxyCA && f[3].name == GalaxyCABundle && f[2] in f && f[3] in f;
    }
  }

  function UIVolumes(d: Desired): seq<Volume> {
    When(d.components.ui, [Volume(NginxCache, EmptyDir), Volume(NginxRun, EmptyDir), Volume(NginxConf, EmptyDir)])
  }

  lemma BackDeclares(d: Desired, v: VolumeName)
    ensures Declares(BackVolumes(d), v) <==> Needed(d, v) && VolumeRank(v) > 4
  {
    BackVolumeParts(d);
    DeclaresParts(DatabaseVolumes(d), UIVolumes(d), AbbenayVolumes(d), v);
    DatabaseDeclares(d, v);
    UIDeclares(d, v);
    AbbenayDeclares(d, v);
  }

  lemma BackVolumeParts(d: Desired)
    ensures BackVolumes(d) == DatabaseVolumes(d) + UIVolumes(d) + AbbenayVolumes(d)
  {
  }

  lemma DeclaresParts(g: seq<Volume>, u: seq<Volume>, a: seq<Volume>, v: VolumeName)
    ensures Declares(g + u + a, v) <==> Declares(g, v) || Declares(u, v) || Declares(a, v)
  {
    if Declares(g, v) {
      var x :| x in g && x.name == v;
      assert x in g + u + a;
    } else if Declares(u, v) {
      var x :| x in u && x.name == v;
      assert x in g + u + a;
    } else if Declares(a, v) {
      var x :| x in a && x.name == v;
      assert x in g + u + a;
    }
  }

  lemma DatabaseDeclares(d: Desired, v: VolumeName)
    ensures Declares(DatabaseVolumes(d), v) <==> d.database.generate && (v == DBCA || v == DBCABundle)
  {
    var g := DatabaseVolumes(d);
    if d.database.generate { assert g[0] in g && g[1] in g; }
  }

  lemma UIDeclares(d: Desired, v: VolumeName)
    ensures Declares(UIVolumes(d), v) <==> d.components.ui && (v == NginxCache || v == NginxRun || v == NginxConf)
  {
    var u := UIVolumes(d);
    if d.components.ui { assert u[0] in u && u[1] in u && u[2] in u; }
  }

  function AbbenayVolumes(d: Desired): seq<Volume> {
    When(d.abbenay.enabled,
         [Volume(AbbenayConfigSeed, FromConfigMap(AbbenaySeed(d))), Volume(AbbenayRun, EmptyDir),
          Volume(AbbenayConfig, if d.abbenay.persist then Claim(d.name + "-abbenay-config") else EmptyDir)])
  }

  lemma AbbenayDeclares(d: Desired, v: VolumeName)
    ensures Declares(AbbenayVolumes(d), v) <==>
            d.abbenay.enabled && (v == AbbenayConfigSeed || v == AbbenayRun || v == AbbenayConfig)
  {
    var u := AbbenayVolumes(d);
    if d.abbenay.enabled { assert u[0] in u && u[1] in u && u[2] in u; }
  }

  // ---- No volume is declared twice ----

  function VolumeRank(v: VolumeName): int {
    match v
    case Sessions => 0 case ProxyCache => 1 case GalaxyCA => 2 case GalaxyCABundle => 3
    case PluginConfig(_) => 4
    case DBCA => 5 case DBCABundle => 6 case NginxCache => 7 case NginxRun => 8 case NginxConf => 9
    case AbbenayConfigSeed => 10 case AbbenayRun => 11 case AbbenayConfig => 12
  }

  function VolumeKey(v: Volume): VolumeName { v.name }

  lemma {:induction false} PluginVolumesSpread(ps: seq<ResolvedPlugin>)
    requires forall i, j :: 0 <= i < j < |ps| ==> ps[i].name != ps[j].name
    ensures Spread(PluginVolumes(ps), VolumeKey, VolumeRank, 4, 5)
  {
    PluginVolumeMembers(ps);
    if |ps| > 0 {
      var front, last := ps[..|ps| - 1], ps[|ps| - 1];
      PluginVolumesSpread(front);
      PluginVolumeMembers(front);
      var vs := PluginVolumes(front);
      forall i | 0 <= i < |vs|
        ensures vs[i].name != PluginConfig(last.name)
      {
        assert vs[i] in vs;
      }
    }
  }

  function DatabaseVolumes(d: Desired): seq<Volume> {
    When(d.database.generate,
         [Volume(DBCA, SecretFile(d.database.tlsSecretName, "ca.crt", "ca.crt")), Volume(DBCABundle, EmptyDir)])
  }

  lemma DatabaseVolumesSpread(d: Desired)
    ensures Spread(DatabaseVolumes(d), VolumeKey, VolumeRank, 5, 7)
  {
  }

  lemma UIVolumesSpread(d: Desired)
    ensures Spread(UIVolumes(d), VolumeKey, VolumeRank, 7, 10)
  {
  }

  lemma AbbenayVolumesSpread(d: Desired)
    ensures Spread(AbbenayVolumes(d), VolumeKey, VolumeRank, 10, 13)
  {
  }

  lemma BackVolumesSpread(d: Desired)
    ensures Spread(BackVolumes(d), VolumeKey, VolumeRank, 5, 13)
  {
    var g, u, a := DatabaseVolumes(d), UIVolumes(d), AbbenayVolumes(d);
    DatabaseVolumesSpread(d);
    UIVolumesSpread(d);
    AbbenayVolumesSpread(d);
    SpreadConcat(g, u, VolumeKey, VolumeRank, 5, 7, 10);
    SpreadConcat(g + u, a, VolumeKey, VolumeRank, 5, 10, 13);
    assert BackVolumes(d) == g + u + a;
  }

  lemma FrontVolumesSpread(d: Desired)
    ensures Spread(FrontVolumes(d), VolumeKey, VolumeRank, 0, 4)
  {
  }

  lemma AllVolumesSpread(d: Desired)
    requires Sound(d)
    ensures Spread(PodOf(d).volumes, VolumeKey, VolumeRank, 0, 13)
  {
    FrontVolumesSpread(d);
    PluginVolumesSpread(d.plugins);
    BackVolumesSpread(d);
    SpreadConcat(FrontVolumes(d), PluginVolumes(d.plugins), VolumeKey, VolumeRank, 0, 4, 5);
    SpreadConcat(FrontVolumes(d) + PluginVolumes(d.plugins), BackVolumes(d), VolumeKey, VolumeRank, 0, 5, 13);
  }

  lemma SpreadTextsDiffer(vols: seq<Volume>, i: nat, j: nat)
    requires Spread(vols, VolumeKey, VolumeRank, 0, 13) && i < j < |vols|
    ensures vols[i].name.Text() != vols[j].name.Text()
  {
    assert VolumeKey(vols[i]) != VolumeKey(vols[j]);
    if vols[i].name.Text() == vols[j].name.Text() { VolumeTextInjective(vols[i].name, vols[j].name); }
  }

  /** No two volumes of the Pod share a name. */
  lemma VolumeNamesUnique(d: Desired)
    requires Sound(d)
    ensures var vols := PodOf(d).volumes;
            forall i, j :: 0 <= i < j < |vols| ==> vols[i].name.Text() != vols[j].name.Text()
  {
    var vols := PodOf(d).volumes;
    AllVolumesSpread(d);
    forall i, j | 0 <= i < j < |vols|
      ensures vols[i].name.Text() != vols[j].name.Text()
    {
      SpreadTextsDiffer(vols, i, j);
    }
  }

  // ---- Mounts ----

  ghost predicate Mounts(c: Container, v: VolumeName) { exists m :: m in c.mounts && m.volume == v }

  /** A container of a plugin mounts that plugin's volume; the others mount these. */
  ghost predicate MountsOnlyNeeded(d: Desired, c: Container) {
    forall v :: Mounts(c, v) ==> Needed(d, v)
  }

  lemma FrontMounts(d: Desired, c: Container)
    requires c in FrontContainers(d)
    ensures MountsOnlyNeeded(d, c)
  {
    FrontMember(d, c);
    forall m | m in c.mounts
      ensures Needed(d, m.volume)
    {
      if c == EngineContainer(d) { EngineMounts(d, m); }
    }
  }

  lemma EngineMounts(d: Desired, m: Mount)
    requires m in EngineContainer(d).mounts
    ensures Needed(d, m.volume)
  {
  }

  lemma BackMounts(d: Desired, c: Container)
    requires c in BackContainers(d)
    ensures MountsOnlyNeeded(d, c)
  {
    BackMember(d, c);
    if c == GalaxyProxyContainer(d) { GalaxyProxyMounts(d); }
    else if c == GatewayContainer(d) { GatewayMounts(d); }
  }

  lemma GalaxyProxyMounts(d: Desired)
    ensures MountsOnlyNeeded(d, GalaxyProxyContainer(d))
  {
  }

  lemma GatewayMounts(d: Desired)
    ensures MountsOnlyNeeded(d, GatewayContainer(d))
  {
  }

  lemma InitMember(d: Desired, c: Container)
    requires c in Inits(d)
    ensures (c == INIT_GALAXY_CA && d.proxy.caConfigMap != "") || (c == INIT_DB_CA && d.database.generate)
         || (c == INIT_NGINX && d.components.ui) || (c == INIT_ABBENAY && d.abbenay.enabled)
  {
  }

  lemma InitMounts(d: Desired, c: Container)
    requires c in Inits(d)
    ensures MountsOnlyNeeded(d, c)
  {
    InitMember(d, c);
  }

  lemma PluginMounts(d: Desired, c: Container)
    requires c in PluginContainers(d, d.plugins)
    ensures MountsOnlyNeeded(d, c)
  {
    var i :| 0 <= i < |d.plugins| && c == PluginContainer(d, d.plugins[i]);
    assert d.plugins[i] in d.plugins;
  }

  lemma MountsNeeded(d: Desired, c: Container)
    requires c in PodOf(d).containers + PodOf(d).inits
    ensures MountsOnlyNeeded(d, c)
  {
    if c in FrontContainers(d) { FrontMounts(d, c); }
    else if c in BackContainers(d) { BackMounts(d, c); }
    else if c in Inits(d) { InitMounts(d, c); }
    else { PluginMounts(d, c); }
  }

  lemma InPod(d: Desired, c: Container)
    ensures c in FrontContainers(d) || c in BackContainers(d) || c in Inits(d) || c in PluginContainers(d, d.plugins) ==>
              c in PodOf(d).containers + PodOf(d).inits
  {
  }

  /** A needed volume that an init container mounts. */
  lemma InitIsMounted(d: Desired, v: VolumeName) returns (c: Container)
    requires Needed(d, v)
    requires v.GalaxyCA? || v.GalaxyCABundle? || v.DBCA? || v.DBCABundle? || v.AbbenayConfigSeed? || v.AbbenayConfig?
    ensures c in Inits(d) && Mounts(c, v)
  {
    c := if v.GalaxyCA? || v.GalaxyCABundle? then INIT_GALAXY_CA
         else if v.DBCA? || v.DBCABundle? then INIT_DB_CA else INIT_ABBENAY;
    assert c.mounts[0] in c.mounts && c.mounts[1] in c.mounts;
  }

  lemma UIIsMounted(d: Desired, v: VolumeName) returns (c: Container)
    requires d.components.ui && (v.NginxCache? || v.NginxRun? || v.NginxConf?)
    ensures c in BackContainers(d) && Mounts(c, v)
  {
    c := UIContainer(d);
    assert c == BackContainers(d)[2];
    assert c.mounts[0] in c.mounts && c.mounts[1] in c.mounts && c.mounts[2] in c.mounts;
  }

  lemma EngineIsMounted(d: Desired, v: VolumeName) returns (c: Container)
    requires v.Sessions? || (v.AbbenayRun? && d.abbenay.enabled)
    ensures c in FrontContainers(d) && Mounts(c, v)
  {
    c := EngineContainer(d);
    assert c == FrontContainers(d)[0];
    assert c.mounts[if v.Sessions? then 0 else 1] in c.mounts;
  }

  lemma SidecarIsMounted(d: Desired, v: VolumeName) returns (c: Container)
    requires v.PluginConfig? && Needed(d, v)
    ensures c in PluginContainers(d, d.plugins) && Mounts(c, v)
  {
    var i :| 0 <= i < |d.plugins| && d.plugins[i].name == v.plugin && d.plugins[i].configMap != "";
    c := PluginContainer(d, d.plugins[i]);
    assert c == PluginContainers(d, d.plugins)[i];
    assert c.mounts[0] in c.mounts;
  }

  /** A container that mounts each needed volume. */
  lemma NeededIsMounted(d: Desired, v: VolumeName) returns (c: Container)
    requires Needed(d, v)
    ensures c in PodOf(d).containers + PodOf(d).inits && Mounts(c, v)
  {
    if v.Sessions? || v.AbbenayRun? {
      c := EngineIsMounted(d, v);
    } else if v.ProxyCache? {
      c := GalaxyProxyContainer(d);
      assert c == BackContainers(d)[0] && c.mounts[0] in c.mounts;
    } else if v.PluginConfig? {
      c := SidecarIsMounted(d, v);
    } else if v.NginxCache? || v.NginxRun? || v.NginxConf? {
      c := UIIsMounted(d, v);
    } else {
      c := InitIsMounted(d, v);
    }
    InPod(d, c);
  }

  /** Exactly one volume is named `v`. */
  ghost predicate DeclaredOnce(vols: seq<Volume>, v: VolumeName) {
    exists i :: 0 <= i < |vols| && vols[i].name == v && OnlyAt(vols, v, i)
  }

  ghost predicate OnlyAt(vols: seq<Volume>, v: VolumeName, i: int) {
    forall j :: 0 <= j < |vols| && vols[j].name.Text() == v.Text() ==> j == i
  }

  lemma DeclaredMeansOnce(vols: seq<Volume>, v: VolumeName)
    requires forall i, j :: 0 <= i < j < |vols| ==> vols[i].name.Text() != vols[j].name.Text()
    requires Declares(vols, v)
    ensures DeclaredOnce(vols, v)
  {
    var i :| 0 <= i < |vols| && vols[i].name == v;
    forall j | 0 <= j < |vols| && vols[j].name.Text() == v.Text()
      ensures j == i
    {
      assert vols[j].name.Text() == vols[i].name.Text();
    }
    assert OnlyAt(vols, v, i);
  }

  /** Every mount of every container and init container names exactly one declared volume. */
  lemma EveryMountDeclaredOnce(d: Desired, c: Container, m: Mount)
    requires Sound(d) && c in PodOf(d).containers + PodOf(d).inits && m in c.mounts
    ensures DeclaredOnce(PodOf(d).volumes, m.volume)
  {
    MountsNeeded(d, c);
    assert Mounts(c, m.volume);
    DeclaredIffNeeded(d, m.volume);
    VolumeNamesUnique(d);
    DeclaredMeansOnce(PodOf(d).volumes, m.volume);
  }

  /** Every declared volume is mounted by some container or init container. */
  lemma EveryVolumeMounted(d: Desired, x: Volume)
    requires x in PodOf(d).volumes
    ensures exists c :: c in PodOf(d).containers + PodOf(d).inits && Mounts(c, x.name)
  {
    assert Declares(PodOf(d).volumes, x.name);
    DeclaredIffNeeded(d, x.name);
    var c := NeededIsMounted(d, x.name);
  }

  // ---- One port per plugin ----

  /** The Engine is told each plugin's address exactly once, under the plugin's uppercased name. */
  lemma EngineToldOnce(d: Desired, i: nat) returns (k: nat)
    requires Sound(d) && i < |d.plugins|
    ensures var p, env := d.plugins[i], EngineContainer(d).env;
            && k < |env| && env[k] == EnvVar(PluginAddress(p.name), Address(LOOPBACK, p.port))
            && (forall l :: 0 <= l < |env| && env[l].name.Text() == PluginAddress(p.name).Text() ==> l == k)
  {
    var p, env := d.plugins[i], EngineContainer(d).env;
    EngineEnvUnique(d);
    k := |EngineEnvFront(d)| + i;
    assert env[k] == PluginAddressVar(p);
    forall l | 0 <= l < |env| && env[l].name.Text() == PluginAddress(p.name).Text()
      ensures l == k
    {
      assert env[l].name.Text() == env[k].name.Text();
    }
  }

  /** Each plugin has its sidecar. */
  lemma SidecarExists(d: Desired, i: nat) returns (c: Container)
    requires i < |d.plugins|
    ensures c in PodOf(d).containers && c.name == PluginSidecar(d.plugins[i].name)
  {
    c := PluginContainer(d, d.plugins[i]);
    assert c == PluginContainers(d, d.plugins)[i];
  }

  ghost predicate ListensOnlyOn(c: Container, port: int) {
    forall q :: Listens(c, q) <==> q == port
  }

  /** The container named after a plugin listens only on the port in the address the Engine is told, and is probed
      there. */
  lemma SidecarUsesThatPort(d: Desired, c: Container, i: nat)
    requires Sound(d) && i < |d.plugins| && c in Containers(d)
    requires c.name.Text() == "plugin-" + d.plugins[i].name
    ensures c.probe == Some(TcpSocket(d.plugins[i].port))
    ensures ListensOnlyOn(c, d.plugins[i].port)
  {
    NamedForPlugin(c.name, d.plugins[i].name);
    SidecarOf(d, c, i);
    PluginListensOnly(d, d.plugins[i]);
  }

  lemma NamedForPlugin(n: ContainerName, plugin: string)
    requires n.Text() == "plugin-" + plugin
    ensures n == PluginSidecar(plugin)
  {
    ContainerTextInjective(n, PluginSidecar(plugin));
  }

  lemma SidecarOf(d: Desired, c: Container, i: nat)
    requires Sound(d) && i < |d.plugins| && c in Containers(d) && c.name == PluginSidecar(d.plugins[i].name)
    ensures c == PluginContainer(d, d.plugins[i])
  {
    var k := PluginAt(d, c);
    OnePlugin(d, k, i);
  }

  lemma OnePlugin(d: Desired, k: nat, i: nat)
    requires Sound(d) && k < |d.plugins| && i < |d.plugins|
    requires PluginContainer(d, d.plugins[k]).name == PluginSidecar(d.plugins[i].name)
    ensures k == i
  {
    assert d.plugins[k].name == d.plugins[i].name;
  }

  lemma PluginListensOnly(d: Desired, p: ResolvedPlugin)
    ensures ListensOnlyOn(PluginContainer(d, p), p.port) && PluginContainer(d, p).probe == Some(TcpSocket(p.port))
  {
    forall port
      ensures Listens(PluginContainer(d, p), port) <==> port == p.port
    {
      PluginListens(d, p, port);
    }
  }
}
