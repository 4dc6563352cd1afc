/** From the outside to the container: which container each Service, Route and Ingress leads to, and whose URL is reported. */
module ServiceWiring {
  import opened Lists
  import opened ObjectNames
  import opened Resolve
  import opened Cluster
  import opened Manifests
  import opened Pod
  import opened PodLaws
  import opened Plan
  import opened PlanLaws
  import opened Machine
  import opened Addresses
  import opened RouteKeeping
  import DatabaseUrl
  import PodWiring

  // ---- Services ----

  /** The ports of a Service that selects the APME Pod. */
  function PortsOf(p: Payload): seq<int> {
    if Template in p && p[Template].Of? && p[Template].manifest.Serves? && p[Template].manifest.component == "engine"
    then p[Template].manifest.ports else []
  }

  /** There are ports, and all of them are `ok`. */
  predicate AllPorts(ports: seq<int>, ok: int -> bool) { ports != [] && forall port :: port in ports ==> ok(port) }

  /** The Service that item `t` applies has ports, and on each of them answers one of the containers `ns`, and no other. */
  ghost predicate LeadsTo(d: Desired, t: Item, ns: set<ContainerName>)
    requires Applies(t)
  {
    AllPorts(PortsOf(AppliedPayload(d, t)), port => AnsweredWithin(d, ns, port))
  }

  /** A container named in `ns` has its probes ask that port, and no container of another name listens there. */
  ghost predicate AnsweredWithin(d: Desired, ns: set<ContainerName>, port: int) {
    && (exists c :: c in PodOf(d).containers && c.name in ns && ProbedAt(c, port))
    && forall c :: c in PodOf(d).containers && PodWiring.Listens(c, port) ==> c.name in ns
  }

  /** The container's probes ask that port. */
  predicate ProbedAt(c: Container, port: int) {
    match c.probe
    case Some(TcpSocket(p)) => p == port
    case Some(HttpGet(name)) => ContainerPort(name, port) in c.ports
    case _ => false
  }

  lemma WithinOne(d: Desired, c: Container, n: ContainerName, ns: set<ContainerName>, port: int)
    requires Sound(d) && n in ns && c.name == n && c in PodOf(d).containers && ProbedAt(c, port)
    ensures AnsweredWithin(d, ns, port)
  {
    assert PodWiring.Listens(c, port);
    OnlyAnswer(d, n, port);
  }

  lemma ServicePorts(d: Desired)
    ensures PortsOf(AppliedPayload(d, ApplyGatewayService)) == [8080]
    ensures PortsOf(AppliedPayload(d, ApplyUIService)) == [8081]
    ensures PortsOf(AppliedPayload(d, ApplyEngineService)) == EnginePorts(d)
  {
  }

  lemma OnePort(port: int, ok: int -> bool)
    requires ok(port)
    ensures AllPorts([port], ok)
  {
  }

  lemma GatewayWithin(d: Desired)
    requires Sound(d)
    ensures AnsweredWithin(d, {Gateway}, 8080)
  {
    var c := GatewayContainer(d);
    GatewayInPod(d);
    assert c.ports[1] in c.ports;
    WithinOne(d, c, Gateway, {Gateway}, 8080);
  }

  lemma GatewayServiceLeads(d: Desired)
    requires Sound(d)
    ensures LeadsTo(d, ApplyGatewayService, {Gateway}) && PortsOf(AppliedPayload(d, ApplyGatewayService)) == [8080]
  {
    GatewayWithin(d);
    ServicePorts(d);
    OnePort(8080, port => AnsweredWithin(d, {Gateway}, port));
  }

  lemma UIWithin(d: Desired)
    requires Sound(d) && d.components.ui
    ensures AnsweredWithin(d, {UI}, 8081)
  {
    var c := UIContainer(d);
    assert c in When(d.components.ui, [c]);
    InContainers(d, c);
    assert c.ports[0] in c.ports;
    WithinOne(d, c, UI, {UI}, 8081);
  }

  lemma UIServiceLeads(d: Desired)
    requires Sound(d) && d.components.ui
    ensures LeadsTo(d, ApplyUIService, {UI}) && PortsOf(AppliedPayload(d, ApplyUIService)) == [8081]
  {
    UIWithin(d);
    ServicePorts(d);
    OnePort(8081, port => AnsweredWithin(d, {UI}, port));
  }

  lemma EnginePortsAll(d: Desired, ok: int -> bool)
    requires ok(50051) && (d.components.collectionHealth ==> ok(50058)) && (d.components.depAudit ==> ok(50059))
    ensures AllPorts(EnginePorts(d), ok)
  {
    assert EnginePorts(d)[0] == 50051;
  }

  lemma ValidatorsWithin(d: Desired, ns: set<ContainerName>)
    requires Sound(d) && CollectionHealth in ns && DepAudit in ns
    ensures d.components.collectionHealth ==> AnsweredWithin(d, ns, 50058)
    ensures d.components.depAudit ==> AnsweredWithin(d, ns, 50059)
  {
    if d.components.collectionHealth {
      CollectionHealthInPod(d);
      WithinOne(d, CollectionHealthContainer(d), CollectionHealth, ns, 50058);
    }
    if d.components.depAudit {
      DepAuditInPod(d);
      WithinOne(d, DepAuditContainer(d), DepAudit, ns, 50059);
    }
  }

  lemma EngineServiceLeads(d: Desired)
    requires Sound(d)
    ensures LeadsTo(d, ApplyEngineService, {Engine, CollectionHealth, DepAudit})
  {
    var ns := {Engine, CollectionHealth, DepAudit};
    ServicePorts(d);
    EngineInPod(d);
    WithinOne(d, EngineContainer(d), Engine, ns, 50051);
    ValidatorsWithin(d, ns);
    EnginePortsAll(d, port => AnsweredWithin(d, ns, port));
  }

  /** The containers behind each Service of the APME Pod. */
  function Behind(t: Item): set<ContainerName> {
    if t.ApplyGatewayService? then {Gateway} else if t.ApplyUIService? then {UI} else {Engine, CollectionHealth, DepAudit}
  }

  /** Every port of every Service of the APME Pod is one that the probes of a container the Service is for ask, and on which
      no container that it is not for listens. */
  lemma ServicesLeadToTheirContainers(inst: Instance, d: Desired, t: Item)
    requires Sound(d) && Planned(inst, d, t) && (t.ApplyEngineService? || t.ApplyGatewayService? || t.ApplyUIService?)
    ensures LeadsTo(d, t, Behind(t))
  {
    if t.ApplyGatewayService? { GatewayServiceLeads(d); }
    else if t.ApplyUIService? { UIServiceLeads(d); }
    else { EngineServiceLeads(d); }
  }

  /** The managed database's URL names the Service that the operator applies for it, at its one port. */
  lemma DatabaseUrlLeadsToService(inst: Instance, d: Desired)
    requires Defaulted(inst, d) && d.database.mode == Managed
    ensures Planned(inst, d, ApplyPostgresService)
    ensures DatabaseUrl.PostgresHost(d.name, d.namespace)
         == WriteKey(inst.name, ApplyPostgresService).name + "." + inst.namespace + ".svc"
    ensures AppliedPayload(d, ApplyPostgresService)[Template] == Of(Serves("postgres", [5432]))
  {
  }

  // ---- Routes ----

  /** The container that a wanted Route is for. */
  function RouteIsFor(t: Item): ContainerName { if t.WantUIRoute? then UI else Gateway }

  /** The Service that a wanted Route targets. */
  function TargetItem(t: Item): Item { if t.WantUIRoute? then ApplyUIService else ApplyGatewayService }

  /** A wanted Route targets a Service that is applied before it, and behind which is the container the Route is for, and no
      other. */
  lemma RouteLeadsToItsContainer(inst: Instance, d: Desired, t: Item)
    requires Defaulted(inst, d) && Sound(d) && Wants(t) && Planned(inst, d, t)
    ensures Planned(inst, d, TargetItem(t)) && Rank(TargetItem(t)) < Rank(t)
    ensures WriteKey(inst.name, TargetItem(t)) == Key(Service, TextOf(WantedPayload(d, t), Target))
    ensures LeadsTo(d, TargetItem(t), {RouteIsFor(t)})
  {
    if t.WantUIRoute? { UIServiceLeads(d); } else { GatewayServiceLeads(d); }
  }

  /** When both Routes are wanted they share the host but not the path, so neither takes the other's place; alone, the API
      Route is at the root. */
  lemma RoutesDoNotClash(inst: Instance, d: Desired)
    requires Planned(inst, d, WantAPIRoute)
    ensures TextOf(WantedPayload(d, WantUIRoute), Host) == TextOf(WantedPayload(d, WantAPIRoute), Host) == d.exposure.routeHost
    ensures Planned(inst, d, WantUIRoute) ==>
              TextOf(WantedPayload(d, WantUIRoute), Path) == "" && TextOf(WantedPayload(d, WantAPIRoute), Path) == "/api"
    ensures !Planned(inst, d, WantUIRoute) ==> TextOf(WantedPayload(d, WantAPIRoute), Path) == ""
  {
    PayloadAsks(d, WantUIRoute);
    PayloadAsks(d, WantAPIRoute);
  }

  /** The Route whose host is reported is one that is wanted; it leads to the UI if there is one, and else to the Gateway. */
  lemma ReportedRouteIsWanted(inst: Instance, d: Desired) returns (t: Item)
    requires Defaulted(inst, d) && Sound(d) && ShowsRoute(inst, d)
    ensures Wants(t) && Planned(inst, d, t) && WriteKey(inst.name, t) == RouteShown(d)
    ensures RouteIsFor(t) == if d.components.ui then UI else Gateway
    ensures LeadsTo(d, TargetItem(t), {RouteIsFor(t)})
  {
    t := if d.components.ui then WantUIRoute else WantAPIRoute;
    RouteLeadsToItsContainer(inst, d, t);
  }

  // ---- The Ingress ----

  /** The Service item that a backend is about. */
  ghost predicate BackendLeads(inst: Instance, d: Desired, b: Backend, t: Item, n: ContainerName) {
    && Planned(inst, d, t) && Applies(t) && WriteKey(inst.name, t) == Key(Service, b.service)
    && b.port in PortsOf(AppliedPayload(d, t)) && AnsweredWithin(d, {n}, b.port)
  }

  /** With the UI the Ingress sends / to it and /api to the Gateway, and without it all to the Gateway: each to a port of a
      Service of the plan on which that container alone listens. */
  lemma IngressLeadsToContainers(inst: Instance, d: Desired, b: Backend)
    requires Defaulted(inst, d) && Sound(d) && b in IngressBackends(d)
    ensures b.path == "/" && d.components.ui ==> BackendLeads(inst, d, b, ApplyUIService, UI)
    ensures b.path == "/api" || !d.components.ui ==> BackendLeads(inst, d, b, ApplyGatewayService, Gateway)
    ensures b.path == "/" || (b.path == "/api" && d.components.ui)
  {
    GatewayServiceLeads(d);
    if d.components.ui { UIServiceLeads(d); }
    IngressPaths(d, b);
  }

  lemma IngressPaths(d: Desired, b: Backend)
    requires b in IngressBackends(d)
    ensures || (d.components.ui && b == Backend("/", d.name + "-ui", 8081))
            || (d.components.ui && b == Backend("/api", d.name + "-gateway", 8080))
            || (!d.components.ui && b == Backend("/", d.name + "-gateway", 8080))
  {
  }
}
