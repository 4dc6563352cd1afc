/** Payloads of the objects the operator writes: routes.go, services.go, ingress.go of internal/manifests, and the
    Secrets of deployment.go and postgres/statefulset.go. */
module Manifests {
  import opened Lists
  import opened Options
  import opened Resolve
  import opened Cluster
  import opened Pod
  import opened PodWiring
  import DatabaseUrl

  // ---- Routes ----

  /** routeUnstructured: host and path only when nonempty, the desired-host annotation always. */
  function RoutePayload(host: string, service: string, path: string, d: Desired): Payload {
    map[DesiredHost := Cluster.Text(host), Target := Cluster.Text(service), Template := Of(Plain(d))]
    + (if host != "" then map[Host := Cluster.Text(host)] else map[])
    + (if path != "" then map[Path := Cluster.Text(path)] else map[])
  }

  method RouteUnstructured(host: string, service: string, path: string, d: Desired) returns (payload: Payload)
    ensures payload == RoutePayload(host, service, path, d)
  {
    payload := map[Target := Cluster.Text(service), Template := Of(Plain(d))];
    if host != "" {
      payload := payload[Host := Cluster.Text(host)];
    }
    if path != "" {
      payload := payload[Path := Cluster.Text(path)];
    }
    payload := payload[DesiredHost := Cluster.Text(host)];
  }

  function UIRoutePayload(d: Desired): Payload {
    RoutePayload(d.exposure.routeHost, d.name + "-ui", "", d)
  }

  /** Path /api when the UI shares the host. */
  function APIRoutePayload(d: Desired): Payload {
    RoutePayload(d.exposure.routeHost, d.name + "-gateway", if d.components.ui then "/api" else "", d)
  }

  // ---- Services ----

  const ENGINE := "engine"
  const POSTGRES := "postgres"

  function EnginePorts(d: Desired): seq<int> {
    [50051] + When(d.components.collectionHealth, [50058]) + When(d.components.depAudit, [50059])
  }

  /** The Engine's own port always, a validator's exactly when it is on, each once and in ascending order. */
  method EngineServicePorts(d: Desired) returns (ports: seq<int>)
    ensures forall p :: p in ports <==>
              p == 50051 || (p == 50058 && d.components.collectionHealth) || (p == 50059 && d.components.depAudit)
    ensures forall i, j :: 0 <= i < j < |ports| ==> ports[i] < ports[j]
    ensures ports == EnginePorts(d)
  {
    ports := [50051];
    if d.components.collectionHealth {
      ports := ports + [50058];
    }
    if d.components.depAudit {
      ports := ports + [50059];
    }
  }

  function ServicePayload(component: string, ports: seq<int>): Payload {
    map[Template := Of(Serves(component, ports))]
  }

  /** The Pod that component "engine" selects has a container behind `port`. */
  ghost predicate Served(d: Desired, port: int) {
    exists c :: c in PodOf(d).containers && Listens(c, port)
  }

  lemma IsServed(d: Desired, c: Container, port: int)
    requires (c in FrontContainers(d) || c in BackContainers(d)) && Listens(c, port)
    ensures Served(d, port)
  {
    assert c in PodOf(d).containers;
  }

  /** Every port of every Service that selects the APME Pod is listened on there. */
  lemma ServicePortsListened(d: Desired, port: int)
    requires port in EnginePorts(d) || port == 8080 || (d.components.ui && port == 8081)
    ensures Served(d, port)
  {
    if port == 8080 || port == 8081 { HttpServed(d, port); } else { GrpcServed(d, port); }
  }

  lemma GrpcServed(d: Desired, port: int)
    requires port in EnginePorts(d)
    ensures Served(d, port)
  {
    if port == 50051 {
      assert EngineContainer(d) == FrontContainers(d)[0];
      IsServed(d, EngineContainer(d), port);
    } else if port == 50058 {
      CollectionHealthInFront(d);
      IsServed(d, CollectionHealthContainer(d), port);
    } else {
      DepAuditInFront(d);
      IsServed(d, DepAuditContainer(d), port);
    }
  }

  lemma HttpServed(d: Desired, port: int)
    requires port == 8080 || (d.components.ui && port == 8081)
    ensures Served(d, port)
  {
    var back := BackContainers(d);
    if port == 8080 {
      assert back[1].ports[1] in back[1].ports;
      IsServed(d, back[1], port);
    } else {
      assert back[2] == UIContainer(d) && back[2].ports[0] in back[2].ports;
      IsServed(d, back[2], port);
    }
  }

  lemma CollectionHealthInFront(d: Desired)
    requires d.components.collectionHealth
    ensures CollectionHealthContainer(d) in FrontContainers(d)
  {
  }

  lemma DepAuditInFront(d: Desired)
    requires d.components.depAudit
    ensures DepAuditContainer(d) in FrontContainers(d)
  {
  }

  // ---- Ingress ----

  /** The UI at the root and the Gateway under /api, or the Gateway alone at the root. */
  function IngressBackends(d: Desired): seq<Backend> {
    if d.components.ui then [Backend("/", d.name + "-ui", 8081), Backend("/api", d.name + "-gateway", 8080)]
    else [Backend("/", d.name + "-gateway", 8080)]
  }

  function IngressPayload(d: Desired): Payload {
    map[Template := Of(Backends(d.exposure.ingressHost, IngressBackends(d)))]
  }

  // ---- Workloads and the rest ----

  function PlainPayload(d: Desired): Payload { map[Template := Of(Plain(d))] }

  function PostgresPayload(d: Desired): Payload { map[Template := Of(PostgresSet(d))] }

  function WorkloadPayload(d: Desired, checksum: string): Payload { map[Template := Of(Workload(d, checksum))] }

  // ---- Secrets ----

  const URL_KEY := "database-url"
  const URL := Data(URL_KEY)

  const TLS_CRT := Data("tls.crt")
  const TLS_KEY := Data("tls.key")
  const CA_CRT := Data("ca.crt")

  predicate HasTLSMaterial(fields: Payload) {
    TextOf(fields, TLS_CRT) != "" && TextOf(fields, TLS_KEY) != "" && TextOf(fields, CA_CRT) != ""
  }

  /** What the random source supplies for the Secrets: a password, a token and the TLS material. */
  datatype Material = Material(password: string, token: string, crt: string, key: string, ca: string)

  function TLSPayload(m: Material): Payload {
    map[TLS_CRT := Cluster.Text(m.crt), TLS_KEY := Cluster.Text(m.key), CA_CRT := Cluster.Text(m.ca)]
  }

  function DatabaseSecretPayload(name: string, namespace: string, password: string): Payload {
    map[Data("username") := Cluster.Text(DatabaseUrl.PG_USER),
        Data("password") := Cluster.Text(password),
        Data("database") := Cluster.Text(DatabaseUrl.PG_DB),
        URL := Cluster.Text(DatabaseUrl.OwnUrl(name, namespace, password))]
  }

  function TokenPayload(key: string, token: string): Payload { map[Data(key) := Cluster.Text(token)] }
}
