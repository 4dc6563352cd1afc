/** The parts of ensureAll and of patchStatus: which items each part does, and what follows when one part comes after
    another. */
module Parts {
  import opened Lists
  import opened Options
  import opened ObjectNames
  import opened Resolve
  import opened Cluster
  import opened Manifests
  import opened Plan
  import opened Machine
  import opened Exchanges
  import Status

  // ---- Lists of objects ----

  function CoreObjects(d: Desired): seq<(Key, Payload)> {
    [(Key(ServiceAccount, d.name + ""), PlainPayload(d)), (Key(PersistentVolumeClaim, d.name + "-sessions"), PlainPayload(d)),
     (Key(PersistentVolumeClaim, d.name + "-proxy-cache"), PlainPayload(d))]
  }

  function PostgresObjects(d: Desired): seq<(Key, Payload)> {
    [(Key(ConfigMap, d.name + "-postgres-ssl"), PlainPayload(d)), (Key(StatefulSet, d.name + "-postgres"), PostgresPayload(d)),
     (Key(Service, d.name + "-postgres"), ServicePayload(POSTGRES, [5432]))]
    + When(d.networkPolicy, [(Key(NetworkPolicy, d.name + "-postgres"), PlainPayload(d))])
  }

  function AbbenayObjects(d: Desired): seq<(Key, Payload)> {
    When(d.abbenay.configMap == "", [(Key(ConfigMap, d.name + "-abbenay-config"), PlainPayload(d))])
    + When(d.abbenay.persist, [(Key(PersistentVolumeClaim, d.name + "-abbenay-config"), PlainPayload(d))])
  }

  function FrontObjects(d: Desired): seq<(Key, Payload)> {
    [(Key(Service, d.name + "-engine"), ServicePayload(ENGINE, EnginePorts(d))),
     (Key(Service, d.name + "-gateway"), ServicePayload(ENGINE, [8080]))]
  }

  function OptionalObjects(d: Desired): seq<(Key, Payload)> {
    When(d.components.ui, [(Key(Service, d.name + "-ui"), ServicePayload(ENGINE, [8081]))])
    + When(d.exposure.ingressEnabled, [(Key(Ingress, d.name + ""), IngressPayload(d))])
    + When(d.networkPolicy, [(Key(NetworkPolicy, d.name + "-engine"), PlainPayload(d))])
  }

  function ServiceObjects(d: Desired): seq<(Key, Payload)> { FrontObjects(d) + OptionalObjects(d) }

  lemma PostgresObjectsOf(d: Desired)
    requires d.database.mode == Managed
    ensures SecretItems() + DatabaseItems(d)[2..] == DatabaseItems(d)
    ensures ObjectsOf(d, PostgresObjects(d), DatabaseItems(d)[2..])
  {
  }

  function SecretItems(): seq<Item> { [EnsureTLS] + [EnsureDatabaseSecret] }

  lemma TLSDone(inst: Instance, d: Desired, cs: seq<Exchange>, err: Option<Ending>)
    requires d.database.mode == Managed && TLSCalls(inst.uid, d, cs, err)
    ensures PlanCalls(inst, d, if err.None? then [EnsureTLS] else DatabaseItems(d), cs, false, false, err)
  {
    FirstItem(inst, d, DatabaseItems(d), EnsureTLS, cs, false, err);
  }

  lemma SecretDone(inst: Instance, d: Desired, a: seq<Exchange>, b: seq<Exchange>, err: Option<Ending>)
    requires d.database.mode == Managed && PlanCalls(inst, d, [EnsureTLS], a, false, false, None)
    requires DatabaseSecretCalls(inst, d, b, err)
    ensures PlanCalls(inst, d, if err.None? then SecretItems() else DatabaseItems(d), a + b, false, false, err)
  {
    PostgresObjectsOf(d);
    NextItem(inst, d, DatabaseItems(d), [EnsureTLS], EnsureDatabaseSecret, a, b, err);
  }

  lemma PostgresApplied(inst: Instance, d: Desired, a: seq<Exchange>, b: seq<Exchange>, err: Option<Ending>)
    requires d.database.mode == Managed && PlanCalls(inst, d, SecretItems(), a, false, false, None)
    requires ApplyCalls(inst.uid, PostgresObjects(d), b, err)
    ensures PlanCalls(inst, d, DatabaseItems(d), a + b, false, false, err)
  {
    PostgresObjectsOf(d);
    NextApplies(inst, d, DatabaseItems(d), SecretItems(), DatabaseItems(d)[2..], PostgresObjects(d), a, b, err);
  }

  lemma AbbenayObjectsOf(d: Desired)
    requires d.abbenay.enabled
    ensures AbbenayItems(d) == AbbenayTokens(d) + AbbenayApplies(d)
    ensures ObjectsOf(d, AbbenayObjects(d), AbbenayApplies(d))
  {
  }

  function AbbenayTokens(d: Desired): seq<Item> { When(d.abbenay.generateToken, [EnsureAbbenayToken]) }

  lemma AbbenayOff(inst: Instance, d: Desired)
    requires !d.abbenay.enabled
    ensures PlanCalls(inst, d, AbbenayItems(d), [], false, false, None)
  {
  }

  lemma AbbenayTokenDone(inst: Instance, d: Desired, cs: seq<Exchange>, err: Option<Ending>)
    requires d.abbenay.enabled
    requires if d.abbenay.generateToken then AbbenayTokenCalls(inst.uid, d, cs, err) else cs == [] && err == None
    ensures PlanCalls(inst, d, if err.None? then AbbenayTokens(d) else AbbenayItems(d), cs, false, false, err)
  {
    if d.abbenay.generateToken { FirstItem(inst, d, AbbenayItems(d), EnsureAbbenayToken, cs, false, err); }
  }

  lemma AbbenayApplied(inst: Instance, d: Desired, a: seq<Exchange>, b: seq<Exchange>, err: Option<Ending>)
    requires d.abbenay.enabled && PlanCalls(inst, d, AbbenayTokens(d), a, false, false, None)
    requires ApplyCalls(inst.uid, AbbenayObjects(d), b, err)
    ensures PlanCalls(inst, d, AbbenayItems(d), a + b, false, false, err)
  {
    AbbenayObjectsOf(d);
    NextApplies(inst, d, AbbenayItems(d), AbbenayTokens(d), AbbenayApplies(d), AbbenayObjects(d), a, b, err);
  }

  function AbbenayApplies(d: Desired): seq<Item> {
    When(d.abbenay.configMap == "", [ApplyAbbenayConfig]) + When(d.abbenay.persist, [ApplyAbbenayClaim])
  }

  lemma OptionalObjectsOf(d: Desired)
    ensures ObjectsOf(d, OptionalObjects(d), OptionalItems(d))
  {
    var ui := When(d.components.ui, [(Key(Service, d.name + "-ui"), ServicePayload(ENGINE, [8081]))]);
    var ingress := When(d.exposure.ingressEnabled, [(Key(Ingress, d.name + ""), IngressPayload(d))]);
    var policy := When(d.networkPolicy, [(Key(NetworkPolicy, d.name + "-engine"), PlainPayload(d))]);
    ObjectsJoin(d, ui, When(d.components.ui, [ApplyUIService]), ingress, When(d.exposure.ingressEnabled, [ApplyIngress]));
    ObjectsJoin(d, ui + ingress, When(d.components.ui, [ApplyUIService]) + When(d.exposure.ingressEnabled, [ApplyIngress]),
                policy, When(d.networkPolicy, [ApplyPolicy]));
  }

  lemma ServiceObjectsOf(d: Desired)
    ensures [ApplyDeployment] + ServiceItems(d) == WorkloadItems(d)
    ensures ObjectsOf(d, ServiceObjects(d), ServiceItems(d))
  {
    OptionalObjectsOf(d);
    ObjectsJoin(d, FrontObjects(d), [ApplyEngineService, ApplyGatewayService], OptionalObjects(d), OptionalItems(d));
  }

  function ServiceItems(d: Desired): seq<Item> { [ApplyEngineService, ApplyGatewayService] + OptionalItems(d) }

  function LastItems(inst: Instance, d: Desired): seq<Item> { WorkloadItems(d) + RouteItems(inst, d) }

  lemma DeploymentDone(inst: Instance, d: Desired, cs: seq<Exchange>, err: Option<Ending>)
    requires DeploymentCalls(inst, d, cs, err)
    ensures PlanCalls(inst, d, if err.None? then [ApplyDeployment] else LastItems(inst, d), cs, false, false, err)
  {
    DeploymentComesFirst(inst, d);
    DeploymentItem(inst, d, ApplyDeployment, cs, err);
    FirstItem(inst, d, LastItems(inst, d), ApplyDeployment, cs, false, err);
  }

  lemma DeploymentComesFirst(inst: Instance, d: Desired)
    ensures [ApplyDeployment] <= LastItems(inst, d)
  {
  }

  lemma DeploymentItem(inst: Instance, d: Desired, t: Item, cs: seq<Exchange>, err: Option<Ending>)
    requires t == ApplyDeployment && DeploymentCalls(inst, d, cs, err)
    ensures ItemCalls(inst, d, t, cs, false, err)
  {
  }

  lemma ServicesApplied(inst: Instance, d: Desired, a: seq<Exchange>, b: seq<Exchange>, err: Option<Ending>)
    requires PlanCalls(inst, d, [ApplyDeployment], a, false, false, None)
    requires ApplyCalls(inst.uid, ServiceObjects(d), b, err)
    ensures PlanCalls(inst, d, if err.None? then WorkloadItems(d) else LastItems(inst, d), a + b, false, false, err)
  {
    ServiceObjectsOf(d);
    NextApplies(inst, d, LastItems(inst, d), [ApplyDeployment], ServiceItems(d), ServiceObjects(d), a, b, err);
  }

  lemma WantedRouteItem(inst: Instance, d: Desired, t: Item, cs: seq<Exchange>, err: Option<Ending>)
    requires Wants(t) && WantedRouteCalls(inst.uid, WriteKey(d.name, t), WantedPayload(d, t), cs)
    requires Told(d, RouteError(inst.uid, cs), err)
    ensures ItemCalls(inst, d, t, cs, false, err)
  {
  }

  lemma UnwantedRouteItem(inst: Instance, d: Desired, t: Item, cs: seq<Exchange>, err: Option<Ending>)
    requires Unwants(t) && UnwantedRouteCalls(inst.uid, WriteKey(d.name, t), cs, err)
    ensures ItemCalls(inst, d, t, cs, false, err)
  {
  }

  lemma RouteDone(inst: Instance, d: Desired, ui: Item, api: Item, cs: seq<Exchange>, err: Option<Ending>)
    requires ItemCalls(inst, d, ui, cs, false, err)
    ensures PlanCalls(inst, d, if err.None? then [ui] else [ui, api], cs, false, false, err)
  {
    FirstItem(inst, d, [ui, api], ui, cs, false, err);
  }

  lemma RoutesDone(inst: Instance, d: Desired, ui: Item, api: Item, a: seq<Exchange>, b: seq<Exchange>, err: Option<Ending>)
    requires PlanCalls(inst, d, [ui], a, false, false, None) && ItemCalls(inst, d, api, b, false, err)
    ensures PlanCalls(inst, d, [ui, api], a + b, false, false, err)
  {
    assert [ui] + [api] == [ui, api];
    NextItem(inst, d, [ui, api], [ui], api, a, b, err);
  }

  // ---- The five parts of ensureAll ----

  function ToDatabase(d: Desired): seq<Item> { CORE + DatabaseItems(d) }

  function ToAbbenay(d: Desired): seq<Item> { ToDatabase(d) + AbbenayItems(d) }

  function ToToken(d: Desired): seq<Item> { ToAbbenay(d) + [EnsureProxyToken] }

  lemma InFiveParts(inst: Instance, d: Desired)
    ensures Items(inst, d) == ToToken(d) + LastItems(inst, d)
    ensures CORE <= Items(inst, d) && ToDatabase(d) <= Items(inst, d) && ToAbbenay(d) <= Items(inst, d)
    ensures ToToken(d) <= Items(inst, d)
  {
    Regroup(ToToken(d), WorkloadItems(d), RouteItems(inst, d));
  }

  lemma CoreDone(inst: Instance, d: Desired, cs: seq<Exchange>, err: Option<Ending>)
    requires ApplyCalls(inst.uid, CoreObjects(d), cs, err)
    ensures PlanCalls(inst, d, if err.None? then CORE else Items(inst, d), cs, false, false, err)
  {
    InFiveParts(inst, d);
    NothingYet(inst, d);
    assert [] + CORE == CORE && [] + cs == cs;
    NextApplies(inst, d, Items(inst, d), [], CORE, CoreObjects(d), [], cs, err);
  }

  lemma NothingYet(inst: Instance, d: Desired)
    ensures PlanCalls(inst, d, [], [], false, false, None)
  {
  }

  lemma DatabaseDone(inst: Instance, d: Desired, a: seq<Exchange>, b: seq<Exchange>, l: bool, err: Option<Ending>)
    requires PlanCalls(inst, d, CORE, a, false, false, None) && PlanCalls(inst, d, DatabaseItems(d), b, false, l, err)
    ensures PlanCalls(inst, d, if err.None? then ToDatabase(d) else Items(inst, d), a + b, false, l, err)
  {
    InFiveParts(inst, d);
    PlanNext(inst, d, Items(inst, d), CORE, DatabaseItems(d), a, b, false, l, err);
  }

  lemma AbbenayDone(inst: Instance, d: Desired, a: seq<Exchange>, b: seq<Exchange>, l: bool, err: Option<Ending>)
    requires PlanCalls(inst, d, ToDatabase(d), a, false, l, None)
    requires PlanCalls(inst, d, AbbenayItems(d), b, false, false, err)
    ensures PlanCalls(inst, d, if err.None? then ToAbbenay(d) else Items(inst, d), a + b, false, l, err)
  {
    InFiveParts(inst, d);
    PlanNext(inst, d, Items(inst, d), ToDatabase(d), AbbenayItems(d), a, b, l, false, err);
  }

  lemma TokenDone(inst: Instance, d: Desired, a: seq<Exchange>, b: seq<Exchange>, l: bool, err: Option<Ending>)
    requires PlanCalls(inst, d, ToAbbenay(d), a, false, l, None) && ProxyTokenCalls(inst.uid, d, b, err)
    ensures PlanCalls(inst, d, if err.None? then ToToken(d) else Items(inst, d), a + b, false, l, err)
  {
    InFiveParts(inst, d);
    FirstItem(inst, d, [EnsureProxyToken], EnsureProxyToken, b, false, err);
    PlanNext(inst, d, Items(inst, d), ToAbbenay(d), [EnsureProxyToken], a, b, l, false, err);
  }

  lemma WorkloadDone(inst: Instance, d: Desired, a: seq<Exchange>, b: seq<Exchange>, l: bool, err: Option<Ending>)
    requires PlanCalls(inst, d, ToToken(d), a, false, l, None)
    requires PlanCalls(inst, d, LastItems(inst, d), b, false, false, err)
    ensures PlanCalls(inst, d, Items(inst, d), a + b, false, l, err)
  {
    InFiveParts(inst, d);
    PlanNext(inst, d, Items(inst, d), ToToken(d), LastItems(inst, d), a, b, l, false, err);
  }

  // ---- patchStatus ----

  /** The host a Route was admitted under, and the one it was given; "" when there is none. */
  function AdmittedTo(route: Slot): string { if route.obj.Some? then TextOf(route.obj.value.fields, AdmittedHost) else "" }

  function HostGiven(route: Slot): string { if route.obj.Some? then TextOf(route.obj.value.fields, Host) else "" }

  function IngressShown(d: Desired): string { if d.exposure.ingressEnabled then d.exposure.ingressHost else "" }

  /** The URL shows the host a Route was admitted under, else the one given, else the Ingress host; and it is empty exactly
      when there is none of these. */
  predicate UrlShown(d: Desired, admitted: string, given: string, url: string) {
    && (admitted != "" ==> url == "https://" + admitted)
    && (admitted == "" && given != "" ==> url == "https://" + given)
    && (admitted == "" && given == "" && IngressShown(d) != "" ==> url == "https://" + IngressShown(d))
    && (url == "" <==> admitted == "" && given == "" && IngressShown(d) == "")
  }

  lemma UrlIsThePublicOne(d: Desired, route: Slot, url: string)
    requires UrlShown(d, AdmittedTo(route), HostGiven(route), url)
    ensures url == PublicURL(d, route)
  {
  }

  predicate Tells(c: Exchange, k: Key, slot: Slot) {
    Gets(c, k) && slot == if c.input.fault == NoFault then At(c.before, k) else EMPTY
  }

  lemma FindingsAre(inst: Instance, d: Desired, first: seq<Exchange>, b: Exchange, c: Exchange,
                    route: Slot, database: Slot, deployment: Slot)
    requires if ShowsRoute(inst, d) then |first| == 1 && Tells(first[0], RouteShown(d), route) else first == []
    requires Tells(b, DatabaseObject(d), database) && Tells(c, Key(Deployment, d.name), deployment)
    ensures LookCalls(ReportKeys(inst, d), first + [b, c])
    ensures Findings(ReportKeys(inst, d), first + [b, c]) == When(ShowsRoute(inst, d), [route]) + [database, deployment]
  {
    var keys, cs := ReportKeys(inst, d), first + [b, c];
    var n := |first|;
    assert keys[n] == DatabaseObject(d) && keys[n + 1] == Key(Deployment, d.name) && (n == 1 ==> keys[0] == RouteShown(d));
    assert cs[n] == b && cs[n + 1] == c && (n == 1 ==> cs[0] == first[0]);
  }

  /** What patchStatus makes of its reads is what the report observes. */
  lemma ObservedFrom(inst: Instance, d: Desired, looks: seq<Exchange>, route: Slot, database: Slot, deployment: Slot,
                     imagePull: bool, o: Status.Observed)
    requires LookCalls(ReportKeys(inst, d), looks)
    requires Findings(ReportKeys(inst, d), looks) == When(ShowsRoute(inst, d), [route]) + [database, deployment]
    requires !ShowsRoute(inst, d) ==> route == EMPTY
    requires o.databaseReady == if d.database.mode == External then database.obj.Some? else Replicated(database)
    requires o.deploymentReady == Replicated(deployment)
    requires o.imagePull == (imagePull && deployment.obj.Some? && !Replicated(deployment))
    requires o.url == PublicURL(d, route)
    ensures o == Observe(inst, d, Findings(ReportKeys(inst, d), looks), imagePull)
  {
  }
}
