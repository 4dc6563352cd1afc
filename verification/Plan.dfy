/** What one reconcile does, in order: ensureAll of internal/controller/apme_controller.go and the steps below it,
    each split into single API calls. */
module Plan {
  import opened Lists
  import opened Options
  import opened ObjectNames
  import opened Resolve
  import opened Cluster
  import opened Manifests
  import opened Status
  import Checksum
  import DatabaseUrl

  /** One Apme resource and the operator serving it. `text` is how net/url reads URLs and `verifyFull` is what
      WithVerifyFullTLS makes of one; `usableCA` says that a CA bundle is not blank and holds PEM certificates. */
  datatype Instance = Instance(name: string, namespace: string, uid: Uid, routeAPI: bool, proxyEnv: seq<ProxyVariable>,
                               text: DatabaseUrl.UrlText, verifyFull: string -> Option<string>, usableCA: string -> bool)

  ghost predicate RewritesUrls(inst: Instance) {
    forall raw :: inst.verifyFull(raw) == DatabaseUrl.VerifyFull(inst.text, raw)
  }

  ghost function IntentOf(inst: Instance, spec: ApmeSpec): Desired {
    Intent(inst.name, inst.namespace, spec, inst.proxyEnv)
  }

  /** The steps of ensureAll, one for each object it sees to, and the look for a leftover StatefulSet. */
  datatype Item =
    | ApplyServiceAccount | ApplySessionsClaim | ApplyProxyCacheClaim
    | SeeLeftover
    | EnsureTLS | EnsureDatabaseSecret | ApplySSLConfig | ApplyPostgresSet | ApplyPostgresService | ApplyPostgresPolicy
    | EnsureAbbenayToken | ApplyAbbenayConfig | ApplyAbbenayClaim
    | EnsureProxyToken
    | ApplyDeployment | ApplyEngineService | ApplyGatewayService | ApplyUIService | ApplyIngress | ApplyPolicy
    | WantUIRoute | UnwantUIRoute | WantAPIRoute | UnwantAPIRoute

  const CORE := [ApplyServiceAccount, ApplySessionsClaim, ApplyProxyCacheClaim]

  function DatabaseItems(d: Desired): seq<Item> {
    if d.database.mode == External then [SeeLeftover]
    else [EnsureTLS, EnsureDatabaseSecret, ApplySSLConfig, ApplyPostgresSet, ApplyPostgresService]
         + When(d.networkPolicy, [ApplyPostgresPolicy])
  }

  function AbbenayItems(d: Desired): seq<Item> {
    if !d.abbenay.enabled then []
    else When(d.abbenay.generateToken, [EnsureAbbenayToken])
         + When(d.abbenay.configMap == "", [ApplyAbbenayConfig])
         + When(d.abbenay.persist, [ApplyAbbenayClaim])
  }

  function OptionalItems(d: Desired): seq<Item> {
    When(d.components.ui, [ApplyUIService])
    + When(d.exposure.ingressEnabled, [ApplyIngress])
    + When(d.networkPolicy, [ApplyPolicy])
  }

  function WorkloadItems(d: Desired): seq<Item> {
    [ApplyDeployment, ApplyEngineService, ApplyGatewayService] + OptionalItems(d)
  }

  function RouteItems(inst: Instance, d: Desired): seq<Item> {
    When(inst.routeAPI,
         [if d.exposure.routeEnabled && d.components.ui then WantUIRoute else UnwantUIRoute,
          if d.exposure.routeEnabled then WantAPIRoute else UnwantAPIRoute])
  }

  function Items(inst: Instance, d: Desired): seq<Item> {
    CORE + DatabaseItems(d) + AbbenayItems(d) + [EnsureProxyToken] + WorkloadItems(d) + RouteItems(inst, d)
  }

  // ---- The object an item writes ----

  function KindOf(t: Item): Kind {
    match t
    case ApplyServiceAccount => ServiceAccount
    case ApplySessionsClaim => PersistentVolumeClaim
    case ApplyProxyCacheClaim => PersistentVolumeClaim
    case SeeLeftover => StatefulSet
    case EnsureTLS => Secret
    case EnsureDatabaseSecret => Secret
    case ApplySSLConfig => ConfigMap
    case ApplyPostgresSet => StatefulSet
    case ApplyPostgresService => Service
    case ApplyPostgresPolicy => NetworkPolicy
    case EnsureAbbenayToken => Secret
    case ApplyAbbenayConfig => ConfigMap
    case ApplyAbbenayClaim => PersistentVolumeClaim
    case EnsureProxyToken => Secret
    case ApplyDeployment => Deployment
    case ApplyEngineService => Service
    case ApplyGatewayService => Service
    case ApplyUIService => Service
    case ApplyIngress => Ingress
    case ApplyPolicy => NetworkPolicy
    case WantUIRoute => Route
    case UnwantUIRoute => Route
    case WantAPIRoute => Route
    case UnwantAPIRoute => Route
  }

  function SuffixOf(t: Item): string {
    match t
    case ApplyServiceAccount => ""
    case ApplySessionsClaim => "-sessions"
    case ApplyProxyCacheClaim => "-proxy-cache"
    case SeeLeftover => "-postgres"
    case EnsureTLS => "-postgres-tls"
    case EnsureDatabaseSecret => "-postgres"
    case ApplySSLConfig => "-postgres-ssl"
    case ApplyPostgresSet => "-postgres"
    case ApplyPostgresService => "-postgres"
    case ApplyPostgresPolicy => "-postgres"
    case EnsureAbbenayToken => "-abbenay"
    case ApplyAbbenayConfig => "-abbenay-config"
    case ApplyAbbenayClaim => "-abbenay-config"
    case EnsureProxyToken => "-proxy-admin"
    case ApplyDeployment => ""
    case ApplyEngineService => "-engine"
    case ApplyGatewayService => "-gateway"
    case ApplyUIService => "-ui"
    case ApplyIngress => ""
    case ApplyPolicy => "-engine"
    case WantUIRoute => "-ui"
    case UnwantUIRoute => "-ui"
    case WantAPIRoute => "-api"
    case UnwantAPIRoute => "-api"
  }

  function WriteKey(name: string, t: Item): Key { Key(KindOf(t), name + SuffixOf(t)) }

  /** Items whose one call is an apply. */
  predicate Applies(t: Item) {
    t.ApplyServiceAccount? || t.ApplySessionsClaim? || t.ApplyProxyCacheClaim? || t.ApplySSLConfig?
    || t.ApplyPostgresSet? || t.ApplyPostgresService? || t.ApplyPostgresPolicy? || t.ApplyAbbenayConfig?
    || t.ApplyAbbenayClaim? || t.ApplyEngineService? || t.ApplyGatewayService? || t.ApplyUIService?
    || t.ApplyIngress? || t.ApplyPolicy?
  }

  predicate Wants(t: Item) { t.WantUIRoute? || t.WantAPIRoute? }

  predicate Unwants(t: Item) { t.UnwantUIRoute? || t.UnwantAPIRoute? }

  function AppliedPayload(d: Desired, t: Item): Payload
    requires Applies(t)
  {
    match t
    case ApplyPostgresSet => PostgresPayload(d)
    case ApplyPostgresService => ServicePayload(POSTGRES, [5432])
    case ApplyEngineService => ServicePayload(ENGINE, EnginePorts(d))
    case ApplyGatewayService => ServicePayload(ENGINE, [8080])
    case ApplyUIService => ServicePayload(ENGINE, [8081])
    case ApplyIngress => IngressPayload(d)
    case _ => PlainPayload(d)
  }

  function WantedPayload(d: Desired, t: Item): Payload
    requires Wants(t)
  {
    if t.WantUIRoute? then UIRoutePayload(d) else APIRoutePayload(d)
  }

  // ---- The config checksum ----

  /** The bytes of a Go string. */
  function BytesOf(s: string): Checksum.Bytes {
    seq(|s|, i requires 0 <= i < |s| => s[i] as int % 256)
  }

  /** The eight-part call of applyWorkload. */
  function ChecksumParts(d: Desired, token: string, ca: string): seq<Checksum.Bytes> {
    [BytesOf(d.database.secretName), BytesOf(d.database.secretKey), BytesOf(d.database.tlsSecretName),
     BytesOf(d.abbenay.tokenName), BytesOf(d.proxy.tokenName), BytesOf(token), BytesOf(d.version), BytesOf(ca)]
  }

  ghost function ChecksumOf(d: Desired, token: string, ca: string): string {
    Checksum.Digest(ChecksumParts(d, token, ca))
  }

  // ---- Routes ----

  /** routeNeedsRecreate */
  predicate NeedsRecreate(existing: Payload, desired: Payload) {
    || TextOf(existing, Path) != TextOf(desired, Path)
    || (if DesiredHost in existing then TextOf(existing, DesiredHost) != TextOf(desired, DesiredHost)
        else TextOf(desired, Host) != "" && TextOf(existing, Host) != TextOf(desired, Host))
  }

  /** The live host joins the payload when the resource gives none, so that apply does not clear it. */
  function PreserveHost(existing: Payload, desired: Payload): Payload {
    if TextOf(desired, Host) == "" && TextOf(existing, Host) != ""
    then desired[Host := Cluster.Text(TextOf(existing, Host))] else desired
  }

  // ---- Single calls ----

  /** The next thing a step does, given what its earlier reads have `seen`. */
  datatype Action =
    | Get(key: Key)
    | Patch(key: Key, payload: Payload)
    | Create(key: Key, payload: Payload)
    | Update(key: Key, version: nat, changes: Payload)
    | Delete(key: Key)
    | Finish(leftover: bool)
    | Fail(ending: Ending)

  ghost function NextAction(inst: Instance, d: Desired, t: Item, seen: seq<Slot>, m: Material): Action {
    if Applies(t) then Patch(WriteKey(d.name, t), AppliedPayload(d, t))
    else if t.ApplyDeployment? then DeploymentAction(inst, d, seen)
    else if seen == [] then Get(ReadKey(d, t))
    else EnsureAction(inst, d, t, seen[0], m)
  }

  /** The object a step that is not a plain apply looks at first. */
  function ReadKey(d: Desired, t: Item): Key
    requires !Applies(t)
  {
    match t
    case SeeLeftover => Key(StatefulSet, d.name + "-postgres")
    case EnsureTLS => Key(Secret, d.database.tlsSecretName)
    case EnsureDatabaseSecret => Key(Secret, d.database.secretName)
    case EnsureAbbenayToken => Key(Secret, d.abbenay.tokenName)
    case EnsureProxyToken => Key(Secret, d.proxy.tokenName)
    case ApplyDeployment => Key(Secret, d.proxy.tokenName)
    case _ => WriteKey(d.name, t)
  }

  /** What a step does once it has read its object. */
  ghost function EnsureAction(inst: Instance, d: Desired, t: Item, s: Slot, m: Material): Action
    requires !Applies(t) && !t.ApplyDeployment?
  {
    match t
    case SeeLeftover => Finish(s.obj.Some?)
    case EnsureTLS => TLSAction(d, s, m)
    case EnsureDatabaseSecret => DatabaseSecretAction(inst, d, s, m)
    case EnsureAbbenayToken =>
      if s.obj.Some? then Finish(false)
      else Create(Key(Secret, d.name + "-abbenay"), TokenPayload(d.abbenay.tokenKey, m.token))
    case EnsureProxyToken => ProxyTokenAction(inst, d, s, m)
    case _ => RouteAction(inst, d, t, s)
  }

  function TLSAction(d: Desired, s: Slot, m: Material): Action {
    if s.obj.Some? then
      if HasTLSMaterial(s.obj.value.fields) then Finish(false) else Fail(OtherError)
    else if !d.database.generateTLS then Fail(OtherError)
    else Create(Key(Secret, d.database.tlsSecretName), TLSPayload(m))
  }

  ghost function DatabaseSecretAction(inst: Instance, d: Desired, s: Slot, m: Material): Action {
    var key := Key(Secret, d.database.secretName);
    if s.obj.None? then Create(key, DatabaseSecretPayload(d.name, d.namespace, m.password))
    else
      var raw := TextOf(s.obj.value.fields, URL);
      if raw == "" then Finish(false)
      else
        var updated := inst.verifyFull(raw);
        if updated.None? then Fail(OtherError)
        else if updated.value == raw then Finish(false)
        else Update(key, s.version, map[URL := Cluster.Text(updated.value)])
  }

  function ProxyTokenAction(inst: Instance, d: Desired, s: Slot, m: Material): Action {
    if s.obj.Some? then
      if !ControlledBy(s.obj.value, inst.uid) then Fail(OtherError)
      else if TextOf(s.obj.value.fields, Data(d.proxy.tokenKey)) == "" then Fail(OtherError)
      else Finish(false)
    else Create(Key(Secret, d.proxy.tokenName), TokenPayload(d.proxy.tokenKey, m.token))
  }

  function RouteAction(inst: Instance, d: Desired, t: Item, s: Slot): Action {
    var key := WriteKey(d.name, t);
    if Wants(t) then
      var desired := WantedPayload(d, t);
      if s.obj.None? then Patch(key, desired)
      else if s.obj.value.deleting then Finish(false)
      else if ControlledBy(s.obj.value, inst.uid) && NeedsRecreate(s.obj.value.fields, desired) then Delete(key)
      else Patch(key, PreserveHost(s.obj.value.fields, desired))
    else if s.obj.None? || !ControlledBy(s.obj.value, inst.uid) then Finish(false)
    else Delete(key)
  }

  /** The token first, then the CA bundle if one is configured, then the Deployment. */
  ghost function DeploymentAction(inst: Instance, d: Desired, seen: seq<Slot>): Action {
    var key := WriteKey(d.name, ApplyDeployment);
    if |seen| == 0 then Get(Key(Secret, d.proxy.tokenName))
    else if seen[0].obj.None? then Fail(OtherError)
    else
      var token := TextOf(seen[0].obj.value.fields, Data(d.proxy.tokenKey));
      if d.proxy.caConfigMap == "" then Patch(key, WorkloadPayload(d, ChecksumOf(d, token, "")))
      else if |seen| == 1 then Get(Key(ConfigMap, d.proxy.caConfigMap))
      else if seen[1].obj.None? then Fail(OtherError)
      else
        var ca := TextOf(seen[1].obj.value.fields, Data(d.proxy.caKey));
        if inst.usableCA(ca) then Patch(key, WorkloadPayload(d, ChecksumOf(d, token, ca))) else Fail(OtherError)
  }

  /** How a step ends when a call failed with `e`: a forbidden Route apply that is about hosts is told apart. */
  function EndingOf(d: Desired, t: Item, e: ApiError): Ending {
    if Wants(t) && e.Forbidden? && (d.exposure.routeHost != "" || e.customHost) then RoutePermission else OtherError
  }
}
