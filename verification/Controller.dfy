/** ApmeReconciler of internal/controller/apme_controller.go and routes.go, call by call. What each method asks of the
    API server is its contract, and a whole reconcile is shown to be a run of the state machine. */
module Controller {
  import opened Lists
  import opened Options
  import opened ObjectNames
  import opened PluginPorts
  import opened Resolve
  import opened Cluster
  import opened Manifests
  import opened Plan
  import opened Machine
  import opened Reach
  import opened Incarnations
  import opened Exchanges
  import opened Parts
  import opened Readiness
  import opened SecretContents
  import opened Refinement
  import Status
  import Checksum
  import DatabaseUrl

  /** What one request meets: how it fares, and what others do to the store after it. */
  datatype Event = Event(input: Input, others: Store -> Store)

  ghost predicate Fair(inst: Instance, e: Event) {
    Drawn(e.input.material) && forall store :: AllWellBorn(store) ==> Bystanders(inst, store, e.others(store))
  }

  lemma NoOneActs(inst: Instance, store: Store)
    requires AllWellBorn(store)
    ensures Bystanders(inst, store, store)
  {
    forall k
      ensures Bystander(inst.name, inst.uid, k, At(store, k), At(store, k))
    {
      BystanderReflexive(inst.name, inst.uid, k, At(store, k));
    }
  }

  lemma ServedWellBorn(uid: Uid, store: Store, r: Request, i: Input)
    requires AllWellBorn(store)
    ensures AllWellBorn(StoreServed(uid, store, r, i))
  {
    forall k
      ensures WellBorn(At(StoreServed(uid, store, r, i), k))
    {
      assert WellBorn(At(store, k));
      if r.Object? && Writes(r.action) && k == r.action.key && Answer(uid, At(store, k), r.action, i.lingers).Done? {
        AnswerWellBorn(uid, At(store, k), r.action, i.lingers);
      }
    }
  }

  /** The API server as the operator's client sees it, and what surrounds it. */
  class Client {
    const inst: Instance

    /** The objects. */
    var store: Store

    /** What the next request meets, and what the ones after it will. */
    var input: Input
    var script: seq<Event>

    /** All that was asked so far. */
    ghost var log: seq<Exchange>

    /** The surroundings are fair, and the log tells how the store became what it is. */
    ghost predicate Truthful()
      reads this
    {
      Drawn(input.material) && (forall e :: e in script ==> Fair(inst, e)) && Recorded(inst, log, store)
    }

    constructor (inst: Instance, store: Store, input: Input, script: seq<Event>)
      requires AllWellBorn(store) && Drawn(input.material) && forall e :: e in script ==> Fair(inst, e)
      ensures Truthful() && this.inst == inst && this.store == store && log == []
    {
      this.inst, this.store, this.input, this.script := inst, store, input, script;
      log := [];
    }

    /** Others act, and the fate of the next request is drawn. */
    method Wait()
      requires AllWellBorn(store) && Drawn(input.material) && forall e :: e in script ==> Fair(inst, e)
      modifies `store, `input, `script
      ensures Bystanders(inst, old(store), store)
      ensures Drawn(input.material) && forall e :: e in script ==> Fair(inst, e)
    {
      if |script| > 0 {
        var e := script[0];
        assert Fair(inst, e);
        store, input, script := e.others(store), e.input, script[1..];
      } else {
        NoOneActs(inst, store);
      }
    }

    /** One request: it is served, others act, and the fate of the next one is drawn. */
    method Ask(r: Request) returns (ghost c: Exchange)
      requires Truthful() && (r.Object? ==> r.action.Get? || Writes(r.action))
      modifies this
      ensures Truthful() && log == old(log) + [c] && c == Exchange(r, old(input), old(store), store)
    {
      ghost var met, was := input, store;
      RecordedWellBorn(inst, log, store);
      ServedWellBorn(inst.uid, store, r, input);
      store := StoreServed(inst.uid, store, r, input);
      Wait();
      c := Exchange(r, met, was, store);
      assert (log + [c])[..|log|] == log;
      log := log + [c];
    }

    /** One call on an object, its reply and its error: the new store is what the call makes of the old one, after which
        others have acted. */
    method Call(a: Action) returns (reply: Slot, error: Option<ApiError>, ghost c: Exchange)
      requires Truthful() && (a.Get? || Writes(a))
      modifies this
      ensures Truthful() && log == old(log) + [c] && c == Exchange(Object(a), old(input), old(store), store)
      ensures Bystanders(inst, StoreAfter(inst.uid, old(store), a, old(input)), store)
      ensures error == ErrorSeen(inst.uid, old(store), a, old(input))
      ensures a.Get? && error.None? ==> reply == At(old(store), a.key)
    {
      reply := if a.Get? then At(store, a.key) else EMPTY;
      error := ErrorSeen(inst.uid, store, a, input);
      c := Ask(Object(a));
      assert Happened(inst, log[|log| - 1]);
    }

    /** client.Get; a name that is not taken is an error. */
    method Get(key: Key) returns (existing: Slot, err: Option<ApiError>, ghost c: Exchange)
      requires Truthful()
      modifies this
      ensures Truthful() && log == old(log) + [c] && Gets(c, key) && err == Failure(inst.uid, c)
      ensures (err.None? <==> Found(c, key)) && (err == Some(NotFound) <==> Missing(c, key))
      ensures err.None? ==> existing == At(c.before, key)
    {
      existing, err, c := Call(Action.Get(key));
      if err.None? && existing.obj.None? {
        err := Some(NotFound);
      }
    }

    /** Patch, Create, Update and Delete. */
    method Write(a: Action) returns (err: Option<ApiError>, ghost c: Exchange)
      requires Truthful() && Writes(a)
      modifies this
      ensures Truthful() && log == old(log) + [c] && c.request == Object(a) && c.input == old(input)
      ensures err == Failure(inst.uid, c)
    {
      var _, e, made := Call(a);
      err, c := e, made;
    }

    /** A write of which any error ends the reconcile. */
    method Save(a: Action) returns (err: Option<Ending>, ghost c: Exchange)
      requires Truthful() && Writes(a)
      modifies this
      ensures Truthful() && log == old(log) + [c] && c.request == Object(a) && c.input == old(input)
      ensures err == Problem(inst.uid, c)
    {
      var e;
      e, c := Write(a);
      err := if e.None? then None else Some(Status.OtherError);
    }
  }

  class ApmeReconciler {
    const inst: Instance
    const client: Client

    /** The Apme resource. */
    var spec: ApmeSpec
    var generation: nat
    var status: Status.Status

    /** The state of the machine between reconciles. */
    ghost var sys: Sys

    ghost predicate Truthful()
      reads client
    {
      client.inst == inst && client.Truthful()
    }

    /** Between reconciles the machine is idle, in a reachable state, and agrees with the store and the resource. */
    ghost predicate Valid()
      reads this, client
    {
      && Truthful() && Reachable(inst, sys) && sys.run.Idle? && Admitted(spec.plugins)
      && sys.store == client.store && sys.spec == spec && sys.generation == generation && sys.status == status
    }

    constructor (client: Client, spec: ApmeSpec, status: Status.Status)
      requires client.Truthful()
      requires Initial(client.inst, Sys(client.store, spec, 1, status, Idle, [], []))
      ensures Valid() && this.client == client && sys == Sys(client.store, spec, 1, status, Idle, [], [])
    {
      this.inst, this.client, this.spec, this.generation, this.status := client.inst, client, spec, 1, status;
      sys := Sys(client.store, spec, 1, status, Idle, [], []);
      InitialReachable(client.inst, Sys(client.store, spec, 1, status, Idle, [], []));
    }

    // ---- Applies ----

    /** apply: server-side apply of one object. */
    method Apply(key: Key, payload: Payload) returns (err: Option<Ending>, ghost c: Exchange)
      requires Truthful()
      modifies client
      ensures Truthful() && client.log == old(client.log) + [c]
      ensures c.request == Object(Patch(key, payload)) && err == Problem(inst.uid, c)
    {
      err, c := client.Save(Patch(key, payload));
    }

    /** Applies the objects one after the other, up to the first error. */
    method ApplyAll(objs: seq<(Key, Payload)>) returns (err: Option<Ending>, ghost made: seq<Exchange>)
      requires Truthful()
      modifies client
      ensures Truthful() && client.log == old(client.log) + made && ApplyCalls(inst.uid, objs, made, err)
    {
      made := [];
      for i := 0 to |objs|
        invariant Truthful() && client.log == old(client.log) + made && ApplyCalls(inst.uid, objs[..i], made, None)
      {
        var e, c := Apply(objs[i].0, objs[i].1);
        ApplyMore(inst.uid, objs, i, made, c);
        Regroup(old(client.log), made, [c]);
        made := made + [c];
        if e.Some? {
          return e, made;
        }
      }
      assert objs[..|objs|] == objs;
      err := None;
    }

    // ---- The database ----

    method EnsurePostgresTLS(d: Desired) returns (err: Option<Ending>, ghost made: seq<Exchange>)
      requires Truthful()
      modifies client
      ensures Truthful() && client.log == old(client.log) + made && TLSCalls(inst.uid, d, made, err)
      ensures TLSInHand(inst.uid, d, made, err)
    {
      var existing, e, c := client.Get(Key(Secret, d.database.tlsSecretName));
      made := [c];
      if e.None? {
        if !HasTLSMaterial(existing.obj.value.fields) {
          return Some(Status.OtherError), made;
        }
        return None, made;
      }
      if e != Some(NotFound) || !d.database.generateTLS {
        return Some(Status.OtherError), made;
      }
      ghost var c';
      err, c' := client.Save(Create(Key(Secret, d.database.tlsSecretName), TLSPayload(client.input.material)));
      made := [c, c'];
    }

    method EnsurePostgresSecret(d: Desired) returns (err: Option<Ending>, ghost made: seq<Exchange>)
      requires Truthful()
      modifies client
      ensures Truthful() && client.log == old(client.log) + made && DatabaseSecretCalls(inst, d, made, err)
      ensures CredentialsCreated(inst.uid, d, made, err)
    {
      var existing, e, c := client.Get(Key(Secret, d.database.secretName));
      if e.None? {
        ghost var rest;
        err, rest := EnsurePostgresURLTLS(Key(Secret, d.database.secretName), existing);
        Regroup(old(client.log), [c], rest);
        assert ([c] + rest)[1..] == rest;
        made := [c] + rest;
        return;
      }
      made := [c];
      if e != Some(NotFound) {
        return Some(Status.OtherError), made;
      }
      ghost var c';
      err, c' := CreatePostgresSecret(d);
      made := [c, c'];
      CallsCreateCredentials(inst, d, made, err);
    }

    method CreatePostgresSecret(d: Desired) returns (err: Option<Ending>, ghost c: Exchange)
      requires Truthful()
      modifies client
      ensures Truthful() && client.log == old(client.log) + [c] && Letters(c.input.material.password)
      ensures Creates(inst.uid, c, Key(Secret, d.database.secretName),
                      DatabaseSecretPayload(d.name, d.namespace, c.input.material.password), err)
    {
      err, c := client.Save(Create(Key(Secret, d.database.secretName),
                                   DatabaseSecretPayload(d.name, d.namespace, client.input.material.password)));
    }

    method EnsurePostgresURLTLS(key: Key, sec: Slot) returns (err: Option<Ending>, ghost made: seq<Exchange>)
      requires Truthful() && sec.obj.Some?
      modifies client
      ensures Truthful() && client.log == old(client.log) + made && UrlCalls(inst, key, sec, made, err)
    {
      made := [];
      var raw := TextOf(sec.obj.value.fields, URL);
      if raw == "" {
        return None, made;
      }
      var updated := DatabaseUrl.WithVerifyFullTLS(inst.text, raw);
      if updated.None? {
        return Some(Status.OtherError), made;
      }
      if updated.value == raw {
        return None, made;
      }
      ghost var c;
      err, c := client.Save(Update(key, sec.version, map[URL := Cluster.Text(updated.value)]));
      made := [c];
    }

    /** Any error of the look counts as absent. */
    method ManagedPostgresExists(d: Desired) returns (leftover: bool, ghost made: seq<Exchange>)
      requires Truthful()
      modifies client
      ensures Truthful() && client.log == old(client.log) + made && LeftoverCalls(d, made, leftover)
    {
      var existing, e, c := client.Get(Key(StatefulSet, d.name + "-postgres"));
      leftover, made := e.None?, [c];
    }

    // ---- Tokens ----

    method EnsureAbbenayTokenSecret(d: Desired) returns (err: Option<Ending>, ghost made: seq<Exchange>)
      requires Truthful()
      modifies client
      ensures Truthful() && client.log == old(client.log) + made && AbbenayTokenCalls(inst.uid, d, made, err)
      ensures d.abbenay.tokenName == d.name + "-abbenay" ==>
                TokenInHand(inst.uid, Key(Secret, d.abbenay.tokenName), d.abbenay.tokenKey, made, err)
    {
      var existing, e, c := client.Get(Key(Secret, d.abbenay.tokenName));
      made := [c];
      if e.None? {
        return None, made;
      }
      if e != Some(NotFound) {
        return Some(Status.OtherError), made;
      }
      ghost var c';
      err, c' := client.Save(Create(Key(Secret, d.name + "-abbenay"),
                                    TokenPayload(d.abbenay.tokenKey, client.input.material.token)));
      made := [c, c'];
    }

    method EnsureProxyAdminToken(d: Desired) returns (err: Option<Ending>, ghost made: seq<Exchange>)
      requires Truthful()
      modifies client
      ensures Truthful() && client.log == old(client.log) + made && ProxyTokenCalls(inst.uid, d, made, err)
      ensures TokenInHand(inst.uid, Key(Secret, d.proxy.tokenName), d.proxy.tokenKey, made, err)
    {
      var existing, e, c := client.Get(Key(Secret, d.proxy.tokenName));
      made := [c];
      if e.None? {
        if !ControlledBy(existing.obj.value, inst.uid) {
          return Some(Status.OtherError), made;
        }
        if TextOf(existing.obj.value.fields, Data(d.proxy.tokenKey)) == "" {
          return Some(Status.OtherError), made;
        }
        return None, made;
      }
      if e != Some(NotFound) {
        return Some(Status.OtherError), made;
      }
      ghost var c';
      err, c' := client.Save(Create(Key(Secret, d.proxy.tokenName),
                                    TokenPayload(d.proxy.tokenKey, client.input.material.token)));
      made := [c, c'];
    }

    // ---- Routes ----

    /** When the resource gives no host, the live one joins the payload. */
    method KeepLiveHost(existing: Payload, desired: Payload) returns (payload: Payload)
      ensures payload == PreserveHost(existing, desired)
    {
      payload := desired;
      if TextOf(desired, Host) == "" {
        var live := TextOf(existing, Host);
        if live != "" {
          payload := payload[Host := Cluster.Text(live)];
        }
      }
    }

    method ApplyOrRecreateRoute(key: Key, desired: Payload) returns (err: Option<ApiError>, ghost made: seq<Exchange>)
      requires Truthful()
      modifies client
      ensures Truthful() && client.log == old(client.log) + made
      ensures WantedRouteCalls(inst.uid, key, desired, made) && err == RouteError(inst.uid, made)
    {
      var existing, e, c := client.Get(key);
      if e.None? {
        ghost var rest;
        err, rest := ApplyToExisting(key, existing.obj.value, desired);
        made := [c] + rest;
        return;
      }
      made := [c];
      if e != Some(NotFound) {
        return e, made;
      }
      ghost var c';
      err, c' := client.Write(Patch(key, desired));
      made := [c, c'];
    }

    /** Waits while the Route is being deleted, deletes an owned one that has to move, and otherwise applies, with
        the live host where the resource gives none. */
    method ApplyToExisting(key: Key, existing: Obj, desired: Payload)
      returns (err: Option<ApiError>, ghost made: seq<Exchange>)
      requires Truthful()
      modifies client
      ensures Truthful() && client.log == old(client.log) + made
      ensures ExistingRouteCalls(inst.uid, key, existing, desired, made) && err == RouteError(inst.uid, made)
    {
      made := [];
      if existing.deleting {
        return None, made;
      }
      ghost var c;
      if ControlledBy(existing, inst.uid) && NeedsRecreate(existing.fields, desired) {
        err, c := client.Write(Delete(key));
      } else {
        var payload := KeepLiveHost(existing.fields, desired);
        err, c := client.Write(Patch(key, payload));
      }
      made := [c];
    }

    method DeleteOwnedRoute(key: Key) returns (err: Option<Ending>, ghost made: seq<Exchange>)
      requires Truthful()
      modifies client
      ensures Truthful() && client.log == old(client.log) + made && UnwantedRouteCalls(inst.uid, key, made, err)
    {
      var existing, e, c := client.Get(key);
      made := [c];
      if e == Some(NotFound) {
        return None, made;
      }
      if e.Some? {
        return Some(Status.OtherError), made;
      }
      if !ControlledBy(existing.obj.value, inst.uid) {
        return None, made;
      }
      ghost var c';
      e, c' := client.Write(Delete(key));
      made := [c, c'];
      if e.None? || e == Some(NotFound) {
        return None, made;
      }
      err := Some(Status.OtherError);
    }

    /** wrapRouteApplyErr: a Route error is a permission error exactly when the call was forbidden and is about hosts. */
    method WrapRouteApplyErr(d: Desired, e: Option<ApiError>) returns (err: Option<Ending>)
      ensures err.None? <==> e.None?
      ensures err == Some(Status.RoutePermission) <==>
                e.Some? && e.value.Forbidden? && (d.exposure.routeHost != "" || e.value.customHost)
      ensures err != Some(Status.Fine)
    {
      if e.None? {
        return None;
      }
      if !e.value.Forbidden? {
        return Some(Status.OtherError);
      }
      if d.exposure.routeHost != "" || e.value.customHost {
        return Some(Status.RoutePermission);
      }
      return Some(Status.OtherError);
    }

    // ---- Parts of ensureAll ----

    method ApplyCore(d: Desired) returns (err: Option<Ending>, ghost made: seq<Exchange>)
      requires Truthful()
      modifies client
      ensures Truthful() && client.log == old(client.log) + made && ApplyCalls(inst.uid, CoreObjects(d), made, err)
    {
      err, made := ApplyAll([(Key(ServiceAccount, d.name + ""), PlainPayload(d)),
                             (Key(PersistentVolumeClaim, d.name + "-sessions"), PlainPayload(d)),
                             (Key(PersistentVolumeClaim, d.name + "-proxy-cache"), PlainPayload(d))]);
    }

    /** In External mode one look; in Managed mode TLS, Secret, config, StatefulSet, Service and policy, in that order and
        up to the first error. */
    method EnsureDatabase(d: Desired) returns (leftover: bool, err: Option<Ending>, ghost made: seq<Exchange>)
      requires Truthful()
      modifies client
      ensures Truthful() && client.log == old(client.log) + made
      ensures PlanCalls(inst, d, DatabaseItems(d), made, false, leftover, err)
    {
      leftover, err := false, None;
      if d.database.mode != Managed {
        leftover, made := ManagedPostgresExists(d);
        FirstItem(inst, d, DatabaseItems(d), SeeLeftover, made, leftover, None);
        return;
      }
      err, made := EnsureManagedDatabase(d);
    }

    method EnsureManagedDatabase(d: Desired) returns (err: Option<Ending>, ghost made: seq<Exchange>)
      requires Truthful() && d.database.mode == Managed
      modifies client
      ensures Truthful() && client.log == old(client.log) + made
      ensures PlanCalls(inst, d, DatabaseItems(d), made, false, false, err)
    {
      err, made := EnsurePostgresSecrets(d);
      if err.Some? {
        return;
      }
      ghost var more;
      err, more := ApplyPostgres(d);
      PostgresApplied(inst, d, made, more, err);
      Regroup(old(client.log), made, more);
      made := made + more;
    }

    method EnsurePostgresSecrets(d: Desired) returns (err: Option<Ending>, ghost made: seq<Exchange>)
      requires Truthful() && d.database.mode == Managed
      modifies client
      ensures Truthful() && client.log == old(client.log) + made
      ensures PlanCalls(inst, d, if err.None? then SecretItems() else DatabaseItems(d), made, false, false, err)
    {
      err, made := EnsurePostgresTLS(d);
      TLSDone(inst, d, made, err);
      if err.Some? {
        return;
      }
      ghost var more;
      err, more := EnsurePostgresSecret(d);
      SecretDone(inst, d, made, more, err);
      Regroup(old(client.log), made, more);
      made := made + more;
    }

    method ApplyPostgres(d: Desired) returns (err: Option<Ending>, ghost made: seq<Exchange>)
      requires Truthful()
      modifies client
      ensures Truthful() && client.log == old(client.log) + made && ApplyCalls(inst.uid, PostgresObjects(d), made, err)
    {
      var objs := [(Key(ConfigMap, d.name + "-postgres-ssl"), PlainPayload(d)),
                   (Key(StatefulSet, d.name + "-postgres"), PostgresPayload(d)),
                   (Key(Service, d.name + "-postgres"), ServicePayload(POSTGRES, [5432]))];
      if d.networkPolicy {
        objs := objs + [(Key(NetworkPolicy, d.name + "-postgres"), PlainPayload(d))];
      }
      err, made := ApplyAll(objs);
    }

    /** Token, config and claim, as the toggles call for them. */
    method EnsureAbbenay(d: Desired) returns (err: Option<Ending>, ghost made: seq<Exchange>)
      requires Truthful()
      modifies client
      ensures Truthful() && client.log == old(client.log) + made
      ensures PlanCalls(inst, d, AbbenayItems(d), made, false, false, err)
    {
      err, made := None, [];
      if !d.abbenay.enabled {
        AbbenayOff(inst, d);
        return;
      }
      err, made := GenerateAbbenayToken(d);
      if err.Some? {
        return;
      }
      ghost var more;
      err, more := ApplyAbbenay(d);
      AbbenayApplied(inst, d, made, more, err);
      Regroup(old(client.log), made, more);
      made := made + more;
    }

    /** The token Secret, if the operator is to generate it. */
    method GenerateAbbenayToken(d: Desired) returns (err: Option<Ending>, ghost made: seq<Exchange>)
      requires Truthful() && d.abbenay.enabled
      modifies client
      ensures Truthful() && client.log == old(client.log) + made
      ensures PlanCalls(inst, d, if err.None? then AbbenayTokens(d) else AbbenayItems(d), made, false, false, err)
    {
      err, made := None, [];
      if d.abbenay.generateToken {
        err, made := EnsureAbbenayTokenSecret(d);
      }
      AbbenayTokenDone(inst, d, made, err);
    }

    method ApplyAbbenay(d: Desired) returns (err: Option<Ending>, ghost made: seq<Exchange>)
      requires Truthful()
      modifies client
      ensures Truthful() && client.log == old(client.log) + made && ApplyCalls(inst.uid, AbbenayObjects(d), made, err)
    {
      var objs: seq<(Key, Payload)> := [];
      if d.abbenay.configMap == "" {
        objs := objs + [(Key(ConfigMap, d.name + "-abbenay-config"), PlainPayload(d))];
      }
      if d.abbenay.persist {
        objs := objs + [(Key(PersistentVolumeClaim, d.name + "-abbenay-config"), PlainPayload(d))];
      }
      err, made := ApplyAll(objs);
    }

    // ---- The workload ----

    /** The Deployment's inputs are read first: the token, and the CA bundle if one is configured. */
    method ReadDeploymentInputs(d: Desired)
      returns (token: string, ca: string, err: Option<Ending>, ghost made: seq<Exchange>)
      requires Truthful()
      modifies client
      ensures Truthful() && client.log == old(client.log) + made && InputCalls(inst, d, made, token, ca, err)
    {
      token, ca, err := "", "", None;
      var proxyToken, e, c := client.Get(Key(Secret, d.proxy.tokenName));
      made := [c];
      if e.Some? {
        return token, ca, Some(Status.OtherError), made;
      }
      token := TextOf(proxyToken.obj.value.fields, Data(d.proxy.tokenKey));
      if d.proxy.caConfigMap != "" {
        var cm, e', c' := client.Get(Key(ConfigMap, d.proxy.caConfigMap));
        made := [c, c'];
        if e'.Some? {
          return token, ca, Some(Status.OtherError), made;
        }
        ca := TextOf(cm.obj.value.fields, Data(d.proxy.caKey));
        if !inst.usableCA(ca) {
          err := Some(Status.OtherError);
        }
      }
    }

    /** The Deployment is applied with the checksum of its inputs. */
    method ApplyDeploymentWith(d: Desired, token: string, ca: string)
      returns (err: Option<Ending>, ghost made: seq<Exchange>)
      requires Truthful()
      modifies client
      ensures Truthful() && client.log == old(client.log) + made && DeploymentApply(inst.uid, d, token, ca, made, err)
    {
      var sum := Checksum.Sum(ChecksumParts(d, token, ca));
      ghost var c;
      err, c := Apply(Key(Deployment, d.name + ""), WorkloadPayload(d, sum));
      made := [c];
    }

    method RollOut(d: Desired) returns (err: Option<Ending>, ghost made: seq<Exchange>)
      requires Truthful()
      modifies client
      ensures Truthful() && client.log == old(client.log) + made && DeploymentCalls(inst, d, made, err)
    {
      var token, ca;
      token, ca, err, made := ReadDeploymentInputs(d);
      if err.Some? {
        assert made[..|made|] == made;
        return;
      }
      ghost var n, more := |made|, [];
      err, more := ApplyDeploymentWith(d, token, ca);
      assert (made + more)[..n] == made && (made + more)[n..] == more;
      Regroup(old(client.log), made, more);
      made := made + more;
    }

    /** The Services, the Ingress and the network policy. */
    method ApplyServices(d: Desired) returns (err: Option<Ending>, ghost made: seq<Exchange>)
      requires Truthful()
      modifies client
      ensures Truthful() && client.log == old(client.log) + made && ApplyCalls(inst.uid, ServiceObjects(d), made, err)
    {
      var ports := EngineServicePorts(d);
      var objs := [(Key(Service, d.name + "-engine"), ServicePayload(ENGINE, ports)),
                   (Key(Service, d.name + "-gateway"), ServicePayload(ENGINE, [8080]))];
      if d.components.ui {
        objs := objs + [(Key(Service, d.name + "-ui"), ServicePayload(ENGINE, [8081]))];
      }
      if d.exposure.ingressEnabled {
        objs := objs + [(Key(Ingress, d.name + ""), IngressPayload(d))];
      }
      if d.networkPolicy {
        objs := objs + [(Key(NetworkPolicy, d.name + "-engine"), PlainPayload(d))];
      }
      assert objs == ServiceObjects(d);
      err, made := ApplyAll(objs);
    }

    /** The Deployment after its inputs, then Services, Ingress and policy, and the Routes last. */
    method ApplyWorkload(d: Desired) returns (err: Option<Ending>, ghost made: seq<Exchange>)
      requires Truthful()
      modifies client
      ensures Truthful() && client.log == old(client.log) + made
      ensures PlanCalls(inst, d, LastItems(inst, d), made, false, false, err)
    {
      ghost var more;
      err, made := RollOut(d);
      DeploymentDone(inst, d, made, err);
      if err.Some? {
        return;
      }
      err, more := ApplyServices(d);
      ServicesApplied(inst, d, made, more, err);
      Regroup(old(client.log), made, more);
      made := made + more;
      if err.Some? {
        return;
      }
      err, more := EnsureRoutes(d);
      PlanNext(inst, d, LastItems(inst, d), WorkloadItems(d), RouteItems(inst, d), made, more, false, false, err);
      Regroup(old(client.log), made, more);
      made := made + more;
    }

    /** The wanted Route is applied or recreated, the unwanted one deleted. */
    method EnsureRoute(d: Desired, t: Item, payload: Payload) returns (err: Option<Ending>, ghost made: seq<Exchange>)
      requires Truthful() && (Unwants(t) || (Wants(t) && payload == WantedPayload(d, t)))
      modifies client
      ensures Truthful() && client.log == old(client.log) + made && ItemCalls(inst, d, t, made, false, err)
    {
      if Wants(t) {
        var e;
        e, made := ApplyOrRecreateRoute(WriteKey(d.name, t), payload);
        err := WrapRouteApplyErr(d, e);
        WantedRouteItem(inst, d, t, made, err);
      } else {
        err, made := DeleteOwnedRoute(WriteKey(d.name, t));
        UnwantedRouteItem(inst, d, t, made, err);
      }
    }

    method EnsureRoutes(d: Desired) returns (err: Option<Ending>, ghost made: seq<Exchange>)
      requires Truthful()
      modifies client
      ensures Truthful() && client.log == old(client.log) + made
      ensures PlanCalls(inst, d, RouteItems(inst, d), made, false, false, err)
    {
      err, made := None, [];
      if !inst.routeAPI {
        return;
      }
      var wantUI := d.exposure.routeEnabled && d.components.ui;
      var wantAPI := d.exposure.routeEnabled;
      var ui := if wantUI then WantUIRoute else UnwantUIRoute;
      var api := if wantAPI then WantAPIRoute else UnwantAPIRoute;
      err, made := EnsureRoute(d, ui, UIRoutePayload(d));
      RouteDone(inst, d, ui, api, made, err);
      if err.Some? {
        return;
      }
      ghost var more;
      err, more := EnsureRoute(d, api, APIRoutePayload(d));
      RoutesDone(inst, d, ui, api, made, more, err);
      Regroup(old(client.log), made, more);
      made := made + more;
    }

    /** ensureAll: the calls for the whole plan of the intent, in order and up to the first error, and the leftover seen. */
    method EnsureAll(d: Desired) returns (leftover: bool, err: Option<Ending>, ghost made: seq<Exchange>)
      requires Truthful()
      modifies client
      ensures Truthful() && client.log == old(client.log) + made
      ensures PlanCalls(inst, d, Items(inst, d), made, false, leftover, err)
    {
      leftover := false;
      ghost var more;
      err, made := ApplyCore(d);
      CoreDone(inst, d, made, err);
      if err.Some? {
        return;
      }
      leftover, err, more := EnsureDatabase(d);
      DatabaseDone(inst, d, made, more, leftover, err);
      Regroup(old(client.log), made, more);
      made := made + more;
      if err.Some? {
        return;
      }
      err, more := EnsureAbbenay(d);
      AbbenayDone(inst, d, made, more, leftover, err);
      Regroup(old(client.log), made, more);
      made := made + more;
      if err.Some? {
        return;
      }
      err, more := EnsureProxyAdminToken(d);
      TokenDone(inst, d, made, more, leftover, err);
      Regroup(old(client.log), made, more);
      made := made + more;
      if err.Some? {
        return;
      }
      err, more := ApplyWorkload(d);
      WorkloadDone(inst, d, made, more, leftover, err);
      Regroup(old(client.log), made, more);
      made := made + more;
    }

    // ---- patchStatus ----

    /** client.Get in patchStatus: any error counts as absent. */
    method Look(key: Key) returns (found: Slot, ghost c: Exchange)
      requires Truthful()
      modifies client
      ensures Truthful() && client.log == old(client.log) + [c] && Tells(c, key, found)
    {
      var e;
      found, e, c := client.Call(Action.Get(key));
      if e.Some? {
        found := EMPTY;
      }
    }

    /** The reads of publicURL, databaseReady and deploymentReady, in turn. */
    method LookAtCluster(d: Desired) returns (route: Slot, database: Slot, deployment: Slot, ghost made: seq<Exchange>)
      requires Truthful()
      modifies client
      ensures Truthful() && client.log == old(client.log) + made && LookCalls(ReportKeys(inst, d), made)
      ensures Findings(ReportKeys(inst, d), made) == When(ShowsRoute(inst, d), [route]) + [database, deployment]
      ensures !ShowsRoute(inst, d) ==> route == EMPTY
    {
      route, made := EMPTY, [];
      ghost var b, c;
      if d.exposure.routeEnabled && inst.routeAPI {
        route, c := Look(Key(Route, d.name + if d.components.ui then "-ui" else "-api"));
        made := [c];
      }
      database, b := Look(if d.database.mode == External then Key(Secret, d.database.secretName)
                          else Key(StatefulSet, d.name + "-postgres"));
      deployment, c := Look(Key(Deployment, d.name));
      FindingsAre(inst, d, made, b, c, route, database, deployment);
      assert old(client.log) + made + [b] + [c] == old(client.log) + (made + [b, c]);
      made := made + [b, c];
    }

    /** publicURL, from the Route it has read: the admitted host if there is one, else the Route's own, else the Ingress
        host; no URL exactly when none of these is known. */
    method BuildPublicURL(d: Desired, route: Slot) returns (url: string)
      ensures UrlShown(d, AdmittedTo(route), HostGiven(route), url)
    {
      if route.obj.Some? {
        var host := TextOf(route.obj.value.fields, Host);
        var admitted := TextOf(route.obj.value.fields, AdmittedHost);
        if admitted != "" {
          host := admitted;
        }
        if host != "" {
          return "https://" + host;
        }
      }
      if d.exposure.ingressEnabled && d.exposure.ingressHost != "" {
        return "https://" + d.exposure.ingressHost;
      }
      return "";
    }

    /** What patchStatus finds out: publicURL, databaseReady and deploymentReady. */
    method FindOut(d: Desired) returns (o: Status.Observed, ghost looks: seq<Exchange>)
      requires Truthful()
      modifies client
      ensures Truthful() && client.log == old(client.log) + looks && LookCalls(ReportKeys(inst, d), looks)
      ensures o == Observe(inst, d, Findings(ReportKeys(inst, d), looks), client.input.imagePull)
    {
      var route, database, deployment, seen := LookAtCluster(d);
      looks := seen;
      var ready := if d.database.mode == External then database.obj.Some? else Replicated(database);
      var pull := client.input.imagePull && deployment.obj.Some? && !Replicated(deployment);
      var url := BuildPublicURL(d, route);
      UrlIsThePublicOne(d, route, url);
      o := Status.Observed(ready, Replicated(deployment), pull, url);
      ObservedFrom(inst, d, looks, route, database, deployment, client.input.imagePull, o);
    }

    /** Looks at Route, database and Deployment and writes what follows from them, unless refused. */
    method PatchStatus(d: Desired, g: nat, leftover: bool, ending: Ending)
      returns (ok: bool, ghost looks: seq<Exchange>, ghost patch: Exchange)
      requires Truthful()
      modifies client, `status
      ensures spec == old(spec) && generation == old(generation)
      ensures Truthful() && client.log == old(client.log) + (looks + [patch]) && LookCalls(ReportKeys(inst, d), looks)
      ensures var r := ReportOf(inst, d, g, leftover, ending, Findings(ReportKeys(inst, d), looks), patch.input);
              && patch.request == Request.PatchStatus(StatusLaws.Apply(old(status), r))
              && status == if patch.input.fault.Refused? then old(status) else StatusLaws.Apply(old(status), r)
      ensures !patch.input.fault.Refused? ==> SaysWhatWasFound(d, looks, leftover, ending, status)
      ensures !patch.input.fault.Refused? ==> SaysWhy(d, looks, leftover, ending, patch.input.imagePull, status)
      ensures !patch.input.fault.Refused? ==> SaysWhere(inst, d, looks, status)
      ensures ok <==> patch.input.fault == NoFault
      ensures patch.after == client.store
    {
      var o, seen := FindOut(d);
      looks := seen;
      var next := Status.PatchConditions(status, d, g, leftover, ending, o, client.input.now);
      ok := client.input.fault == NoFault;
      if !client.input.fault.Refused? {
        status := next;
      }
      ReportSaysWhatWasFound(inst, d, old(status), g, leftover, ending, looks, client.input);
      ReportSaysWhere(inst, d, old(status), g, leftover, ending, looks, client.input);
      ReportSaysWhy(inst, d, old(status), g, leftover, ending, looks, client.input);
      patch := client.Ask(Request.PatchStatus(next));
      Regroup(old(client.log), looks, [patch]);
    }

    // ---- Reconcile ----

    /** ensureAll, then fail or patchStatus. */
    method Serve(d: Desired, ghost read: Exchange, ghost was: Sys)
      returns (ok: bool, ghost work: seq<Exchange>, ghost looks: seq<Exchange>, ghost patch: Exchange, ghost l: bool,
               ghost err: Option<Ending>, ghost s: Sys)
      requires Truthful() && d == IntentOf(inst, was.spec) && was.generation == generation && was.status == status
      requires read.request == ReadResource
      modifies client, `status
      ensures spec == old(spec) && generation == old(generation)
      ensures Truthful() && client.log == old(client.log) + (work + (looks + [patch])) && patch.after == client.store
      ensures Reconciled(inst, was, read, work, looks, patch, l, err, s) && s.status == status
      ensures ok <==> err.None? && patch.input.fault == NoFault
    {
      var leftover, e;
      leftover, e, work := EnsureAll(d);
      l, err := leftover, e;
      if e.Some? {
        var _, a, b := PatchStatus(d, generation, false, e.value);
        looks, patch, ok := a, b, false;
      } else {
        ok, looks, patch := PatchStatus(d, generation, leftover, Status.Fine);
      }
      Regroup(old(client.log), work, looks + [patch]);
      s := Concluded(inst, was, d, work, looks, patch, l, err);
    }

    /** Reads the resource, brings the cluster to what it asks for, and reports. Whatever fails on the way, the reconcile is
        a run of the machine that asks for the same, in the same order; and it returns without an error exactly when the
        whole plan was done and reported. */
    method Reconcile() returns (ok: bool, ghost made: seq<Exchange>)
      requires Valid() && RewritesUrls(inst)
      modifies client, `status, `sys
      ensures Valid() && spec == old(spec) && generation == old(generation)
      ensures client.log == old(client.log) + made && made != [] && made[0].request == ReadResource
      ensures made[0].input.fault != NoFault ==> !ok && |made| == 1 && sys == old(sys).(store := client.store)
      ensures made[0].input.fault == NoFault ==>
                Plays(inst, old(sys), Requests(made), sys) && Ran(inst, old(sys), made, ok, sys)
    {
      ghost var read;
      ok := client.input.fault == NoFault;
      read := client.Ask(ReadResource);
      made := [read];
      if !ok {
        ReadRefused(inst, sys, read);
        sys := sys.(store := client.store);
        return;
      }
      ghost var rest, s;
      ok, rest, s := Proceed(read, sys);
      Regroup(old(client.log), [read], rest);
      made := [read] + rest;
      sys := s;
    }

    /** What Reconcile does with the resource it has read. */
    method Proceed(ghost read: Exchange, ghost was: Sys) returns (ok: bool, ghost rest: seq<Exchange>, ghost s: Sys)
      requires Truthful() && RewritesUrls(inst) && Admitted(spec.plugins) && Reachable(inst, was) && was.run.Idle?
      requires was.spec == spec && was.generation == generation && was.status == status
      requires client.log != [] && client.log[|client.log| - 1] == read
      requires read.request == ReadResource && read.before == was.store
      modifies client, `status
      ensures spec == old(spec) && generation == old(generation)
      ensures Truthful() && client.log == old(client.log) + rest && Reachable(inst, s) && s.run.Idle?
      ensures s.store == client.store && s.spec == was.spec && s.generation == was.generation && s.status == status
      ensures Plays(inst, was, Requests([read] + rest), s) && Ran(inst, was, [read] + rest, ok, s)
    {
      var d := From(inst.name, inst.namespace, spec, inst.proxyEnv);
      ghost var work, looks, patch, l, err;
      ok, work, looks, patch, l, err, s := Serve(d, read, was);
      rest := work + (looks + [patch]);
      Conclude(inst, was, old(client.log), client.log, client.store, read, work, looks, patch, l, err, s, rest, ok);
    }

    /** The user changes the spec, within the rules of the CRD. */
    method Edit(changed: ApmeSpec)
      requires Valid() && Admitted(changed.plugins)
      modifies `sys, `spec, `generation
      ensures Valid() && spec == changed && generation == old(generation) + 1
      ensures sys == old(sys).(spec := changed, generation := generation) && Plays(inst, old(sys), [], sys)
    {
      spec, generation := changed, generation + 1;
      PlaysOne(inst, sys, Label.Edit(changed), [], sys.(spec := changed, generation := generation));
      PlaysReachable(inst, sys, [], sys.(spec := changed, generation := generation));
      sys := sys.(spec := changed, generation := generation);
    }

    /** What is proved of every reachable state holds of this object's. */
    lemma StateReachable()
      requires Valid()
      ensures Reachable(inst, sys) && sys.store == client.store && sys.status == status
    {
    }
  }
}
