/** What each method of the controller asks of the API server, told from the answers it gets: the calls it makes, in
    order, and the error it returns. Nothing here speaks of the state machine. */
module Exchanges {
  import opened Options
  import opened ObjectNames
  import opened Resolve
  import opened Cluster
  import opened Manifests
  import opened Plan
  import opened Machine
  import opened Incarnations
  import opened Reach
  import Status
  import DatabaseUrl

  type Ending = Status.Ending

  /** What is asked: the Apme resource, a call on an object, or a patch of the resource's status. */
  datatype Request = ReadResource | Object(action: Action) | PatchStatus(status: Status.Status)

  /** One request: what it met, the objects before it, and the objects once others have acted after it. */
  datatype Exchange = Exchange(request: Request, input: Input, before: Store, after: Store)

  function StoreServed(uid: Uid, store: Store, r: Request, i: Input): Store {
    if r.Object? then StoreAfter(uid, store, r.action, i) else store
  }

  ghost predicate Happened(inst: Instance, c: Exchange) {
    && (c.request.Object? ==> c.request.action.Get? || Writes(c.request.action))
    && Drawn(c.input.material) && Bystanders(inst, StoreServed(inst.uid, c.before, c.request, c.input), c.after)
  }

  /** Request `i` came right after the one before it. */
  ghost predicate Joined(cs: seq<Exchange>, i: int)
    requires 0 < i < |cs|
  {
    cs[i - 1].after == cs[i].before
  }

  /** Requests that happened one after the other. */
  ghost predicate Linked(inst: Instance, cs: seq<Exchange>) {
    && (forall i :: 0 <= i < |cs| ==> Happened(inst, cs[i]))
    && (forall i :: 0 < i < |cs| ==> Joined(cs, i))
  }

  /** The log `cs` tells how the store became `store`. */
  ghost predicate Recorded(inst: Instance, cs: seq<Exchange>, store: Store)
    decreases |cs|
  {
    if |cs| == 0 then AllWellBorn(store)
    else
      var c := cs[|cs| - 1];
      Happened(inst, c) && c.after == store && Recorded(inst, cs[..|cs| - 1], c.before)
  }

  lemma RecordedWellBorn(inst: Instance, cs: seq<Exchange>, store: Store)
    requires Recorded(inst, cs, store)
    ensures AllWellBorn(store)
  {
    if cs != [] {
      var c := cs[|cs| - 1];
      OthersWellBorn(inst, StoreServed(inst.uid, c.before, c.request, c.input), store);
    }
  }

  lemma {:induction false} RecordedLinked(inst: Instance, cs: seq<Exchange>, store: Store)
    requires Recorded(inst, cs, store)
    ensures Linked(inst, cs) && (cs != [] ==> cs[|cs| - 1].after == store)
    decreases |cs|
  {
    if cs != [] {
      var front, c := cs[..|cs| - 1], cs[|cs| - 1];
      RecordedLinked(inst, front, c.before);
      forall i | 0 < i < |cs|
        ensures Joined(cs, i)
      {
        if i < |front| { assert Joined(front, i); }
      }
      forall i | 0 <= i < |cs|
        ensures Happened(inst, cs[i])
      {
        if i < |front| { assert Happened(inst, front[i]); }
      }
    }
  }

  /** What was asked since `cs`. */
  lemma LinkedSince(inst: Instance, whole: seq<Exchange>, cs: seq<Exchange>, made: seq<Exchange>)
    requires Linked(inst, whole) && whole == cs + made
    ensures Linked(inst, made) && (cs != [] && made != [] ==> cs[|cs| - 1].after == made[0].before)
  {
    forall i | 0 <= i < |made|
      ensures Happened(inst, made[i]) && (i > 0 ==> Joined(made, i))
      ensures i == 0 && cs != [] ==> cs[|cs| - 1].after == made[0].before
    {
      assert whole[|cs| + i] == made[i];
      if |cs| + i > 0 { assert Joined(whole, |cs| + i); }
    }
  }

  // ---- Single calls ----

  predicate Gets(c: Exchange, k: Key) { c.request == Object(Get(k)) }

  predicate Found(c: Exchange, k: Key) { c.input.fault == NoFault && Present(c.before, k) }

  predicate Missing(c: Exchange, k: Key) { c.input.fault == NoFault && !Present(c.before, k) }

  /** The object read. */
  function Read(c: Exchange, k: Key): Obj
    requires Found(c, k)
  {
    At(c.before, k).obj.value
  }

  /** The error the client returns; for a Get, that includes a name that is not taken. */
  function Failure(uid: Uid, c: Exchange): Option<ApiError> {
    match c.request
    case Object(a) =>
      if a.Get? && Missing(c, a.key) then Some(NotFound) else ErrorSeen(uid, c.before, a, c.input)
    case _ => if c.input.fault == NoFault then None else Some(FaultError(c.input.fault))
  }

  /** Any error of this call is an error of the reconcile. */
  function Problem(uid: Uid, c: Exchange): Option<Ending> {
    if Failure(uid, c).None? then None else Some(Status.OtherError)
  }

  // ---- Applies ----

  /** One apply. */
  ghost predicate ApplyCall(uid: Uid, k: Key, payload: Payload, cs: seq<Exchange>, err: Option<Ending>) {
    |cs| == 1 && cs[0].request == Object(Patch(k, payload)) && err == Problem(uid, cs[0])
  }

  /** The objects are applied in order, up to the first error. */
  ghost predicate ApplyCalls(uid: Uid, objs: seq<(Key, Payload)>, cs: seq<Exchange>, err: Option<Ending>) {
    && |cs| <= |objs|
    && (forall i :: 0 <= i < |cs| ==> cs[i].request == Object(Patch(objs[i].0, objs[i].1)))
    && (forall i :: 0 <= i < |cs| - 1 ==> Failure(uid, cs[i]).None?)
    && (if err.None? then |cs| == |objs| && (cs != [] ==> Failure(uid, cs[|cs| - 1]).None?)
        else err == Some(Status.OtherError) && cs != [] && Failure(uid, cs[|cs| - 1]).Some?)
  }

  lemma ApplyMore(uid: Uid, objs: seq<(Key, Payload)>, n: nat, cs: seq<Exchange>, c: Exchange)
    requires n < |objs| && ApplyCalls(uid, objs[..n], cs, None) && c.request == Object(Patch(objs[n].0, objs[n].1))
    ensures Failure(uid, c).None? ==> ApplyCalls(uid, objs[..n + 1], cs + [c], None)
    ensures Failure(uid, c).Some? ==> ApplyCalls(uid, objs, cs + [c], Problem(uid, c))
  {
  }

  // ---- Secrets ----

  predicate Creates(uid: Uid, c: Exchange, k: Key, payload: Payload, err: Option<Ending>) {
    c.request == Object(Create(k, payload)) && err == Problem(uid, c)
  }

  /** An existing TLS Secret must hold its three keys; a missing one is created if the operator is to generate it. */
  ghost predicate TLSCalls(uid: Uid, d: Desired, cs: seq<Exchange>, err: Option<Ending>) {
    var k := Key(Secret, d.database.tlsSecretName);
    && cs != [] && Gets(cs[0], k)
    && (Found(cs[0], k) ==> |cs| == 1 && err == if HasTLSMaterial(Read(cs[0], k).fields) then None else Some(Status.OtherError))
    && (Missing(cs[0], k) && d.database.generateTLS ==>
          |cs| == 2 && Creates(uid, cs[1], k, TLSPayload(cs[1].input.material), err))
    && (!Found(cs[0], k) && !(Missing(cs[0], k) && d.database.generateTLS) ==> |cs| == 1 && err == Some(Status.OtherError))
  }

  /** The URL of the Secret read as `sec` is updated to `updated`, against the version read, exactly when there is one and it
      differs. One that cannot be rewritten is an error. */
  ghost predicate UpdateCalls(uid: Uid, k: Key, sec: Slot, updated: Option<string>, cs: seq<Exchange>, err: Option<Ending>)
    requires sec.obj.Some?
  {
    var raw := TextOf(sec.obj.value.fields, URL);
    if raw != "" && updated.Some? && updated.value != raw then
      && |cs| == 1 && cs[0].request == Object(Update(k, sec.version, map[URL := Cluster.Text(updated.value)]))
      && err == Problem(uid, cs[0])
    else cs == [] && err == if raw != "" && updated.None? then Some(Status.OtherError) else None
  }

  /** It is updated to its verify-full form. */
  ghost predicate UrlCalls(inst: Instance, k: Key, sec: Slot, cs: seq<Exchange>, err: Option<Ending>)
    requires sec.obj.Some?
  {
    UpdateCalls(inst.uid, k, sec, DatabaseUrl.VerifyFull(inst.text, TextOf(sec.obj.value.fields, URL)), cs, err)
  }

  /** The database Secret is created when missing, and of an existing one only the URL is looked at. */
  ghost predicate DatabaseSecretCalls(inst: Instance, d: Desired, cs: seq<Exchange>, err: Option<Ending>) {
    var k := Key(Secret, d.database.secretName);
    && cs != [] && Gets(cs[0], k)
    && (Found(cs[0], k) ==> UrlCalls(inst, k, At(cs[0].before, k), cs[1..], err))
    && (Missing(cs[0], k) ==>
          |cs| == 2
          && Creates(inst.uid, cs[1], k, DatabaseSecretPayload(d.name, d.namespace, cs[1].input.material.password), err))
    && (!Found(cs[0], k) && !Missing(cs[0], k) ==> |cs| == 1 && err == Some(Status.OtherError))
  }

  /** An existing Abbenay token Secret is left alone, a missing one created. */
  ghost predicate AbbenayTokenCalls(uid: Uid, d: Desired, cs: seq<Exchange>, err: Option<Ending>) {
    var k := Key(Secret, d.abbenay.tokenName);
    && cs != [] && Gets(cs[0], k)
    && (Found(cs[0], k) ==> |cs| == 1 && err == None)
    && (Missing(cs[0], k) ==>
          |cs| == 2 && Creates(uid, cs[1], Key(Secret, d.name + "-abbenay"),
                               TokenPayload(d.abbenay.tokenKey, cs[1].input.material.token), err))
    && (!Found(cs[0], k) && !Missing(cs[0], k) ==> |cs| == 1 && err == Some(Status.OtherError))
  }

  /** An existing admin token must be the operator's own and not empty; a missing one is created. */
  ghost predicate ProxyTokenCalls(uid: Uid, d: Desired, cs: seq<Exchange>, err: Option<Ending>) {
    var k := Key(Secret, d.proxy.tokenName);
    && cs != [] && Gets(cs[0], k)
    && (Found(cs[0], k) ==>
          |cs| == 1
          && (err == None <==> ControlledBy(Read(cs[0], k), uid) && TextOf(Read(cs[0], k).fields, Data(d.proxy.tokenKey)) != "")
          && (err.Some? ==> err == Some(Status.OtherError)))
    && (Missing(cs[0], k) ==>
          |cs| == 2 && Creates(uid, cs[1], k, TokenPayload(d.proxy.tokenKey, cs[1].input.material.token), err))
    && (!Found(cs[0], k) && !Missing(cs[0], k) ==> |cs| == 1 && err == Some(Status.OtherError))
  }

  /** One look at the StatefulSet; any error counts as absent. */
  ghost predicate LeftoverCalls(d: Desired, cs: seq<Exchange>, leftover: bool) {
    var k := Key(StatefulSet, d.name + "-postgres");
    |cs| == 1 && Gets(cs[0], k) && (leftover <==> Found(cs[0], k))
  }

  // ---- The Deployment ----

  /** The token is read first, then the CA bundle if one is configured; the reading stops at what cannot be used. */
  ghost predicate InputCalls(inst: Instance, d: Desired, cs: seq<Exchange>, token: string, ca: string, err: Option<Ending>) {
    var t, b := Key(Secret, d.proxy.tokenName), Key(ConfigMap, d.proxy.caConfigMap);
    && cs != [] && Gets(cs[0], t)
    && (!Found(cs[0], t) ==> |cs| == 1 && err == Some(Status.OtherError))
    && (Found(cs[0], t) && d.proxy.caConfigMap == "" ==>
          |cs| == 1 && err == None && token == TextOf(Read(cs[0], t).fields, Data(d.proxy.tokenKey)) && ca == "")
    && (Found(cs[0], t) && d.proxy.caConfigMap != "" ==>
          && |cs| == 2 && Gets(cs[1], b)
          && (err == None <==> Found(cs[1], b) && inst.usableCA(TextOf(Read(cs[1], b).fields, Data(d.proxy.caKey))))
          && (err == None ==> token == TextOf(Read(cs[0], t).fields, Data(d.proxy.tokenKey))
                              && ca == TextOf(Read(cs[1], b).fields, Data(d.proxy.caKey)))
          && (err.Some? ==> err == Some(Status.OtherError)))
  }

  /** What the Deployment with these inputs is applied as: its content carries their checksum. */
  ghost predicate DeploymentApply(uid: Uid, d: Desired, token: string, ca: string, cs: seq<Exchange>, err: Option<Ending>) {
    ApplyCall(uid, Key(Deployment, d.name + ""), WorkloadPayload(d, ChecksumOf(d, token, ca)), cs, err)
  }

  /** The Deployment is applied only with both inputs in hand. */
  ghost predicate DeploymentCalls(inst: Instance, d: Desired, cs: seq<Exchange>, err: Option<Ending>) {
    exists n: nat, token: string, ca: string, e: Option<Ending> ::
      && n <= |cs| && InputCalls(inst, d, cs[..n], token, ca, e)
      && (if e.Some? then n == |cs| && err == e else DeploymentApply(inst.uid, d, token, ca, cs[n..], err))
  }

  // ---- Routes ----

  /** The error of the last call. */
  function RouteError(uid: Uid, cs: seq<Exchange>): Option<ApiError> {
    if cs == [] then None else Failure(uid, cs[|cs| - 1])
  }

  /** What is done about the wanted Route that was read as `existing`. */
  ghost predicate ExistingRouteCalls(uid: Uid, k: Key, existing: Obj, desired: Payload, cs: seq<Exchange>) {
    if existing.deleting then cs == []
    else if ControlledBy(existing, uid) && NeedsRecreate(existing.fields, desired)
    then |cs| == 1 && cs[0].request == Object(Delete(k))
    else |cs| == 1 && cs[0].request == Object(Patch(k, PreserveHost(existing.fields, desired)))
  }

  /** A wanted Route is applied when missing; an existing one is waited for, deleted, or applied with its live host. */
  ghost predicate WantedRouteCalls(uid: Uid, k: Key, desired: Payload, cs: seq<Exchange>) {
    && cs != [] && Gets(cs[0], k)
    && (Found(cs[0], k) ==> ExistingRouteCalls(uid, k, Read(cs[0], k), desired, cs[1..]))
    && (Missing(cs[0], k) ==> |cs| == 2 && cs[1].request == Object(Patch(k, desired)))
    && (!Found(cs[0], k) && !Missing(cs[0], k) ==> |cs| == 1)
  }

  /** An unwanted Route is deleted exactly when it was read as the operator's own; not found is success. */
  ghost predicate UnwantedRouteCalls(uid: Uid, k: Key, cs: seq<Exchange>, err: Option<Ending>) {
    && cs != [] && Gets(cs[0], k)
    && (if Found(cs[0], k) && ControlledBy(Read(cs[0], k), uid) then
          |cs| == 2 && cs[1].request == Object(Delete(k))
          && err == if Failure(uid, cs[1]) == Some(NotFound) then None else Problem(uid, cs[1])
        else |cs| == 1 && err == if Missing(cs[0], k) then None else Problem(uid, cs[0]))
  }

  /** How an error of a wanted Route is told: a forbidden call that is about hosts is a permission error. */
  predicate Told(d: Desired, e: Option<ApiError>, err: Option<Ending>) {
    && (err.None? <==> e.None?)
    && (err == Some(Status.RoutePermission) <==>
          e.Some? && e.value.Forbidden? && (d.exposure.routeHost != "" || e.value.customHost))
    && err != Some(Status.Fine)
  }

  // ---- Items and plans ----

  /** The calls for one item of the plan, the leftover it reports and the error it ends with. */
  ghost predicate ItemCalls(inst: Instance, d: Desired, t: Item, cs: seq<Exchange>, leftover: bool, err: Option<Ending>) {
    if Applies(t) then !leftover && ApplyCall(inst.uid, WriteKey(d.name, t), AppliedPayload(d, t), cs, err)
    else if t.SeeLeftover? then err == None && LeftoverCalls(d, cs, leftover)
    else !leftover && SeekCalls(inst, d, t, cs, err)
  }

  ghost predicate SeekCalls(inst: Instance, d: Desired, t: Item, cs: seq<Exchange>, err: Option<Ending>)
    requires !Applies(t) && !t.SeeLeftover?
  {
    if t.EnsureTLS? then TLSCalls(inst.uid, d, cs, err)
    else if t.EnsureDatabaseSecret? then DatabaseSecretCalls(inst, d, cs, err)
    else if t.EnsureAbbenayToken? then AbbenayTokenCalls(inst.uid, d, cs, err)
    else if t.EnsureProxyToken? then ProxyTokenCalls(inst.uid, d, cs, err)
    else if t.ApplyDeployment? then DeploymentCalls(inst, d, cs, err)
    else if Wants(t) then
      WantedRouteCalls(inst.uid, WriteKey(d.name, t), WantedPayload(d, t), cs)
      && Told(d, RouteError(inst.uid, cs), err)
    else UnwantedRouteCalls(inst.uid, WriteKey(d.name, t), cs, err)
  }

  /** What an item, told by its calls, reports and ends with. */
  type Account = (Item, seq<Exchange>, bool, Option<Ending>) -> bool

  /** The calls for the items `ts`, in order and up to the first error, each as `item` has it. A leftover seen so far
      is `l0`, in the end `l`. */
  ghost predicate InOrder(item: Account, ts: seq<Item>, cs: seq<Exchange>, l0: bool, l: bool, err: Option<Ending>)
    decreases |ts|
  {
    if |ts| == 0 then cs == [] && err == None && l == l0
    else exists n: nat, seen: bool, e: Option<Ending> ::
           && n <= |cs| && item(ts[0], cs[..n], seen, e)
           && (if e.Some? then n == |cs| && err == e else InOrder(item, ts[1..], cs[n..], l0 || seen, l, err))
  }

  /** The first item of a list, and what follows it. */
  lemma OrderHead(item: Account, ts: seq<Item>, cs: seq<Exchange>, l0: bool, l: bool, err: Option<Ending>)
    returns (n: nat, seen: bool, e: Option<Ending>)
    requires InOrder(item, ts, cs, l0, l, err) && ts != []
    ensures n <= |cs| && item(ts[0], cs[..n], seen, e)
    ensures if e.Some? then n == |cs| && err == e else InOrder(item, ts[1..], cs[n..], l0 || seen, l, err)
  {
    n, seen, e :|
      && n <= |cs| && item(ts[0], cs[..n], seen, e)
      && (if e.Some? then n == |cs| && err == e else InOrder(item, ts[1..], cs[n..], l0 || seen, l, err));
  }

  lemma OneItem(item: Account, t: Item, cs: seq<Exchange>, l0: bool, seen: bool, err: Option<Ending>)
    requires item(t, cs, seen, err)
    ensures InOrder(item, [t], cs, l0, l0 || seen, err)
  {
    assert cs[..|cs|] == cs && cs[|cs|..] == [];
    assert item([t][0], cs[..|cs|], seen, err);
  }

  /** Items that are all done, and what follows them. */
  lemma {:induction false} OrderThen(item: Account, ts: seq<Item>, us: seq<Item>, a: seq<Exchange>, b: seq<Exchange>,
                                    l0: bool, l1: bool, l: bool, err: Option<Ending>)
    requires InOrder(item, ts, a, l0, l1, None) && InOrder(item, us, b, l1, l, err)
    ensures InOrder(item, ts + us, a + b, l0, l, err)
    decreases |ts|
  {
    if ts == [] {
      assert ts + us == us && a + b == b;
    } else {
      var n, seen, e := OrderHead(item, ts, a, l0, l1, None);
      OrderThen(item, ts[1..], us, a[n..], b, l0 || seen, l1, l, err);
      assert (ts + us)[1..] == ts[1..] + us && (a + b)[..n] == a[..n] && (a + b)[n..] == a[n..] + b;
      assert item((ts + us)[0], (a + b)[..n], seen, e);
    }
  }

  /** Items that are broken off are broken off whatever would follow. */
  lemma {:induction false} OrderStops(item: Account, ts: seq<Item>, us: seq<Item>, cs: seq<Exchange>,
                                     l0: bool, l: bool, err: Option<Ending>)
    requires InOrder(item, ts, cs, l0, l, err) && err.Some?
    ensures InOrder(item, ts + us, cs, l0, l, err)
    decreases |ts|
  {
    if ts != [] {
      var n, seen, e := OrderHead(item, ts, cs, l0, l, err);
      if e.None? { OrderStops(item, ts[1..], us, cs[n..], l0 || seen, l, err); }
      assert (ts + us)[1..] == ts[1..] + us;
      assert item((ts + us)[0], cs[..n], seen, e);
    }
  }

  /** A leftover known before does not matter to the calls. */
  lemma {:induction false} OrderShift(item: Account, ts: seq<Item>, cs: seq<Exchange>, l0: bool, l: bool,
                                     err: Option<Ending>, known: bool)
    requires InOrder(item, ts, cs, l0, l, err)
    ensures InOrder(item, ts, cs, known || l0, known || l, err)
    decreases |ts|
  {
    if ts != [] {
      var n, seen, e := OrderHead(item, ts, cs, l0, l, err);
      if e.None? { OrderShift(item, ts[1..], cs[n..], l0 || seen, l, err, known); }
      assert item(ts[0], cs[..n], seen, e) && (known || (l0 || seen)) == ((known || l0) || seen);
    }
  }

  ghost function Accounts(inst: Instance, d: Desired): Account {
    (t: Item, cs: seq<Exchange>, seen: bool, err: Option<Ending>) => ItemCalls(inst, d, t, cs, seen, err)
  }

  /** The calls of ensureAll, or of a part of it. */
  ghost predicate PlanCalls(inst: Instance, d: Desired, ts: seq<Item>, cs: seq<Exchange>, l0: bool, l: bool, err: Option<Ending>) {
    InOrder(Accounts(inst, d), ts, cs, l0, l, err)
  }

  /** The calls for a first part of a plan that is done, and those for the next part, which may break off; `plan` begins
      with both. */
  lemma PlanNext(inst: Instance, d: Desired, plan: seq<Item>, ts: seq<Item>, us: seq<Item>, a: seq<Exchange>, b: seq<Exchange>,
                 l0: bool, l: bool, err: Option<Ending>)
    requires ts + us <= plan && PlanCalls(inst, d, ts, a, false, l0, None) && PlanCalls(inst, d, us, b, false, l, err)
    ensures err.None? ==> PlanCalls(inst, d, ts + us, a + b, false, l0 || l, None)
    ensures err.Some? ==> PlanCalls(inst, d, plan, a + b, false, l0 || l, err)
  {
    var item := Accounts(inst, d);
    OrderShift(item, us, b, false, l, err, l0);
    OrderThen(item, ts, us, a, b, false, l0, l0 || l, err);
    if err.Some? {
      OrderStops(item, ts + us, plan[|ts + us|..], a + b, false, l0 || l, err);
      assert plan == ts + us + plan[|ts + us|..];
    }
  }

  // ---- Lists of applies ----

  /** The objects are those of the items, one for one. */
  ghost predicate ObjectsOf(d: Desired, objs: seq<(Key, Payload)>, ts: seq<Item>) {
    |objs| == |ts| && forall i :: 0 <= i < |ts| ==>
      Applies(ts[i]) && objs[i] == (WriteKey(d.name, ts[i]), AppliedPayload(d, ts[i]))
  }

  lemma ObjectsJoin(d: Desired, objs: seq<(Key, Payload)>, ts: seq<Item>, objs': seq<(Key, Payload)>, ts': seq<Item>)
    requires ObjectsOf(d, objs, ts) && ObjectsOf(d, objs', ts')
    ensures ObjectsOf(d, objs + objs', ts + ts')
  {
  }

  lemma ApplyHead(uid: Uid, objs: seq<(Key, Payload)>, cs: seq<Exchange>, err: Option<Ending>)
    requires ApplyCalls(uid, objs, cs, err) && objs != []
    ensures cs != [] && ApplyCall(uid, objs[0].0, objs[0].1, cs[..1], Problem(uid, cs[0]))
    ensures if Failure(uid, cs[0]).Some? then |cs| == 1 && err == Problem(uid, cs[0])
            else ApplyCalls(uid, objs[1..], cs[1..], err)
  {
  }

  /** Applying the objects of items is doing these items. */
  lemma {:induction false} AppliesAreItems(inst: Instance, d: Desired, objs: seq<(Key, Payload)>, ts: seq<Item>,
                                          cs: seq<Exchange>, l: bool, err: Option<Ending>)
    requires ObjectsOf(d, objs, ts) && ApplyCalls(inst.uid, objs, cs, err)
    ensures PlanCalls(inst, d, ts, cs, l, l, err)
    decreases |ts|
  {
    if ts != [] {
      ApplyHead(inst.uid, objs, cs, err);
      assert Accounts(inst, d)(ts[0], cs[..1], false, Problem(inst.uid, cs[0]));
      if Failure(inst.uid, cs[0]).None? { AppliesAreItems(inst, d, objs[1..], ts[1..], cs[1..], l, err); }
    }
  }

  // ---- Parts of a plan ----

  /** The first item of `plan`. */
  lemma FirstItem(inst: Instance, d: Desired, plan: seq<Item>, t: Item, cs: seq<Exchange>, seen: bool, err: Option<Ending>)
    requires [t] <= plan && ItemCalls(inst, d, t, cs, seen, err)
    ensures PlanCalls(inst, d, if err.None? then [t] else plan, cs, false, seen, err)
  {
    OneItem(Accounts(inst, d), t, cs, false, seen, err);
    if err.Some? {
      OrderStops(Accounts(inst, d), [t], plan[1..], cs, false, seen, err);
      assert plan == [t] + plan[1..];
    }
  }

  /** The item of `plan` after `ts`. */
  lemma NextItem(inst: Instance, d: Desired, plan: seq<Item>, ts: seq<Item>, t: Item, a: seq<Exchange>, b: seq<Exchange>,
                 err: Option<Ending>)
    requires ts + [t] <= plan && PlanCalls(inst, d, ts, a, false, false, None) && ItemCalls(inst, d, t, b, false, err)
    ensures PlanCalls(inst, d, if err.None? then ts + [t] else plan, a + b, false, false, err)
  {
    OneItem(Accounts(inst, d), t, b, false, false, err);
    PlanNext(inst, d, plan, ts, [t], a, b, false, false, err);
  }

  /** The items of `plan` that apply `objs`, after `ts`. */
  lemma NextApplies(inst: Instance, d: Desired, plan: seq<Item>, ts: seq<Item>, us: seq<Item>, objs: seq<(Key, Payload)>,
                    a: seq<Exchange>, b: seq<Exchange>, err: Option<Ending>)
    requires ts + us <= plan && PlanCalls(inst, d, ts, a, false, false, None)
    requires ObjectsOf(d, objs, us) && ApplyCalls(inst.uid, objs, b, err)
    ensures PlanCalls(inst, d, if err.None? then ts + us else plan, a + b, false, false, err)
  {
    AppliesAreItems(inst, d, objs, us, b, false, err);
    PlanNext(inst, d, plan, ts, us, a, b, false, false, err);
  }

  // ---- patchStatus ----

  /** The looks of patchStatus, one for each key in turn. */
  predicate LookCalls(keys: seq<Key>, cs: seq<Exchange>) {
    |cs| == |keys| && forall i :: 0 <= i < |cs| ==> Gets(cs[i], keys[i])
  }

  /** What they tell: any error counts as absent. */
  function Findings(keys: seq<Key>, cs: seq<Exchange>): seq<Slot>
    requires LookCalls(keys, cs)
  {
    seq(|cs|, i requires 0 <= i < |cs| => if cs[i].input.fault == NoFault then At(cs[i].before, keys[i]) else EMPTY)
  }
}
