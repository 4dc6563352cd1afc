/** No dangling references: in every reachable state, whatever the operator's objects refer to is in the store. */
module References {
  import opened ObjectNames
  import opened Resolve
  import opened Cluster
  import opened Manifests
  import opened Pod
  import opened PodReferences
  import opened Plan
  import opened Machine
  import opened PlanLaws
  import opened Frames

  ghost function ManifestRefs(m: Manifest): set<Key> {
    match m
    case Workload(d, _) => OperatorRefs(d)
    case PostgresSet(d) =>
      {Key(Secret, d.database.secretName), Key(ConfigMap, d.name + "-postgres-ssl")}
      + (if d.database.generateTLS then {Key(Secret, d.database.tlsSecretName)} else {})
    case Backends(_, backends) => set b | b in backends :: Key(Service, b.service)
    case _ => {}
  }

  /** What an object of kind `kind` refers to, as far as the operator chose the name. */
  ghost function Refs(kind: Kind, fields: Payload): set<Key> {
    (if Template in fields && fields[Template].Of? then ManifestRefs(fields[Template].manifest) else {})
    + (if kind == Route && TextOf(fields, Target) != "" then {Key(Service, TextOf(fields, Target))} else {})
  }

  /** The Deployment's references are those of its Pod that the operator named itself. */
  lemma WorkloadRefs(d: Desired, checksum: string, k: Key)
    ensures k in ManifestRefs(Workload(d, checksum)) ==> Refers(PodOf(d), k)
    ensures Refers(PodOf(d), k) ==> k in ManifestRefs(Workload(d, checksum)) || k in UserRefs(d)
  {
    WorkloadRefersToGenerated(d, checksum, k);
    if Refers(PodOf(d), k) { RefersOnlyToKnown(d, k); }
  }

  lemma WorkloadRefersToGenerated(d: Desired, checksum: string, k: Key)
    ensures k in ManifestRefs(Workload(d, checksum)) <==> k in OperatorRefs(d)
    ensures k in OperatorRefs(d) ==> Refers(PodOf(d), k)
  {
    if k in OperatorRefs(d) { RefersToGenerated(d, k); }
  }

  // ---- Providers ----

  /** An item after which its object is certain to be there. */
  predicate Provides(d: Desired, t: Item) {
    t != SeeLeftover && KindOf(t) != Route && (t == EnsureTLS ==> d.database.generateTLS)
  }

  /** `u` provides `r` and comes before `t`. */
  ghost predicate ProvidedBefore(inst: Instance, d: Desired, t: Item, u: Item, r: Key) {
    Planned(inst, d, u) && Rank(u) < Rank(t) && Provides(d, u) && WriteKey(inst.name, u) == r
  }

  lemma DeploymentProvider(inst: Instance, d: Desired, r: Key) returns (u: Item)
    requires Defaulted(inst, d) && r in OperatorRefs(d)
    ensures ProvidedBefore(inst, d, ApplyDeployment, u, r)
  {
    GeneratedCases(d, r);
    if r == Key(ServiceAccount, d.name) { u := ApplyServiceAccount; assert d.name + "" == d.name; }
    else if r == Key(PersistentVolumeClaim, d.name + "-sessions") { u := ApplySessionsClaim; }
    else if r == Key(PersistentVolumeClaim, d.name + "-proxy-cache") { u := ApplyProxyCacheClaim; }
    else if r == Key(Secret, d.proxy.tokenName) { u := EnsureProxyToken; }
    else if d.database.generate && r == Key(Secret, d.database.secretName) { u := EnsureDatabaseSecret; }
    else { u := OptionalProvider(inst, d, r); }
  }

  lemma OptionalProvider(inst: Instance, d: Desired, r: Key) returns (u: Item)
    requires Defaulted(inst, d) && r in OperatorRefs(d)
    requires r != Key(ServiceAccount, d.name) && r != Key(PersistentVolumeClaim, d.name + "-sessions")
    requires r != Key(PersistentVolumeClaim, d.name + "-proxy-cache") && r != Key(Secret, d.proxy.tokenName)
    requires !(d.database.generate && r == Key(Secret, d.database.secretName))
    ensures ProvidedBefore(inst, d, ApplyDeployment, u, r)
  {
    if d.database.generateTLS && r == Key(Secret, d.database.tlsSecretName) { u := EnsureTLS; }
    else if r.kind == Secret { u := EnsureAbbenayToken; }
    else if r.kind == ConfigMap { u := ApplyAbbenayConfig; }
    else { u := ApplyAbbenayClaim; }
  }

  lemma PostgresProvider(inst: Instance, d: Desired, r: Key) returns (u: Item)
    requires Defaulted(inst, d) && Planned(inst, d, ApplyPostgresSet) && r in ManifestRefs(PostgresSet(d))
    ensures ProvidedBefore(inst, d, ApplyPostgresSet, u, r)
  {
    if r == Key(Secret, d.database.secretName) { u := EnsureDatabaseSecret; }
    else if r.kind == ConfigMap { u := ApplySSLConfig; }
    else { u := EnsureTLS; }
  }

  lemma BackendProvider(inst: Instance, d: Desired, r: Key) returns (u: Item)
    requires Defaulted(inst, d) && r in ManifestRefs(Backends(d.exposure.ingressHost, IngressBackends(d)))
    ensures ProvidedBefore(inst, d, ApplyIngress, u, r)
  {
    u := if r == Key(Service, d.name + "-gateway") then ApplyGatewayService else ApplyUIService;
  }

  lemma TargetProvider(inst: Instance, d: Desired, t: Item, r: Key) returns (u: Item)
    requires Defaulted(inst, d) && Wants(t) && Planned(inst, d, t) && r in Refs(Route, WantedPayload(d, t))
    ensures ProvidedBefore(inst, d, t, u, r)
  {
    u := if t.WantUIRoute? then ApplyUIService else ApplyGatewayService;
  }

  /** Whatever a step is about to make its object refer to has a provider earlier in the plan. */
  lemma NeedsComeFirst(inst: Instance, d: Desired, t: Item, seen: seq<Slot>, m: Material, r: Key) returns (u: Item)
    requires Defaulted(inst, d) && Planned(inst, d, t)
    requires NextAction(inst, d, t, seen, m).Patch?
    requires r in Refs(KindOf(t), NextAction(inst, d, t, seen, m).payload)
    ensures ProvidedBefore(inst, d, t, u, r)
  {
    if t.ApplyDeployment? {
      DeploymentNeeds(inst, d, seen, r);
    } else if Wants(t) {
      RouteNeeds(inst, d, t, seen[0]);
    }
    u := ProviderOf(inst, d, t, r);
  }

  /** What item `t` may make its object refer to. */
  ghost function Needs(d: Desired, t: Item): set<Key> {
    if t.ApplyDeployment? then OperatorRefs(d)
    else if Applies(t) then Refs(KindOf(t), AppliedPayload(d, t))
    else if Wants(t) then Refs(Route, WantedPayload(d, t))
    else {}
  }

  lemma DeploymentNeeds(inst: Instance, d: Desired, seen: seq<Slot>, r: Key)
    requires DeploymentAction(inst, d, seen).Patch? && r in Refs(Deployment, DeploymentAction(inst, d, seen).payload)
    ensures r in OperatorRefs(d)
  {
  }

  lemma RouteNeeds(inst: Instance, d: Desired, t: Item, s: Slot)
    requires Wants(t) && RouteAction(inst, d, t, s).Patch?
    ensures Refs(Route, RouteAction(inst, d, t, s).payload) == Refs(Route, WantedPayload(d, t))
  {
  }

  lemma ProviderOf(inst: Instance, d: Desired, t: Item, r: Key) returns (u: Item)
    requires Defaulted(inst, d) && Planned(inst, d, t) && r in Needs(d, t)
    ensures ProvidedBefore(inst, d, t, u, r)
  {
    if t.ApplyDeployment? {
      u := DeploymentProvider(inst, d, r);
    } else if t.ApplyPostgresSet? {
      u := PostgresProvider(inst, d, r);
    } else if t.ApplyIngress? {
      u := BackendProvider(inst, d, r);
    } else if Wants(t) {
      u := TargetProvider(inst, d, t, r);
    } else {
      PlainHasNoRefs(d, t);
    }
  }

  lemma PlainHasNoRefs(d: Desired, t: Item)
    requires Applies(t) && !t.ApplyPostgresSet? && !t.ApplyIngress?
    ensures Refs(KindOf(t), AppliedPayload(d, t)) == {}
  {
  }

  // ---- The invariant ----

  /** Every reference of every object the operator controls is to a generated name that is taken. */
  ghost predicate NoDangling(inst: Instance, store: Store) {
    forall k, r :: Owned(store, k, inst.uid) && r in Refs(k.kind, At(store, k).obj.value.fields) ==>
      Generated(inst.name, r) && r.kind != Route && Present(store, r)
  }

  /** The first `pc` items of `ts` are done: what they provide is there. */
  ghost predicate DoneThere(name: string, d: Desired, ts: seq<Item>, pc: nat, store: Store)
    requires pc <= |ts|
  {
    forall j :: 0 <= j < pc && Provides(d, ts[j]) ==> Present(store, WriteKey(name, ts[j]))
  }

  /** An object an item has found is there. */
  ghost predicate FoundThere(name: string, d: Desired, t: Item, seen: seq<Slot>, store: Store) {
    seen != [] && seen[0].obj.Some? && Provides(d, t) && !t.ApplyDeployment? ==> Present(store, WriteKey(name, t))
  }

  ghost predicate Progress(inst: Instance, s: Sys) {
    s.run.Working? ==>
      && Defaulted(inst, s.run.d) && s.run.plan == Items(inst, s.run.d) && s.run.pc <= |s.run.plan| && Steady(inst, s)
      && DoneThere(inst.name, s.run.d, s.run.plan, s.run.pc, s.store)
      && (s.run.pc < |s.run.plan| ==> FoundThere(inst.name, s.run.d, Current(s), s.run.seen, s.store))
  }

  lemma BystandersKeepPresent(inst: Instance, store: Store, store': Store, k: Key)
    requires Bystanders(inst, store, store') && Present(store, k) && Generated(inst.name, k) && k.kind != Route
    ensures Present(store', k)
  {
    assert Bystander(inst.name, inst.uid, k, At(store, k), At(store', k));
  }

  /** Others change no reference of an object the operator controls. */
  lemma BystandersKeepRefs(inst: Instance, store: Store, store': Store, k: Key)
    requires Bystanders(inst, store, store') && Owned(store', k, inst.uid)
    ensures Owned(store, k, inst.uid)
    ensures Refs(k.kind, At(store', k).obj.value.fields) == Refs(k.kind, At(store, k).obj.value.fields)
  {
    assert Bystander(inst.name, inst.uid, k, At(store, k), At(store', k));
    var o, o' := At(store, k).obj.value, At(store', k).obj.value;
    assert Kept(o, Template) && Kept(o, Target);
    assert SameField(o.fields, o'.fields, Template) && SameField(o.fields, o'.fields, Target);
  }

  lemma BystandersNoDangling(inst: Instance, store: Store, store': Store)
    requires Bystanders(inst, store, store') && NoDangling(inst, store)
    ensures NoDangling(inst, store')
  {
    forall k, r | Owned(store', k, inst.uid) && r in Refs(k.kind, At(store', k).obj.value.fields)
      ensures Generated(inst.name, r) && r.kind != Route && Present(store', r)
    {
      BystandersKeepRef(inst, store, store', k, r);
    }
  }

  lemma BystandersKeepRef(inst: Instance, store: Store, store': Store, k: Key, r: Key)
    requires Bystanders(inst, store, store') && NoDangling(inst, store)
    requires Owned(store', k, inst.uid) && r in Refs(k.kind, At(store', k).obj.value.fields)
    ensures Generated(inst.name, r) && r.kind != Route && Present(store', r)
  {
    BystandersKeepRefs(inst, store, store', k);
    BystandersKeepPresent(inst, store, store', r);
  }

  /** The shape of the operator's calls on an object of kind `kind`. */
  ghost predicate Shaped(kind: Kind, a: Action) {
    && (a.Patch? ==> Template in a.payload && (kind == Route ==> Target in a.payload))
    && (a.Create? ==> Template !in a.payload && Target !in a.payload)
    && (a.Update? ==> a.changes.Keys == {URL})
  }

  lemma RouteShaped(inst: Instance, d: Desired, t: Item, s: Slot)
    requires Wants(t) || Unwants(t)
    ensures Shaped(Route, RouteAction(inst, d, t, s))
  {
  }

  lemma AppliedShaped(d: Desired, t: Item)
    requires Applies(t)
    ensures Template in AppliedPayload(d, t) && KindOf(t) != Route
  {
  }

  lemma DeploymentShaped(inst: Instance, d: Desired, seen: seq<Slot>)
    ensures Shaped(Deployment, DeploymentAction(inst, d, seen))
  {
  }

  lemma EnsureShaped(inst: Instance, d: Desired, t: Item, s: Slot, m: Material)
    requires !Applies(t) && !t.ApplyDeployment? && !Wants(t) && !Unwants(t)
    ensures Shaped(KindOf(t), EnsureAction(inst, d, t, s, m))
  {
  }

  lemma ActionShaped(inst: Instance, d: Desired, t: Item, seen: seq<Slot>, m: Material)
    ensures Shaped(KindOf(t), NextAction(inst, d, t, seen, m))
  {
    if Applies(t) { AppliedShaped(d, t); }
    else if t.ApplyDeployment? { DeploymentShaped(inst, d, seen); }
    else if seen != [] {
      if Wants(t) || Unwants(t) { RouteShaped(inst, d, t, seen[0]); } else { EnsureShaped(inst, d, t, seen[0], m); }
    }
  }

  /** References of an object after an accepted call: those of the payload, or those it had. */
  lemma AnswerRefs(uid: Uid, k: Key, s: Slot, a: Action, lingers: bool)
    requires Writes(a) && Answer(uid, s, a, lingers).Done? && Answer(uid, s, a, lingers).slot.obj.Some?
    requires Shaped(k.kind, a)
    ensures var o := Answer(uid, s, a, lingers).slot.obj.value;
            && (a.Patch? ==> Refs(k.kind, o.fields) == Refs(k.kind, a.payload))
            && (a.Create? ==> Refs(k.kind, o.fields) == {})
            && (a.Update? || a.Delete? ==>
                  s.obj.Some? && s.obj.value.controller == o.controller
                  && Refs(k.kind, o.fields) == Refs(k.kind, s.obj.value.fields))
  {
    var o := Answer(uid, s, a, lingers).slot.obj.value;
    if a.Patch? {
      PatchedFields(s, uid, a.payload, Template);
      PatchedFields(s, uid, a.payload, Target);
    } else if a.Create? {
      assert o.fields == a.payload;
    } else if a.Update? {
      assert SameField(s.obj.value.fields, o.fields, Template) && SameField(s.obj.value.fields, o.fields, Target);
    }
  }

  /** What a payload refers to is there when its step comes. */
  ghost predicate NeedsMet(inst: Instance, store: Store, kind: Kind, a: Action) {
    a.Patch? ==> forall r :: r in Refs(kind, a.payload) ==> Generated(inst.name, r) && r.kind != Route && Present(store, r)
  }

  lemma StepNeedsMet(inst: Instance, s: Sys, i: Input)
    requires Busy(inst, s) && Progress(inst, s)
    ensures NeedsMet(inst, s.store, KindOf(Current(s)), CurrentAction(inst, s, i))
  {
    var t, a := Current(s), CurrentAction(inst, s, i);
    if a.Patch? {
      forall r | r in Refs(KindOf(t), a.payload)
        ensures Generated(inst.name, r) && r.kind != Route && Present(s.store, r)
      {
        var u := NeedsComeFirst(inst, s.run.d, t, s.run.seen, i.material, r);
        ProviderDone(inst, s, u);
      }
    }
  }

  lemma ProviderDone(inst: Instance, s: Sys, u: Item)
    requires Busy(inst, s) && Progress(inst, s)
    requires Planned(inst, s.run.d, u) && Rank(u) < Rank(Current(s)) && Provides(s.run.d, u)
    ensures Present(s.store, WriteKey(inst.name, u)) && Generated(inst.name, WriteKey(inst.name, u))
    ensures WriteKey(inst.name, u).kind != Route
  {
    var j := Earlier(inst, s.run.d, u, s.run.pc);
    WriteKeyGenerated(inst.name, u);
  }

  /** A call whose needs are met, and which deletes nothing but Routes, leaves no dangling reference. */
  lemma EffectNoDangling(inst: Instance, store: Store, store': Store, k: Key, a: Action, lingers: bool)
    requires NoDangling(inst, store) && Effect(inst.uid, store, store', k, a, lingers)
    requires Shaped(k.kind, a) && NeedsMet(inst, store, k.kind, a) && (a.Delete? ==> k.kind == Route)
    ensures NoDangling(inst, store')
  {
    forall j, r | Owned(store', j, inst.uid) && r in Refs(j.kind, At(store', j).obj.value.fields)
      ensures Generated(inst.name, r) && r.kind != Route && Present(store', r)
    {
      EffectKeepsRef(inst, store, store', k, a, lingers, j, r);
    }
  }

  lemma EffectKeepsRef(inst: Instance, store: Store, store': Store, k: Key, a: Action, lingers: bool, j: Key, r: Key)
    requires NoDangling(inst, store) && Effect(inst.uid, store, store', k, a, lingers)
    requires Shaped(k.kind, a) && NeedsMet(inst, store, k.kind, a) && (a.Delete? ==> k.kind == Route)
    requires Owned(store', j, inst.uid) && r in Refs(j.kind, At(store', j).obj.value.fields)
    ensures Generated(inst.name, r) && r.kind != Route && Present(store', r)
  {
    EffectRefPresent(inst, store, store', k, a, lingers, j, r);
    EffectKeepsPresent(inst.uid, store, store', k, a, lingers, r);
  }

  /** What an object refers to after the call was there before it. */
  lemma EffectRefPresent(inst: Instance, store: Store, store': Store, k: Key, a: Action, lingers: bool, j: Key, r: Key)
    requires NoDangling(inst, store) && Effect(inst.uid, store, store', k, a, lingers)
    requires Shaped(k.kind, a) && NeedsMet(inst, store, k.kind, a) && (a.Delete? ==> k.kind == Route)
    requires Owned(store', j, inst.uid) && r in Refs(j.kind, At(store', j).obj.value.fields)
    ensures Generated(inst.name, r) && r.kind != Route && Present(store, r)
  {
    if At(store', j) == At(store, j) {
      RefPresent(inst, store, j, r);
    } else {
      AnswerRefs(inst.uid, k, At(store, k), a, lingers);
      if !a.Patch? { RefPresent(inst, store, k, r); }
    }
  }

  lemma RefPresent(inst: Instance, store: Store, k: Key, r: Key)
    requires NoDangling(inst, store) && Owned(store, k, inst.uid) && r in Refs(k.kind, At(store, k).obj.value.fields)
    ensures Generated(inst.name, r) && r.kind != Route && Present(store, r)
  {
  }

  lemma OperatorNoDangling(inst: Instance, s: Sys, i: Input)
    requires NoDangling(inst, s.store) && Progress(inst, s)
    ensures NoDangling(inst, OperatorStep(inst, s, i).store)
  {
    if Busy(inst, s) {
      var t, a := Current(s), CurrentAction(inst, s, i);
      StepEffect(inst, s, i);
      StepNeedsMet(inst, s, i);
      ActionShaped(inst, s.run.d, t, s.run.seen, i.material);
      if a.Delete? { DeletesOnlyRoutes(inst, s.run.d, t, s.run.seen, i.material); }
      EffectNoDangling(inst, s.store, OperatorStep(inst, s, i).store, WriteKey(inst.name, t), a, i.lingers);
    } else {
      OtherStepsKeepStore(inst, s, i);
    }
  }

  // ---- Progress ----

  lemma FinishProvides(inst: Instance, d: Desired, t: Item, seen: seq<Slot>, m: Material)
    requires Provides(d, t) && NextAction(inst, d, t, seen, m).Finish?
    ensures !t.ApplyDeployment? && seen != [] && seen[0].obj.Some?
  {
  }

  lemma GetReads(inst: Instance, d: Desired, t: Item, seen: seq<Slot>, m: Material)
    requires Defaulted(inst, d) && Planned(inst, d, t) && Provides(d, t) && !t.ApplyDeployment?
    requires NextAction(inst, d, t, seen, m).Get?
    ensures seen == [] && NextAction(inst, d, t, seen, m).key == WriteKey(inst.name, t)
  {
  }

  /** A step that ends its item leaves the item's object in place. */
  lemma EndedItemProvides(inst: Instance, s: Sys, i: Input)
    requires Busy(inst, s) && Progress(inst, s) && Provides(s.run.d, Current(s))
    requires OperatorStep(inst, s, i).run.Working? && OperatorStep(inst, s, i).run.pc != s.run.pc
    ensures Present(OperatorStep(inst, s, i).store, WriteKey(inst.name, Current(s)))
  {
    var t, a := Current(s), CurrentAction(inst, s, i);
    StepMoves(inst, s, i);
    if a.Finish? {
      StepOnKey(inst, s, i);
      FinishProvides(inst, s.run.d, t, s.run.seen, i.material);
    } else {
      if Unwants(t) { UnwantedProvideNothing(s.run.d, t); }
      WriteProvides(inst, s, i, a);
    }
  }

  lemma UnwantedProvideNothing(d: Desired, t: Item)
    requires Unwants(t)
    ensures !Provides(d, t)
  {
  }

  lemma WriteProvides(inst: Instance, s: Sys, i: Input, a: Action)
    requires Busy(inst, s) && Provides(s.run.d, Current(s)) && a == CurrentAction(inst, s, i) && Writes(a)
    requires i.fault == NoFault
    requires Answer(inst.uid, At(s.store, WriteKey(inst.name, Current(s))), a, i.lingers).Done?
    ensures Present(OperatorStep(inst, s, i).store, WriteKey(inst.name, Current(s)))
  {
    StepOnKey(inst, s, i);
    if a.Delete? {
      DeletesOnlyRoutes(inst, s.run.d, Current(s), s.run.seen, i.material);
    } else {
      AnswerPresent(inst.uid, At(s.store, WriteKey(inst.name, Current(s))), a, i.lingers);
    }
  }


  /** A step that reads its item's object has found it there. */
  lemma ReadItemProvides(inst: Instance, s: Sys, i: Input)
    requires Busy(inst, s) && Progress(inst, s) && Provides(s.run.d, Current(s)) && !Current(s).ApplyDeployment?
    requires var s' := OperatorStep(inst, s, i);
             s'.run.Working? && s'.run.pc == s.run.pc && s'.run.seen != [] && s'.run.seen[0].obj.Some?
    ensures Present(s.store, WriteKey(inst.name, Current(s)))
  {
    StepMoves(inst, s, i);
    GetReads(inst, s.run.d, Current(s), s.run.seen, i.material);
  }

  ghost predicate KeepsPresent(store: Store, store': Store) {
    forall k :: Present(store, k) && k.kind != Route ==> Present(store', k)
  }

  lemma DoneAcross(name: string, d: Desired, ts: seq<Item>, pc: nat, store: Store, store': Store)
    requires pc < |ts| && DoneThere(name, d, ts, pc, store) && KeepsPresent(store, store')
    ensures DoneThere(name, d, ts, pc, store')
    ensures (Provides(d, ts[pc]) ==> Present(store', WriteKey(name, ts[pc]))) ==> DoneThere(name, d, ts, pc + 1, store')
  {
    forall j | 0 <= j < pc && Provides(d, ts[j])
      ensures Present(store', WriteKey(name, ts[j]))
    {
      assert Present(store, WriteKey(name, ts[j]));
    }
  }

  lemma StepKeepsAllPresent(inst: Instance, s: Sys, i: Input)
    requires Steady(inst, s)
    ensures KeepsPresent(s.store, OperatorStep(inst, s, i).store)
  {
    forall k | Present(s.store, k) && k.kind != Route
      ensures Present(OperatorStep(inst, s, i).store, k)
    {
      StepKeepsPresent(inst, s, i, k);
    }
  }

  lemma PlanSteady(inst: Instance, s: Sys)
    requires s.run.Working? ==> Defaulted(inst, s.run.d) && s.run.plan == Items(inst, s.run.d)
    ensures Steady(inst, s)
  {
    if s.run.Working? && s.run.pc < |s.run.plan| { ItemsMembers(inst, s.run.d, s.run.plan[s.run.pc]); }
  }

  lemma OperatorProgress(inst: Instance, s: Sys, i: Input)
    requires Progress(inst, s)
    ensures Progress(inst, OperatorStep(inst, s, i))
  {
    if Busy(inst, s) {
      var s', t := OperatorStep(inst, s, i), Current(s);
      StepMoves(inst, s, i);
      if s'.run.Working? {
        StepKeepsAllPresent(inst, s, i);
        if Provides(s.run.d, t) {
          if s'.run.pc != s.run.pc {
            EndedItemProvides(inst, s, i);
          } else if s'.run.seen[0].obj.Some? && !t.ApplyDeployment? {
            ReadItemProvides(inst, s, i);
          }
        }
        DoneAcross(inst.name, s.run.d, s.run.plan, s.run.pc, s.store, s'.store);
        PlanSteady(inst, s');
      }
    } else {
      NotBusyStops(inst, s, i);
    }
  }

  lemma NotBusyStops(inst: Instance, s: Sys, i: Input)
    requires Progress(inst, s) && !Busy(inst, s)
    ensures !OperatorStep(inst, s, i).run.Working?
  {
  }

  lemma OthersProgress(inst: Instance, s: Sys, store: Store)
    requires Progress(inst, s) && Bystanders(inst, s.store, store)
    ensures Progress(inst, s.(store := store))
  {
    if s.run.Working? {
      forall t | Provides(s.run.d, t) && Present(s.store, WriteKey(inst.name, t))
        ensures Present(store, WriteKey(inst.name, t))
      {
        WriteKeyGenerated(inst.name, t);
        BystandersKeepPresent(inst, s.store, store, WriteKey(inst.name, t));
      }
    }
  }

  /** One step of any kind. */
  lemma ReferencesNext(inst: Instance, s: Sys, l: Label)
    requires Progress(inst, s) && NoDangling(inst, s.store) && Enabled(inst, s, l)
    ensures Progress(inst, Next(inst, s, l)) && NoDangling(inst, Next(inst, s, l).store)
  {
    match l
    case Begin =>
      IntentDefaulted(inst, s.spec);
      PlanSteady(inst, BeginStep(inst, s));
    case Operate(i) =>
      OperatorProgress(inst, s, i);
      OperatorNoDangling(inst, s, i);
    case Others(store) =>
      OthersProgress(inst, s, store);
      BystandersNoDangling(inst, s.store, store);
    case _ =>
  }
}
