/** Quiescence: once a reconcile has succeeded and its Routes are quiet, the next one changes nothing. */
module Quiescence {
  import opened Options
  import opened ObjectNames
  import opened Resolve
  import opened Cluster
  import opened Manifests
  import opened Status
  import opened StatusLaws
  import opened DatabaseUrl
  import opened DatabaseUrlLaws
  import opened Plan
  import opened Machine
  import opened PlanLaws
  import opened Frames
  import opened RouteHosts
  import opened RouteConvergence
  import opened WriteOnce
  import opened Passes
  import opened Incarnations

  // ---- One item ----

  /** What item `t` says about a leftover. */
  function LeftoverSeen(name: string, t: Item, store: Store): bool { t.SeeLeftover? && Present(store, WriteKey(name, t)) }

  /** Doing the item again changes nothing and succeeds. */
  ghost predicate Rests(inst: Instance, d: Desired, t: Item, store: Store) {
    forall i: Input :: Drawn(i.material) ==>
      ItemPass(inst, d, t, store, i) == Outcome(store, true, LeftoverSeen(inst.name, t, store))
  }

  lemma ItemFrame(inst: Instance, d: Desired, t: Item, store: Store, i: Input, k: Key)
    requires Defaulted(inst, d) && Planned(inst, d, t) && k != WriteKey(inst.name, t)
    ensures At(ItemPass(inst, d, t, store, i).store, k) == At(store, k)
  {
    if Writes(Act(inst, d, t, store, i)) { WritesOwnKey(inst, d, t, Reads(inst, d, t, store), i.material); }
  }

  /** Writing what is there already is no change. */
  lemma SameSlotSameStore(store: Store, k: Key)
    requires Present(store, k)
    ensures store[k := At(store, k)] == store
  {
  }

  lemma AppliedRests(inst: Instance, d: Desired, t: Item, was: Store, i: Input, store: Store)
    requires Defaulted(inst, d) && Applies(t) && ItemPass(inst, d, t, was, i).ok
    requires var k := WriteKey(inst.name, t); At(store, k) == At(ItemPass(inst, d, t, was, i).store, k)
    ensures Rests(inst, d, t, store)
  {
    var k := WriteKey(inst.name, t);
    PatchedTwice(At(was, k), inst.uid, AppliedPayload(d, t));
    SameSlotSameStore(store, k);
  }

  /** The Secret-or-else items: what makes them finish at once. */
  ghost predicate Satisfied(inst: Instance, d: Desired, t: Item, s: Slot) {
    && s.obj.Some?
    && (t.EnsureTLS? ==> HasTLSMaterial(s.obj.value.fields))
    && (t.EnsureDatabaseSecret? ==> UrlSettled(inst, s.obj.value))
    && (t.EnsureProxyToken? ==> ControlledBy(s.obj.value, inst.uid)
                                && TextOf(s.obj.value.fields, Data(d.proxy.tokenKey)) != "")
  }

  predicate Ensures(t: Item) { t.EnsureTLS? || t.EnsureDatabaseSecret? || t.EnsureAbbenayToken? || t.EnsureProxyToken? }

  lemma SatisfiedRests(inst: Instance, d: Desired, t: Item, store: Store)
    requires Ensures(t) && Satisfied(inst, d, t, At(store, ReadKey(d, t)))
    ensures Rests(inst, d, t, store)
  {
  }

  lemma TLSSatisfied(inst: Instance, d: Desired, was: Store, i: Input)
    requires Defaulted(inst, d) && ItemPass(inst, d, EnsureTLS, was, i).ok && Drawn(i.material)
    ensures Satisfied(inst, d, EnsureTLS, At(ItemPass(inst, d, EnsureTLS, was, i).store, ReadKey(d, EnsureTLS)))
  {
  }

  lemma TokensSatisfied(inst: Instance, d: Desired, t: Item, was: Store, i: Input)
    requires Defaulted(inst, d) && Planned(inst, d, t) && ItemPass(inst, d, t, was, i).ok && Drawn(i.material)
    requires t.EnsureAbbenayToken? || t.EnsureProxyToken?
    ensures Satisfied(inst, d, t, At(ItemPass(inst, d, t, was, i).store, ReadKey(d, t)))
  {
  }

  /** The database URL is text Go can hold, and net/url prints what it reads. */
  ghost predicate UrlsReadable(inst: Instance, s: Slot) {
    Prints(inst.text) && ReadsOwnUrls(inst) && (s.obj.Some? ==> IsBytes(TextOf(s.obj.value.fields, URL)))
  }

  ghost predicate SettledBy(inst: Instance, s: Slot, a: Action, lingers: bool) {
    && (Writes(a) ==> Answer(inst.uid, s, a, lingers).Done? && Answer(inst.uid, s, a, lingers).slot.obj.Some?
                      && UrlSettled(inst, Answer(inst.uid, s, a, lingers).slot.obj.value))
    && (a.Finish? ==> s.obj.Some? && UrlSettled(inst, s.obj.value))
  }

  lemma UpdateSettled(inst: Instance, s: Slot, a: Action, updated: string, lingers: bool)
    requires s.obj.Some? && a.Update? && a.version == s.version && a.changes == map[URL := Cluster.Text(updated)]
    requires inst.verifyFull(updated) == Some(updated)
    ensures SettledBy(inst, s, a, lingers)
  {
    var o := Answer(inst.uid, s, a, lingers).slot.obj.value;
    assert TextOf(o.fields, URL) == updated;
  }

  /** What the step does with the URL it finds. */
  lemma FoundAction(inst: Instance, d: Desired, s: Slot, m: Material)
    requires s.obj.Some?
    ensures var a, raw := DatabaseSecretAction(inst, d, s, m), TextOf(s.obj.value.fields, URL);
            || (a == Finish(false) && UrlSettled(inst, s.obj.value))
            || a == Fail(OtherError)
            || (inst.verifyFull(raw).Some? && a.Update? && a.version == s.version
                && a.changes == map[URL := Cluster.Text(inst.verifyFull(raw).value)])
  {
  }

  lemma FoundSettled(inst: Instance, d: Desired, s: Slot, m: Material, lingers: bool)
    requires s.obj.Some? && UrlsReadable(inst, s)
    ensures SettledBy(inst, s, DatabaseSecretAction(inst, d, s, m), lingers)
  {
    FoundAction(inst, d, s, m);
    var a, raw := DatabaseSecretAction(inst, d, s, m), TextOf(s.obj.value.fields, URL);
    if a.Update? {
      VerifyFullIdempotent(inst.text, raw);
      UpdateSettled(inst, s, a, inst.verifyFull(raw).value, lingers);
    }
  }

  /** The database Secret after the step for it. */
  lemma DatabaseSlotSettled(inst: Instance, d: Desired, s: Slot, m: Material, lingers: bool)
    requires d.name == inst.name && d.namespace == inst.namespace && Drawn(m) && UrlsReadable(inst, s)
    ensures SettledBy(inst, s, DatabaseSecretAction(inst, d, s, m), lingers)
  {
    if s.obj.None? {
      CreatedSettled(inst, m.password, inst.uid, s);
    } else {
      FoundSettled(inst, d, s, m, lingers);
    }
  }

  lemma DatabaseSecretSatisfied(inst: Instance, d: Desired, was: Store, i: Input)
    requires Defaulted(inst, d) && d.database.mode == Managed && Drawn(i.material)
    requires ItemPass(inst, d, EnsureDatabaseSecret, was, i).ok && UrlsReadable(inst, At(was, DatabaseSecret(inst)))
    ensures Satisfied(inst, d, EnsureDatabaseSecret,
                      At(ItemPass(inst, d, EnsureDatabaseSecret, was, i).store, ReadKey(d, EnsureDatabaseSecret)))
  {
    var s := At(was, DatabaseSecret(inst));
    DatabaseSlotSettled(inst, d, s, i.material, i.lingers);
    var a := Act(inst, d, EnsureDatabaseSecret, was, i);
    DatabaseAct(inst, d, was, i);
    if Writes(a) { AnswerPresent(inst.uid, s, a, i.lingers); }
  }

  lemma DatabaseAct(inst: Instance, d: Desired, was: Store, i: Input)
    requires Defaulted(inst, d) && d.database.mode == Managed
    ensures var a := Act(inst, d, EnsureDatabaseSecret, was, i);
            && a == DatabaseSecretAction(inst, d, At(was, DatabaseSecret(inst)), i.material)
            && !a.Delete? && (Writes(a) ==> a.key == DatabaseSecret(inst))
            && ReadKey(d, EnsureDatabaseSecret) == DatabaseSecret(inst)
  {
  }

  /** After it has succeeded, an item that sees to a Secret is satisfied with what it read or made. */
  lemma SatisfiedWhenDone(inst: Instance, d: Desired, t: Item, was: Store, i: Input)
    requires Defaulted(inst, d) && Planned(inst, d, t) && Ensures(t) && Drawn(i.material)
    requires ItemPass(inst, d, t, was, i).ok
    requires t.EnsureDatabaseSecret? ==> UrlsReadable(inst, At(was, DatabaseSecret(inst)))
    ensures Satisfied(inst, d, t, At(ItemPass(inst, d, t, was, i).store, ReadKey(d, t)))
  {
    if t.EnsureTLS? { TLSSatisfied(inst, d, was, i); }
    else if t.EnsureDatabaseSecret? { DatabaseSecretSatisfied(inst, d, was, i); }
    else { TokensSatisfied(inst, d, t, was, i); }
  }

  /** The objects the Deployment's content is computed from. */
  predicate SameInputs(d: Desired, store: Store, store': Store) {
    && At(store, Key(Secret, d.proxy.tokenName)) == At(store', Key(Secret, d.proxy.tokenName))
    && (d.proxy.caConfigMap != "" ==>
          At(store, Key(ConfigMap, d.proxy.caConfigMap)) == At(store', Key(ConfigMap, d.proxy.caConfigMap)))
  }

  lemma SameDeploymentAct(inst: Instance, d: Desired, was: Store, i: Input, store: Store, j: Input)
    requires SameInputs(d, was, store)
    ensures Act(inst, d, ApplyDeployment, store, j) == Act(inst, d, ApplyDeployment, was, i)
  {
    assert Reads(inst, d, ApplyDeployment, store) == Reads(inst, d, ApplyDeployment, was);
    DeploymentAct(inst, d, Reads(inst, d, ApplyDeployment, was), i.material, j.material);
  }

  lemma DeploymentAct(inst: Instance, d: Desired, seen: seq<Slot>, m: Material, m': Material)
    ensures NextAction(inst, d, ApplyDeployment, seen, m) == NextAction(inst, d, ApplyDeployment, seen, m')
  {
  }

  lemma PatchRests(inst: Instance, d: Desired, t: Item, store: Store, k: Key, payload: Payload, j: Input)
    requires Act(inst, d, t, store, j) == Patch(k, payload) && !t.SeeLeftover?
    requires Present(store, k) && Patched(At(store, k), inst.uid, payload) == Done(At(store, k))
    ensures ItemPass(inst, d, t, store, j) == Outcome(store, true, LeftoverSeen(inst.name, t, store))
  {
    SameSlotSameStore(store, k);
  }

  lemma DeploymentRests(inst: Instance, d: Desired, was: Store, i: Input, store: Store)
    requires Defaulted(inst, d) && ItemPass(inst, d, ApplyDeployment, was, i).ok && SameInputs(d, was, store)
    requires var k := WriteKey(inst.name, ApplyDeployment);
             At(store, k) == At(ItemPass(inst, d, ApplyDeployment, was, i).store, k)
    ensures Rests(inst, d, ApplyDeployment, store)
  {
    var k, a := WriteKey(inst.name, ApplyDeployment), Act(inst, d, ApplyDeployment, was, i);
    DeploymentPatches(inst, d, was, i);
    PatchedTwice(At(was, k), inst.uid, a.payload);
    forall j: Input | Drawn(j.material)
      ensures ItemPass(inst, d, ApplyDeployment, store, j)
           == Outcome(store, true, LeftoverSeen(inst.name, ApplyDeployment, store))
    {
      SameDeploymentAct(inst, d, was, i, store, j);
      PatchRests(inst, d, ApplyDeployment, store, k, a.payload, j);
    }
  }

  lemma DeploymentPatches(inst: Instance, d: Desired, was: Store, i: Input)
    requires Defaulted(inst, d) && ItemPass(inst, d, ApplyDeployment, was, i).ok
    ensures Act(inst, d, ApplyDeployment, was, i).Patch?
    ensures Act(inst, d, ApplyDeployment, was, i).key == WriteKey(inst.name, ApplyDeployment)
  {
  }

  lemma SeeLeftoverRests(inst: Instance, d: Desired, store: Store)
    requires Defaulted(inst, d)
    ensures Rests(inst, d, SeeLeftover, store)
  {
  }

  // ---- Routes ----

  predicate Refused(inst: Instance, d: Desired, t: Item, s: Slot)
    requires OnRoute(t)
  {
    RouteAction(inst, d, t, s).Patch? && Patched(s, inst.uid, RouteAction(inst, d, t, s).payload).Rejected?
  }

  lemma RouteAct(inst: Instance, d: Desired, t: Item, store: Store, i: Input)
    requires Defaulted(inst, d) && OnRoute(t)
    ensures Act(inst, d, t, store, i) == RouteAction(inst, d, t, At(store, WriteKey(inst.name, t)))
  {
    RouteCall(inst, d, t, Reads(inst, d, t, store), i.material);
  }

  lemma RouteAnswer(inst: Instance, d: Desired, t: Item, s: Slot, lingers: bool)
    requires Defaulted(inst, d) && OnRoute(t)
    ensures var a := RouteAction(inst, d, t, s);
            && (Writes(a) ==> a.key == WriteKey(inst.name, t) && (Answer(inst.uid, s, a, lingers).Done? <==> !Refused(inst, d, t, s)))
            && (!Writes(a) ==> a == Finish(false))
            && (Writes(a) && Answer(inst.uid, s, a, lingers) == Done(s) ==> s.obj.Some?)
            && (Refused(inst, d, t, s) ==> Wants(t))
  {
    CallShape(inst, d, t, s);
  }

  lemma RoutePassIs(inst: Instance, d: Desired, t: Item, store: Store, i: Input)
    requires Defaulted(inst, d) && OnRoute(t)
    ensures var k, o := WriteKey(inst.name, t), ItemPass(inst, d, t, store, i);
            && At(o.store, k) == RouteAfter(inst, d, t, At(store, k), i.lingers)
            && !o.leftover && (o.ok <==> !Refused(inst, d, t, At(store, k)))
            && (RouteAfter(inst, d, t, At(store, k), i.lingers) == At(store, k) ==> o.store == store)
  {
    RouteAct(inst, d, t, store, i);
    RouteAnswer(inst, d, t, At(store, WriteKey(inst.name, t)), i.lingers);
    if Present(store, WriteKey(inst.name, t)) { SameSlotSameStore(store, WriteKey(inst.name, t)); }
  }

  /** A Route pass that succeeded leaves no Route that the next one would be refused. */
  lemma RouteNotRefused(inst: Instance, d: Desired, t: Item, s: Slot, lingers: bool)
    requires OnRoute(t) && !Refused(inst, d, t, s)
    ensures !Refused(inst, d, t, RouteAfter(inst, d, t, s, lingers))
  {
  }

  lemma RouteRests(inst: Instance, d: Desired, t: Item, was: Store, i: Input, store: Store)
    requires Defaulted(inst, d) && OnRoute(t) && ItemPass(inst, d, t, was, i).ok
    requires var k := WriteKey(inst.name, t); At(store, k) == At(ItemPass(inst, d, t, was, i).store, k)
    requires Quiet(inst, d, t, At(store, WriteKey(inst.name, t)))
    ensures Rests(inst, d, t, store)
  {
    var k := WriteKey(inst.name, t);
    RoutePassIs(inst, d, t, was, i);
    RouteNotRefused(inst, d, t, At(was, k), i.lingers);
    forall j: Input | Drawn(j.material)
      ensures ItemPass(inst, d, t, store, j) == Outcome(store, true, LeftoverSeen(inst.name, t, store))
    {
      RoutePassIs(inst, d, t, store, j);
    }
  }

  // ---- A whole pass ----

  /** A piece of a plan: items of it, in order. */
  ghost predicate Piece(inst: Instance, d: Desired, ts: seq<Item>) {
    && Defaulted(inst, d)
    && (forall j :: 0 <= j < |ts| ==> Planned(inst, d, ts[j]))
    && (forall i, j :: 0 <= i < j < |ts| ==> Rank(ts[i]) < Rank(ts[j]))
  }

  lemma ItemsPiece(inst: Instance, d: Desired)
    requires Defaulted(inst, d)
    ensures Piece(inst, d, Items(inst, d))
  {
    var ts := Items(inst, d);
    ItemsClimb(inst, d);
    forall i, j | 0 <= i < j < |ts|
      ensures Rank(ts[i]) < Rank(ts[j])
    {
      Ordered(ts, 0, 21, i, j);
    }
    forall j | 0 <= j < |ts|
      ensures Planned(inst, d, ts[j])
    {
      ItemsMembers(inst, d, ts[j]);
    }
  }

  /** Items that write elsewhere leave an object as it is. */
  lemma {:induction false} PassFrame(inst: Instance, d: Desired, ts: seq<Item>, store: Store, lo: bool, env: Inputs, k: Key)
    requires Piece(inst, d, ts) && forall j :: 0 <= j < |ts| ==> k != WriteKey(inst.name, ts[j])
    ensures At(PassFrom(inst, d, ts, store, lo, env).store, k) == At(store, k)
    decreases |ts|
  {
    if ts != [] {
      var o := ItemPass(inst, d, ts[0], store, env(ts[0]));
      ItemFrame(inst, d, ts[0], store, env(ts[0]), k);
      PassFrame(inst, d, ts[1..], o.store, lo || o.leftover, env, k);
    }
  }

  /** The object of the first item is not written again. */
  lemma HeadStays(inst: Instance, d: Desired, ts: seq<Item>, store: Store, lo: bool, env: Inputs)
    requires Piece(inst, d, ts) && |ts| > 0
    ensures At(PassFrom(inst, d, ts[1..], store, lo, env).store, WriteKey(inst.name, ts[0])) == At(store, WriteKey(inst.name, ts[0]))
  {
    forall j | 0 <= j < |ts[1..]|
      ensures WriteKey(inst.name, ts[0]) != WriteKey(inst.name, ts[1..][j])
    {
      if WriteKey(inst.name, ts[0]) == WriteKey(inst.name, ts[j + 1]) { KeyTells(inst.name, ts[0], ts[j + 1]); }
    }
    PassFrame(inst, d, ts[1..], store, lo, env, WriteKey(inst.name, ts[0]));
  }

  predicate TLSThere(s: Slot) { s.obj.Some? && HasTLSMaterial(s.obj.value.fields) }

  lemma ItemKeepsTLS(inst: Instance, d: Desired, t: Item, store: Store, i: Input, k: Key)
    requires Defaulted(inst, d) && Planned(inst, d, t) && k.kind == Secret && TLSThere(At(store, k))
    ensures TLSThere(At(ItemPass(inst, d, t, store, i).store, k))
  {
    if k == WriteKey(inst.name, t) {
      var a := Act(inst, d, t, store, i);
      SecretCall(inst, d, t, Reads(inst, d, t, store), i.material);
      if Writes(a) {
        WritesOwnKey(inst, d, t, Reads(inst, d, t, store), i.material);
        AnswerKeepsTLS(inst.uid, At(store, k), a, i.lingers);
      }
    } else {
      ItemFrame(inst, d, t, store, i, k);
    }
  }

  lemma AnswerKeepsTLS(uid: Uid, s: Slot, a: Action, lingers: bool)
    requires TLSThere(s) && (a.Create? || (a.Update? && a.changes.Keys == {URL}))
    ensures Answer(uid, s, a, lingers).Done? ==> TLSThere(Answer(uid, s, a, lingers).slot)
  {
  }

  lemma {:induction false} PassKeepsTLS(inst: Instance, d: Desired, ts: seq<Item>, store: Store, lo: bool, env: Inputs, k: Key)
    requires Piece(inst, d, ts) && k.kind == Secret && TLSThere(At(store, k))
    ensures TLSThere(At(PassFrom(inst, d, ts, store, lo, env).store, k))
    decreases |ts|
  {
    if ts != [] {
      var o := ItemPass(inst, d, ts[0], store, env(ts[0]));
      ItemKeepsTLS(inst, d, ts[0], store, env(ts[0]), k);
      PassKeepsTLS(inst, d, ts[1..], o.store, lo || o.leftover, env, k);
    }
  }

  // ---- The first pass leaves every item at rest ----

  lemma LateKinds(t: Item)
    requires Rank(t) >= Rank(ApplyDeployment)
    ensures KindOf(t) != Secret && KindOf(t) != ConfigMap
  {
  }

  lemma DeploymentInputsStay(inst: Instance, d: Desired, ts: seq<Item>, store: Store, lo: bool, env: Inputs)
    requires Piece(inst, d, ts) && |ts| > 0 && ts[0] == ApplyDeployment
    ensures SameInputs(d, store, PassFrom(inst, d, ts, store, lo, env).store)
  {
    forall j | 0 <= j < |ts|
      ensures KindOf(ts[j]) != Secret && KindOf(ts[j]) != ConfigMap
    {
      LateKinds(ts[j]);
    }
    PassFrame(inst, d, ts, store, lo, env, Key(Secret, d.proxy.tokenName));
    PassFrame(inst, d, ts, store, lo, env, Key(ConfigMap, d.proxy.caConfigMap));
  }

  /** The first item of a pass that succeeds is at rest once the pass is over. */
  lemma HeadRests(inst: Instance, d: Desired, ts: seq<Item>, store: Store, lo: bool, env: Inputs, o: Outcome, end: Store)
    requires Piece(inst, d, ts) && |ts| > 0 && Smooth(env)
    requires o == ItemPass(inst, d, ts[0], store, env(ts[0])) && o.ok
    requires end == PassFrom(inst, d, ts[1..], o.store, lo, env).store
    requires ts[0].EnsureDatabaseSecret? ==> UrlsReadable(inst, At(store, DatabaseSecret(inst)))
    requires OnRoute(ts[0]) ==> Quiet(inst, d, ts[0], At(end, WriteKey(inst.name, ts[0])))
    requires ts[0].ApplyDeployment? ==> SameInputs(d, store, end)
    ensures Rests(inst, d, ts[0], end)
  {
    var t := ts[0];
    HeadStays(inst, d, ts, o.store, lo, env);
    if Applies(t) {
      AppliedRests(inst, d, t, store, env(t), end);
    } else if t.ApplyDeployment? {
      DeploymentRests(inst, d, store, env(t), end);
    } else if t.SeeLeftover? {
      SeeLeftoverRests(inst, d, end);
    } else if OnRoute(t) {
      RouteRests(inst, d, t, store, env(t), end);
    } else {
      EnsuredRests(inst, d, ts, store, lo, env, o, end);
    }
  }

  lemma EnsuredRests(inst: Instance, d: Desired, ts: seq<Item>, store: Store, lo: bool, env: Inputs, o: Outcome, end: Store)
    requires Piece(inst, d, ts) && |ts| > 0 && Smooth(env) && Ensures(ts[0])
    requires o == ItemPass(inst, d, ts[0], store, env(ts[0])) && o.ok
    requires end == PassFrom(inst, d, ts[1..], o.store, lo, env).store
    requires ts[0].EnsureDatabaseSecret? ==> UrlsReadable(inst, At(store, DatabaseSecret(inst)))
    requires At(end, WriteKey(inst.name, ts[0])) == At(o.store, WriteKey(inst.name, ts[0]))
    ensures Rests(inst, d, ts[0], end)
  {
    var t := ts[0];
    SatisfiedWhenDone(inst, d, t, store, env(t));
    if t.EnsureTLS? {
      PassKeepsTLS(inst, d, ts[1..], o.store, lo, env, ReadKey(d, t));
    } else {
      EnsuresOwn(inst, d, t);
    }
    SatisfiedRests(inst, d, t, end);
  }

  lemma EnsuresOwn(inst: Instance, d: Desired, t: Item)
    requires Defaulted(inst, d) && Planned(inst, d, t) && Ensures(t) && !t.EnsureTLS?
    ensures ReadKey(d, t) == WriteKey(inst.name, t)
  {
  }

  predicate LeftoverIn(name: string, ts: seq<Item>, store: Store) {
    exists j :: 0 <= j < |ts| && LeftoverSeen(name, ts[j], store)
  }

  ghost predicate AllRest(inst: Instance, d: Desired, ts: seq<Item>, store: Store) {
    forall j :: 0 <= j < |ts| ==> Rests(inst, d, ts[j], store)
  }

  /** Every Route of the plan is at rest. */
  ghost predicate RoutesAtRest(inst: Instance, d: Desired, ts: seq<Item>, store: Store) {
    forall j :: 0 <= j < |ts| && OnRoute(ts[j]) ==> AtRest(inst, d, ts[j], At(store, WriteKey(inst.name, ts[j])))
  }

  /** Every Route of the plan is as desired. */
  ghost predicate RoutesAsDesired(inst: Instance, d: Desired, ts: seq<Item>, store: Store) {
    forall j :: 0 <= j < |ts| && OnRoute(ts[j]) ==> AsDesired(inst, d, ts[j], At(store, WriteKey(inst.name, ts[j])))
  }

  /** The URL in the database Secret is readable, if an item still to come reads it. */
  ghost predicate UrlReadable(inst: Instance, ts: seq<Item>, store: Store) {
    EnsureDatabaseSecret in ts ==> UrlsReadable(inst, At(store, DatabaseSecret(inst)))
  }

  lemma UrlStaysReadable(inst: Instance, d: Desired, ts: seq<Item>, store: Store, i: Input)
    requires Piece(inst, d, ts) && |ts| > 0 && UrlReadable(inst, ts, store)
    ensures UrlReadable(inst, ts[1..], ItemPass(inst, d, ts[0], store, i).store)
  {
    if EnsureDatabaseSecret in ts[1..] {
      var j :| 0 <= j < |ts[1..]| && ts[1..][j] == EnsureDatabaseSecret;
      assert Rank(ts[0]) < Rank(ts[j + 1]);
      if WriteKey(inst.name, ts[0]) == DatabaseSecret(inst) { KeyTells(inst.name, ts[0], EnsureDatabaseSecret); }
      ItemFrame(inst, d, ts[0], store, i, DatabaseSecret(inst));
    }
  }

  /** The item is at rest, unless it is about a Route that is not quiet; and no Route call would be refused. */
  ghost predicate RestsButForRoutes(inst: Instance, d: Desired, t: Item, store: Store) {
    && (OnRoute(t) ==> !Refused(inst, d, t, At(store, WriteKey(inst.name, t))))
    && ((OnRoute(t) ==> Quiet(inst, d, t, At(store, WriteKey(inst.name, t)))) ==> Rests(inst, d, t, store))
  }

  lemma HeadNotRefused(inst: Instance, d: Desired, ts: seq<Item>, store: Store, lo: bool, env: Inputs, o: Outcome, end: Store)
    requires Piece(inst, d, ts) && |ts| > 0 && OnRoute(ts[0])
    requires o == ItemPass(inst, d, ts[0], store, env(ts[0])) && o.ok
    requires end == PassFrom(inst, d, ts[1..], o.store, lo, env).store
    ensures !Refused(inst, d, ts[0], At(end, WriteKey(inst.name, ts[0])))
  {
    HeadStays(inst, d, ts, o.store, lo, env);
    RoutePassIs(inst, d, ts[0], store, env(ts[0]));
    RouteNotRefused(inst, d, ts[0], At(store, WriteKey(inst.name, ts[0])), env(ts[0]).lingers);
  }

  /** The first item of a pass that succeeds is at rest when the pass ends. */
  lemma HeadEndsAtRest(inst: Instance, d: Desired, ts: seq<Item>, store: Store, lo: bool, env: Inputs, o: Outcome, end: Store)
    requires Piece(inst, d, ts) && Smooth(env) && ts != [] && UrlReadable(inst, ts, store)
    requires PassFrom(inst, d, ts, store, lo, env).ok && end == PassFrom(inst, d, ts, store, lo, env).store
    requires o == ItemPass(inst, d, ts[0], store, env(ts[0]))
    ensures RestsButForRoutes(inst, d, ts[0], end)
  {
    if ts[0].ApplyDeployment? { DeploymentInputsStay(inst, d, ts, store, lo, env); }
    if OnRoute(ts[0]) { HeadNotRefused(inst, d, ts, store, lo || o.leftover, env, o, end); }
    if OnRoute(ts[0]) ==> Quiet(inst, d, ts[0], At(end, WriteKey(inst.name, ts[0]))) {
      HeadRests(inst, d, ts, store, lo || o.leftover, env, o, end);
    }
  }

  lemma {:induction false} PassRests(inst: Instance, d: Desired, ts: seq<Item>, store: Store, lo: bool, env: Inputs, end: Store)
    requires Piece(inst, d, ts) && Smooth(env) && PassFrom(inst, d, ts, store, lo, env).ok
    requires end == PassFrom(inst, d, ts, store, lo, env).store && UrlReadable(inst, ts, store)
    ensures forall j :: 0 <= j < |ts| ==> RestsButForRoutes(inst, d, ts[j], end)
    decreases |ts|
  {
    if ts != [] {
      var o := ItemPass(inst, d, ts[0], store, env(ts[0]));
      HeadEndsAtRest(inst, d, ts, store, lo, env, o, end);
      UrlStaysReadable(inst, d, ts, store, env(ts[0]));
      PassRests(inst, d, ts[1..], o.store, lo || o.leftover, env, end);
      assert forall j :: 0 < j < |ts| ==> ts[j] == ts[1..][j - 1];
    }
  }

  /** A pass over items at rest. */
  lemma {:induction false} RestingPass(inst: Instance, d: Desired, ts: seq<Item>, store: Store, lo: bool, env: Inputs)
    requires AllRest(inst, d, ts, store) && Smooth(env)
    ensures PassFrom(inst, d, ts, store, lo, env) == Outcome(store, true, lo || LeftoverIn(inst.name, ts, store))
    decreases |ts|
  {
    if ts != [] {
      assert Rests(inst, d, ts[0], store);
      RestingPass(inst, d, ts[1..], store, lo || LeftoverSeen(inst.name, ts[0], store), env);
      LeftoverSplit(inst.name, ts, store);
    }
  }

  lemma LeftoverSplit(name: string, ts: seq<Item>, store: Store)
    requires |ts| > 0
    ensures LeftoverIn(name, ts, store) <==> LeftoverSeen(name, ts[0], store) || LeftoverIn(name, ts[1..], store)
  {
    if LeftoverIn(name, ts[1..], store) {
      var j :| 0 <= j < |ts[1..]| && LeftoverSeen(name, ts[1..][j], store);
      assert LeftoverSeen(name, ts[j + 1], store);
    }
    if LeftoverIn(name, ts, store) && !LeftoverSeen(name, ts[0], store) {
      var j :| 0 <= j < |ts| && LeftoverSeen(name, ts[j], store);
      assert LeftoverSeen(name, ts[1..][j - 1], store);
    }
  }

  /** Only the look for a leftover reports one. */
  lemma ItemLeftover(inst: Instance, d: Desired, t: Item, store: Store, i: Input)
    requires Defaulted(inst, d)
    ensures var o := ItemPass(inst, d, t, store, i);
            (t.SeeLeftover? ==> o == Outcome(store, true, LeftoverSeen(inst.name, t, store))) && (!t.SeeLeftover? ==> !o.leftover)
  {
  }

  /** What a pass says about a leftover is still true when it ends. */
  lemma {:induction false} PassLeftover(inst: Instance, d: Desired, ts: seq<Item>, store: Store, lo: bool, env: Inputs)
    requires Piece(inst, d, ts) && PassFrom(inst, d, ts, store, lo, env).ok
    ensures var o := PassFrom(inst, d, ts, store, lo, env); o.leftover <==> lo || LeftoverIn(inst.name, ts, o.store)
    decreases |ts|
  {
    if ts != [] {
      var o := ItemPass(inst, d, ts[0], store, env(ts[0]));
      ItemLeftover(inst, d, ts[0], store, env(ts[0]));
      PassLeftover(inst, d, ts[1..], o.store, lo || o.leftover, env);
      HeadStays(inst, d, ts, o.store, lo || o.leftover, env);
      LeftoverSplit(inst.name, ts, PassFrom(inst, d, ts, store, lo, env).store);
    }
  }

  // ---- Routes in a whole pass ----

  /** A pass that succeeds does to a Route of its plan exactly what the item for it does. */
  lemma {:induction false} PassOnRoute(inst: Instance, d: Desired, ts: seq<Item>, store: Store, lo: bool, env: Inputs, j: nat)
    requires Piece(inst, d, ts) && j < |ts| && OnRoute(ts[j]) && PassFrom(inst, d, ts, store, lo, env).ok
    ensures var k := WriteKey(inst.name, ts[j]);
            At(PassFrom(inst, d, ts, store, lo, env).store, k)
            == RouteAfter(inst, d, ts[j], At(store, k), env(ts[j]).lingers)
    decreases |ts|
  {
    var o := ItemPass(inst, d, ts[0], store, env(ts[0]));
    if j == 0 {
      RoutePassIs(inst, d, ts[0], store, env(ts[0]));
      HeadStays(inst, d, ts, o.store, lo || o.leftover, env);
    } else {
      if WriteKey(inst.name, ts[0]) == WriteKey(inst.name, ts[j]) { KeyTells(inst.name, ts[0], ts[j]); }
      ItemFrame(inst, d, ts[0], store, env(ts[0]), WriteKey(inst.name, ts[j]));
      assert ts[1..][j - 1] == ts[j];
      PassOnRoute(inst, d, ts[1..], o.store, lo || o.leftover, env, j - 1);
    }
  }

  /** Once the Routes are as desired, a pass that succeeds leaves them so, and at rest. */
  lemma RoutesComeToRest(inst: Instance, d: Desired, ts: seq<Item>, store: Store, lo: bool, env: Inputs)
    requires Piece(inst, d, ts) && PassFrom(inst, d, ts, store, lo, env).ok && RoutesAsDesired(inst, d, ts, store)
    ensures RoutesAtRest(inst, d, ts, PassFrom(inst, d, ts, store, lo, env).store)
    ensures RoutesAsDesired(inst, d, ts, PassFrom(inst, d, ts, store, lo, env).store)
  {
    forall j: nat | j < |ts| && OnRoute(ts[j])
      ensures var s := At(PassFrom(inst, d, ts, store, lo, env).store, WriteKey(inst.name, ts[j]));
              AtRest(inst, d, ts[j], s) && AsDesired(inst, d, ts[j], s)
    {
      PassOnRoute(inst, d, ts, store, lo, env, j);
      DoneComesToRest(inst, d, ts[j], At(store, WriteKey(inst.name, ts[j])), env(ts[j]).lingers);
    }
  }

  // ---- The theorem ----

  lemma RestFromParts(inst: Instance, d: Desired, ts: seq<Item>, store: Store)
    requires RoutesAtRest(inst, d, ts, store) && forall j :: 0 <= j < |ts| ==> RestsButForRoutes(inst, d, ts[j], store)
    ensures AllRest(inst, d, ts, store)
  {
    forall j | 0 <= j < |ts|
      ensures Rests(inst, d, ts[j], store)
    {
      assert RestsButForRoutes(inst, d, ts[j], store);
      if OnRoute(ts[j]) { QuietIffAtRest(inst, d, ts[j], At(store, WriteKey(inst.name, ts[j]))); }
    }
  }

  /** A reconcile that succeeds and leaves its Routes at rest has come to rest: the next one, on the cluster it left,
      computes the same outcome and changes nothing. */
  lemma RestingRoutesSuffice(inst: Instance, d: Desired, store: Store, env: Inputs, env': Inputs, o: Outcome)
    requires Defaulted(inst, d) && Smooth(env) && Smooth(env')
    requires o == PassFrom(inst, d, Items(inst, d), store, false, env) && o.ok
    requires UrlReadable(inst, Items(inst, d), store) && RoutesAtRest(inst, d, Items(inst, d), o.store)
    ensures PassFrom(inst, d, Items(inst, d), o.store, false, env') == o
  {
    var ts := Items(inst, d);
    ItemsPiece(inst, d);
    PassRests(inst, d, ts, store, false, env, o.store);
    RestFromParts(inst, d, ts, o.store);
    RestingPass(inst, d, ts, o.store, false, env');
    PassLeftover(inst, d, ts, store, false, env);
  }

  /** Once the Routes have converged, the second of two ensureAlls changes nothing. */
  lemma SecondPassRests(inst: Instance, d: Desired, store: Store, env: Inputs, env': Inputs, o: Outcome)
    requires Defaulted(inst, d) && Smooth(env) && Smooth(env')
    requires o == PassFrom(inst, d, Items(inst, d), store, false, env) && o.ok
    requires UrlReadable(inst, Items(inst, d), store) && RoutesAsDesired(inst, d, Items(inst, d), store)
    ensures PassFrom(inst, d, Items(inst, d), o.store, false, env') == o
  {
    ItemsPiece(inst, d);
    RoutesComeToRest(inst, d, Items(inst, d), store, false, env);
    RestingRoutesSuffice(inst, d, store, env, env', o);
  }

  lemma SameEnd(inst: Instance, s: Sys, d: Desired, generation: nat, o: Outcome, last: Input, last': Input)
    requires last'.imagePull == last.imagePull
    ensures Ended(inst, Ended(inst, s, d, generation, o, last), d, generation, o, last').status
         == Ended(inst, s, d, generation, o, last).status
  {
    ReportAgain(s.status, EndReport(inst, d, generation, o, last), last'.now);
  }

  /** The database URL in the store, if any, is text Go can hold, and net/url reads back what it prints. */
  ghost predicate UrlHeld(inst: Instance, store: Store) {
    && Prints(inst.text) && ReadsOwnUrls(inst)
    && (Present(store, DatabaseSecret(inst)) ==> IsBytes(TextOf(At(store, DatabaseSecret(inst)).obj.value.fields, URL)))
  }

  /** Once the Routes have converged, the second reconcile of an unchanged cluster leaves the whole store and the whole
      status as they are, though the clock has moved. */
  lemma SecondReconcileChangesNothing(inst: Instance, s: Sys, env: Inputs, last: Input, env': Inputs, last': Input)
    requires Smooth(env) && Smooth(env') && last'.imagePull == last.imagePull
    requires Pass(inst, s.spec, s.store, env).ok && UrlHeld(inst, s.store)
    requires var d := IntentOf(inst, s.spec); RoutesAsDesired(inst, d, Items(inst, d), s.store)
    ensures var s1 := AfterPass(inst, s, env, last);
            var s2 := AfterPass(inst, s1, env', last');
            s2.store == s1.store && s2.status == s1.status && Pass(inst, s1.spec, s1.store, env').ok
  {
    var d, o := IntentOf(inst, s.spec), Pass(inst, s.spec, s.store, env);
    IntentDefaulted(inst, s.spec);
    SecondPassRests(inst, d, s.store, env, env', o);
    SameEnd(inst, s, d, s.generation, o, last, last');
  }

  // ---- And Routes at rest are what it takes ----

  /** A Route item of which a pass with these inputs changes its Route. */
  ghost predicate Stirs(inst: Instance, d: Desired, t: Item, store: Store, env: Inputs) {
    OnRoute(t) && RouteAfter(inst, d, t, At(store, WriteKey(inst.name, t)), env(t).lingers) != At(store, WriteKey(inst.name, t))
  }

  lemma HeadStill(inst: Instance, d: Desired, t: Item, store: Store, env: Inputs)
    requires Defaulted(inst, d) && Smooth(env) && RestsButForRoutes(inst, d, t, store) && !Stirs(inst, d, t, store, env)
    ensures ItemPass(inst, d, t, store, env(t)).ok && ItemPass(inst, d, t, store, env(t)).store == store
  {
    if OnRoute(t) { RoutePassIs(inst, d, t, store, env(t)); } else { assert Rests(inst, d, t, store); }
  }

  lemma HeadStirs(inst: Instance, d: Desired, ts: seq<Item>, store: Store, lo: bool, env: Inputs)
    requires Piece(inst, d, ts) && Smooth(env) && ts != [] && Stirs(inst, d, ts[0], store, env)
    requires RestsButForRoutes(inst, d, ts[0], store)
    ensures PassFrom(inst, d, ts, store, lo, env).store != store
  {
    var k := WriteKey(inst.name, ts[0]);
    var o := ItemPass(inst, d, ts[0], store, env(ts[0]));
    RoutePassIs(inst, d, ts[0], store, env(ts[0]));
    HeadStays(inst, d, ts, o.store, lo || o.leftover, env);
    assert At(PassFrom(inst, d, ts, store, lo, env).store, k) != At(store, k);
  }

  lemma {:induction false} StirringPass(inst: Instance, d: Desired, ts: seq<Item>, store: Store, lo: bool, env: Inputs, j: nat)
    requires Piece(inst, d, ts) && Smooth(env) && j < |ts| && Stirs(inst, d, ts[j], store, env)
    requires forall i :: 0 <= i < |ts| ==> RestsButForRoutes(inst, d, ts[i], store)
    ensures PassFrom(inst, d, ts, store, lo, env).store != store
    decreases |ts|
  {
    var o := ItemPass(inst, d, ts[0], store, env(ts[0]));
    if Stirs(inst, d, ts[0], store, env) {
      HeadStirs(inst, d, ts, store, lo, env);
    } else {
      HeadStill(inst, d, ts[0], store, env);
      assert forall i :: 0 <= i < |ts[1..]| ==> ts[1..][i] == ts[i + 1];
      StirringPass(inst, d, ts[1..], store, lo || o.leftover, env, j - 1);
    }
  }

  /** After a reconcile that succeeds, a Route that is not at rest makes some next reconcile of the unchanged cluster
      change the store: with RestingRoutesSuffice, all next ones change nothing if and only if the Routes are at rest. */
  lemma RestingRoutesNeeded(inst: Instance, d: Desired, store: Store, env: Inputs, o: Outcome) returns (env': Inputs)
    requires Defaulted(inst, d) && Smooth(env)
    requires o == PassFrom(inst, d, Items(inst, d), store, false, env) && o.ok
    requires UrlReadable(inst, Items(inst, d), store) && !RoutesAtRest(inst, d, Items(inst, d), o.store)
    ensures Smooth(env') && PassFrom(inst, d, Items(inst, d), o.store, false, env').store != o.store
  {
    var ts := Items(inst, d);
    ItemsPiece(inst, d);
    PassRests(inst, d, ts, store, false, env, o.store);
    var j :| 0 <= j < |ts| && OnRoute(ts[j]) && !AtRest(inst, d, ts[j], At(o.store, WriteKey(inst.name, ts[j])));
    var s := At(o.store, WriteKey(inst.name, ts[j]));
    QuietIffAtRest(inst, d, ts[j], s);
    var lingers := RouteAfter(inst, d, ts[j], s, true) != s;
    env' := (t: Item) => env(t).(lingers := lingers);
    StirringPass(inst, d, ts, o.store, false, env', j);
  }
}
