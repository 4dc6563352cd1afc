/** Hosts of Routes: no step moves the host of a live Route the operator controls. */
module RouteHosts {
  import opened Options
  import opened ObjectNames
  import opened Resolve
  import PluginPorts
  import opened Cluster
  import opened Manifests
  import opened Plan
  import opened Machine
  import opened Frames
  import opened References
  import opened Reach
  import opened Incarnations

  /** What the operator remembers of such a Route agrees too. */
  ghost predicate SeenAgrees(inst: Instance, s: Sys) {
    Busy(inst, s) && OnRoute(Current(s)) && s.run.seen != [] ==>
      s.run.seen[0].obj.Some? && ControlledBy(s.run.seen[0].obj.value, inst.uid) ==> HostAgrees(s.run.seen[0].obj.value)
  }

  ghost predicate HostsHold(inst: Instance, s: Sys) { HostsAgree(inst, s.store) && SeenAgrees(inst, s) }

  lemma OthersKeepAgreement(inst: Instance, store: Store, store': Store)
    requires HostsAgree(inst, store) && Bystanders(inst, store, store')
    ensures HostsAgree(inst, store')
  {
    forall k: Key | k.kind == Route && Owned(store', k, inst.uid)
      ensures HostAgrees(At(store', k).obj.value)
    {
      assert Bystander(inst.name, inst.uid, k, At(store, k), At(store', k));
      AgreementKept(inst.uid, At(store, k).obj.value, At(store', k).obj.value);
    }
  }

  lemma AgreementKept(uid: Uid, o: Obj, o': Obj)
    requires SameIncarnation(uid, o, o') && ControlledBy(o, uid) && HostAgrees(o)
    ensures HostAgrees(o') && (HostOf(o) != "" ==> HostOf(o') == HostOf(o))
  {
    assert Kept(o, DesiredHost);
    assert SameField(o.fields, o'.fields, DesiredHost);
    if HostOf(o) != "" {
      assert Kept(o, Host);
      assert SameField(o.fields, o'.fields, Host);
    }
  }

  // ---- What the operator applies ----

  /** A payload for a Route: the annotation is there, and a nonempty one is the payload's host. */
  predicate RouteShape(p: Payload) {
    && DesiredHost in p && p[DesiredHost].Text?
    && (p[DesiredHost].text != "" ==> Host in p && p[Host] == p[DesiredHost])
    && (Host in p ==> TextOf(p, Host) != "")
  }

  lemma WantedShape(d: Desired, t: Item)
    requires Wants(t)
    ensures RouteShape(WantedPayload(d, t))
    ensures TextOf(WantedPayload(d, t), Host) == TextOf(WantedPayload(d, t), DesiredHost) == d.exposure.routeHost
  {
  }

  lemma PreservedShape(existing: Payload, desired: Payload)
    requires RouteShape(desired)
    ensures RouteShape(PreserveHost(existing, desired))
  {
  }

  lemma PatchedAgrees(uid: Uid, s: Slot, payload: Payload)
    requires RouteShape(payload) && Patched(s, uid, payload).Done?
    ensures HostAgrees(Patched(s, uid, payload).slot.obj.value)
  {
    PatchedFields(s, uid, payload, Host);
    PatchedFields(s, uid, payload, DesiredHost);
  }

  /** Applying a payload to a live Route found fit to keep its name leaves its host alone. */
  lemma ApplyKeepsHost(uid: Uid, seen: Obj, o: Obj, desired: Payload, s: Slot)
    requires s.obj == Some(o) && ControlledBy(seen, uid) && SameIncarnation(uid, seen, o)
    requires HostAgrees(seen) && HostAgrees(o)
    requires RouteShape(desired) && TextOf(desired, Host) == TextOf(desired, DesiredHost)
    requires !NeedsRecreate(seen.fields, desired) && HostOf(o) != ""
    ensures var r := Patched(s, uid, PreserveHost(seen.fields, desired));
            r.Done? && HostOf(r.slot.obj.value) == HostOf(o)
  {
    var payload := PreserveHost(seen.fields, desired);
    PatchedFields(s, uid, payload, Host);
    assert Kept(seen, DesiredHost) && SameField(seen.fields, o.fields, DesiredHost);
    if HostOf(seen) != "" {
      assert Kept(seen, Host) && SameField(seen.fields, o.fields, Host);
    }
  }

  // ---- The invariant ----

  /** The operator's call on a Route it has looked at. */
  lemma RouteCall(inst: Instance, d: Desired, t: Item, seen: seq<Slot>, m: Material)
    requires OnRoute(t) && seen != []
    ensures NextAction(inst, d, t, seen, m) == RouteAction(inst, d, t, seen[0])
  {
  }

  lemma CallShape(inst: Instance, d: Desired, t: Item, s: Slot)
    requires OnRoute(t)
    ensures var a := RouteAction(inst, d, t, s);
            && !a.Create? && !a.Update? && !a.Get?
            && (a.Patch? ==> RouteShape(a.payload) && Wants(t))
  {
    if Wants(t) {
      WantedShape(d, t);
      if s.obj.Some? { PreservedShape(s.obj.value.fields, WantedPayload(d, t)); }
    }
  }

  lemma AnswerAgrees(uid: Uid, s: Slot, a: Action, lingers: bool)
    requires (a.Patch? && RouteShape(a.payload)) || a.Delete?
    requires s.obj.Some? && ControlledBy(s.obj.value, uid) ==> HostAgrees(s.obj.value)
    requires Answer(uid, s, a, lingers).Done?
    ensures var o := Answer(uid, s, a, lingers).slot.obj;
            o.Some? && ControlledBy(o.value, uid) ==> HostAgrees(o.value)
  {
    if a.Patch? { PatchedAgrees(uid, s, a.payload); }
  }

  lemma RouteItemByKind(inst: Instance, s: Sys)
    requires Busy(inst, s) && KindOf(Current(s)) == Route
    ensures OnRoute(Current(s))
  {
  }

  lemma OperatorKeepsAgreement(inst: Instance, s: Sys, i: Input)
    requires Sane(inst, s) && HostsAgree(inst, s.store)
    ensures HostsAgree(inst, OperatorStep(inst, s, i).store)
  {
    var store' := OperatorStep(inst, s, i).store;
    if Busy(inst, s) {
      var t, a := Current(s), CurrentAction(inst, s, i);
      var w := WriteKey(inst.name, t);
      StepEffect(inst, s, i);
      forall k: Key | k.kind == Route && Owned(store', k, inst.uid)
        ensures HostAgrees(At(store', k).obj.value)
      {
        if At(store', k) == At(s.store, k) {
          assert Owned(s.store, k, inst.uid);
        } else {
          RouteItemByKind(inst, s);
          if s.run.seen != [] {
            RouteCall(inst, s.run.d, t, s.run.seen, i.material);
            CallShape(inst, s.run.d, t, s.run.seen[0]);
          }
          AnswerAgrees(inst.uid, At(s.store, w), a, i.lingers);
        }
      }
    } else {
      OtherStepsKeepStore(inst, s, i);
    }
  }

  // ---- Carrying a host along ----

  /** What any step may do to the incarnation in a slot: end it for good, or keep its owner and its host. */
  predicate Carries(uid: Uid, s: Slot, s': Slot) {
    && s'.version >= s.version
    && (s'.obj.Some? && s'.obj.value.born <= s.version ==>
          && s.obj.Some? && s'.obj.value.born == s.obj.value.born
          && (ControlledBy(s.obj.value, uid) ==>
                ControlledBy(s'.obj.value, uid)
                && (HostOf(s.obj.value) != "" ==> HostOf(s'.obj.value) == HostOf(s.obj.value))))
  }

  lemma CarriesTransitive(uid: Uid, s: Slot, t: Slot, u: Slot)
    requires Carries(uid, s, t) && Carries(uid, t, u)
    ensures Carries(uid, s, u)
  {
  }

  lemma BystanderCarries(inst: Instance, k: Key, s: Slot, s': Slot)
    requires Bystander(inst.name, inst.uid, k, s, s') && WellBorn(s)
    requires s.obj.Some? && ControlledBy(s.obj.value, inst.uid) ==> HostAgrees(s.obj.value)
    ensures Carries(inst.uid, s, s')
  {
    if s.obj.Some? && s'.obj.Some? && s'.obj.value.born == s.obj.value.born && ControlledBy(s.obj.value, inst.uid) {
      AgreementKept(inst.uid, s.obj.value, s'.obj.value);
    }
  }

  /** A Route the operator controls now is the one it saw. */
  lemma OwnedWasSeen(inst: Instance, s: Sys)
    requires Busy(inst, s) && OnRoute(Current(s)) && s.run.seen != [] && ObjectSeen(inst, s)
    requires Owned(s.store, WriteKey(inst.name, Current(s)), inst.uid)
    ensures s.run.seen[0].obj.Some? && ControlledBy(s.run.seen[0].obj.value, inst.uid)
    ensures SameIncarnation(inst.uid, s.run.seen[0].obj.value, At(s.store, WriteKey(inst.name, Current(s))).obj.value)
  {
    RoutesLook(inst, s.run.d, Current(s));
  }

  lemma PatchCarries(inst: Instance, d: Desired, t: Item, seen: Slot, s: Slot)
    requires OnRoute(t) && RouteAction(inst, d, t, seen).Patch?
    requires seen.obj.Some? && ControlledBy(seen.obj.value, inst.uid) && HostAgrees(seen.obj.value)
    requires s.obj.Some? && HostAgrees(s.obj.value) && HostOf(s.obj.value) != ""
    requires SameIncarnation(inst.uid, seen.obj.value, s.obj.value)
    ensures var r := Patched(s, inst.uid, RouteAction(inst, d, t, seen).payload);
            r.Done? && HostOf(r.slot.obj.value) == HostOf(s.obj.value)
  {
    CallShape(inst, d, t, seen);
    WantedShape(d, t);
    ApplyKeepsHost(inst.uid, seen.obj.value, s.obj.value, WantedPayload(d, t), s);
  }

  lemma AnswerCarries(uid: Uid, s: Slot, a: Action, lingers: bool)
    requires (a.Patch? || a.Delete?) && WellBorn(s) && Answer(uid, s, a, lingers).Done?
    requires a.Patch? && s.obj.Some? && ControlledBy(s.obj.value, uid) && HostOf(s.obj.value) != "" ==>
               HostOf(Answer(uid, s, a, lingers).slot.obj.value) == HostOf(s.obj.value)
    ensures Carries(uid, s, Answer(uid, s, a, lingers).slot)
  {
  }

  lemma OperatorCarries(inst: Instance, s: Sys, i: Input, k: Key)
    requires Sane(inst, s) && HostsHold(inst, s) && k.kind == Route
    ensures Carries(inst.uid, At(s.store, k), At(OperatorStep(inst, s, i).store, k))
  {
    var store' := OperatorStep(inst, s, i).store;
    if Busy(inst, s) {
      StepEffect(inst, s, i);
      if At(store', k) != At(s.store, k) {
        RouteCallCarries(inst, s, i, CurrentAction(inst, s, i));
      }
    } else {
      OtherStepsKeepStore(inst, s, i);
    }
  }

  lemma RouteCallCarries(inst: Instance, s: Sys, i: Input, a: Action)
    requires Sane(inst, s) && HostsHold(inst, s) && Busy(inst, s) && a == CurrentAction(inst, s, i)
    requires KindOf(Current(s)) == Route && Writes(a)
    requires Answer(inst.uid, At(s.store, WriteKey(inst.name, Current(s))), a, i.lingers).Done?
    ensures var k := WriteKey(inst.name, Current(s));
            Carries(inst.uid, At(s.store, k), Answer(inst.uid, At(s.store, k), a, i.lingers).slot)
  {
    var t := Current(s);
    var k := WriteKey(inst.name, t);
    RouteItemByKind(inst, s);
    assert s.run.seen != [];
    RouteCall(inst, s.run.d, t, s.run.seen, i.material);
    CallShape(inst, s.run.d, t, s.run.seen[0]);
    if a.Patch? && Owned(s.store, k, inst.uid) && HostOf(At(s.store, k).obj.value) != "" {
      OwnedWasSeen(inst, s);
      PatchCarries(inst, s.run.d, t, s.run.seen[0], At(s.store, k));
    }
    AnswerCarries(inst.uid, At(s.store, k), a, i.lingers);
  }

  lemma OperatorSeenAgrees(inst: Instance, s: Sys, i: Input)
    requires Sane(inst, s) && HostsHold(inst, s)
    ensures SeenAgrees(inst, OperatorStep(inst, s, i))
  {
    var s' := OperatorStep(inst, s, i);
    if Busy(inst, s) {
      StepMoves(inst, s, i);
      if s'.run.Working? && s'.run.pc == s.run.pc && OnRoute(Current(s)) {
        RoutesLook(inst, s.run.d, Current(s));
        LookReads(inst, s.run.d, Current(s), s.run.seen, i.material);
      }
    } else {
      NotBusyStops(inst, s, i);
    }
  }

  lemma NextHolds(inst: Instance, s: Sys, l: Label)
    requires Sane(inst, s) && HostsHold(inst, s) && Enabled(inst, s, l)
    ensures HostsHold(inst, Next(inst, s, l))
  {
    match l
    case Operate(i) =>
      OperatorKeepsAgreement(inst, s, i);
      OperatorSeenAgrees(inst, s, i);
    case Others(store) => OthersKeepAgreement(inst, s.store, store);
    case _ =>
  }

  lemma NextCarries(inst: Instance, s: Sys, l: Label, k: Key)
    requires Sane(inst, s) && HostsHold(inst, s) && k.kind == Route && Enabled(inst, s, l)
    ensures Carries(inst.uid, At(s.store, k), At(Next(inst, s, l).store, k))
  {
    match l
    case Operate(i) => OperatorCarries(inst, s, i, k);
    case Others(store) =>
      assert Bystander(inst.name, inst.uid, k, At(s.store, k), At(store, k));
      BystanderCarries(inst, k, At(s.store, k), At(store, k));
    case _ =>
  }

  lemma {:induction false} RunCarries(inst: Instance, s: Sys, ls: seq<Label>, k: Key)
    requires Sane(inst, s) && HostsHold(inst, s) && k.kind == Route && Possible(inst, s, ls)
    ensures Carries(inst.uid, At(s.store, k), At(RunTo(inst, s, ls).store, k))
    ensures HostsHold(inst, RunTo(inst, s, ls))
    decreases |ls|
  {
    if ls != [] {
      var front := ls[..|ls| - 1];
      var s' := RunTo(inst, s, front);
      RunCarries(inst, s, front, k);
      SaneRun(inst, s, front);
      NextHolds(inst, s', ls[|ls| - 1]);
      NextCarries(inst, s', ls[|ls| - 1], k);
      CarriesTransitive(inst.uid, At(s.store, k), At(s'.store, k), At(RunTo(inst, s, ls).store, k));
    }
  }

  // ---- The theorems ----

  /** In every reachable state a nonempty desired-host annotation of a Route the operator controls is its host. */
  lemma HostMatchesIntent(inst: Instance, s: Sys, k: Key)
    requires Reachable(inst, s) && k.kind == Route && Owned(s.store, k, inst.uid)
    requires TextOf(At(s.store, k).obj.value.fields, DesiredHost) != ""
    ensures HostOf(At(s.store, k).obj.value) == TextOf(At(s.store, k).obj.value.fields, DesiredHost)
  {
    var s0, ls :| Initial(inst, s0) && Possible(inst, s0, ls) && s == RunTo(inst, s0, ls);
    RunCarries(inst, s0, ls, k);
  }

  /** Over every run from a reachable state, whatever fails and however the spec is edited: as long as a Route the
      operator controls has not been deleted, it keeps the host it has, annotated or left without annotation by an
      earlier operator. */
  lemma HostNeverMoves(inst: Instance, s: Sys, ls: seq<Label>, k: Key)
    requires Reachable(inst, s) && Possible(inst, s, ls) && k.kind == Route
    requires Owned(s.store, k, inst.uid) && HostOf(At(s.store, k).obj.value) != ""
    requires Present(RunTo(inst, s, ls).store, k)
    requires At(RunTo(inst, s, ls).store, k).obj.value.born == At(s.store, k).obj.value.born
    ensures Owned(RunTo(inst, s, ls).store, k, inst.uid)
    ensures HostOf(At(RunTo(inst, s, ls).store, k).obj.value) == HostOf(At(s.store, k).obj.value)
  {
    ReachableSane(inst, s);
    var s0, ls0 :| Initial(inst, s0) && Possible(inst, s0, ls0) && s == RunTo(inst, s0, ls0);
    RunCarries(inst, s0, ls0, k);
    RunCarries(inst, s, ls, k);
    assert WellBorn(At(s.store, k));
  }

  // ---- Legacy Routes ----

  /** A Route an operator without the annotation left: a host, and nothing else that matters here. */
  function LegacyStore(inst: Instance, host: string): Store {
    map[Key(Route, inst.name + "-ui") := Slot(Some(Obj(Some(inst.uid), false, 0, map[Host := Cluster.Text(host)], {})), 1)]
  }

  /** Such a Route, controlled and without the annotation, is among what reachable states hold. */
  lemma LegacyRouteReachable(inst: Instance, s: Sys, host: string)
    requires s.store == LegacyStore(inst, host) && PluginPorts.Admitted(s.spec.plugins)
    requires s.run.Idle? && s.finished == [] && s.reports == []
    ensures var k := Key(Route, inst.name + "-ui");
            && Reachable(inst, s) && Owned(s.store, k, inst.uid)
            && DesiredHost !in At(s.store, k).obj.value.fields && HostOf(At(s.store, k).obj.value) == host
  {
    assert Suffixes(Route)[0] in Suffixes(Route);
    MkGenerated(inst.name, Route, "-ui");
    InitialReachable(inst, s);
  }
}
