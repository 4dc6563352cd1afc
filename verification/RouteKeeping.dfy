/** Routes that are as asked stay: what a Route must be like for the operator to leave it where it is, told in its own
    fields, and that over every run it then does. */
module RouteKeeping {
  import opened ObjectNames
  import PluginPorts
  import opened Resolve
  import opened Cluster
  import opened Plan
  import opened PlanLaws
  import opened Machine
  import opened Reach
  import opened Frames
  import opened References
  import opened Incarnations
  import opened RouteHosts
  import opened RouteConvergence

  // ---- What is asked of a Route ----

  /** The API Route is wanted under /api when it shares the host with the UI; else both are wanted at the root. */
  function PathAsked(d: Desired, t: Item): string { if t.WantAPIRoute? && d.components.ui then "/api" else "" }

  /** The Route has the path wanted, no annotation that says otherwise, and the custom host if one is asked for. It may be
      without the annotation. */
  predicate AsAsked(d: Desired, t: Item, o: Obj) {
    && TextOf(o.fields, Path) == PathAsked(d, t)
    && (DesiredHost in o.fields ==> TextOf(o.fields, DesiredHost) == d.exposure.routeHost)
    && (d.exposure.routeHost == "" || HostOf(o) == d.exposure.routeHost)
  }

  lemma PayloadAsks(d: Desired, t: Item)
    requires Wants(t)
    ensures Proper(WantedPayload(d, t)) && TextOf(WantedPayload(d, t), Path) == PathAsked(d, t)
    ensures TextOf(WantedPayload(d, t), DesiredHost) == TextOf(WantedPayload(d, t), Host) == d.exposure.routeHost
  {
    RoutePayloadFields(d, t);
  }

  /** A live Route of the operator is deleted to be recreated exactly when its path is another; or its annotation names
      another host; or, without annotation, a custom host is asked for and it has another one. */
  lemma RecreatedIff(inst: Instance, d: Desired, t: Item, s: Slot)
    requires Wants(t) && Ours(inst.uid, s)
    ensures var o := s.obj.value;
            RouteAction(inst, d, t, s).Delete? <==>
              || TextOf(o.fields, Path) != PathAsked(d, t)
              || (DesiredHost in o.fields && TextOf(o.fields, DesiredHost) != d.exposure.routeHost)
              || (DesiredHost !in o.fields && d.exposure.routeHost != "" && HostOf(o) != d.exposure.routeHost)
  {
    PayloadAsks(d, t);
  }

  /** A live Route of the operator that is as asked is not deleted: it stays the same object, keeps any host it has, and is
      as desired after the pass. */
  lemma LiveRouteKept(inst: Instance, d: Desired, t: Item, s: Slot, lingers: bool)
    requires Wants(t) && Ours(inst.uid, s) && AsAsked(d, t, s.obj.value)
    ensures !RouteAction(inst, d, t, s).Delete?
    ensures var n := RouteAfter(inst, d, t, s, lingers);
            && Ours(inst.uid, n) && n.obj.value.born == s.obj.value.born
            && (HostOf(s.obj.value) != "" ==> HostOf(n.obj.value) == HostOf(s.obj.value))
            && TextOf(n.obj.value.fields, Path) == PathAsked(d, t)
            && DesiredHost in n.obj.value.fields && TextOf(n.obj.value.fields, DesiredHost) == d.exposure.routeHost
            && (d.exposure.routeHost != "" ==> HostOf(n.obj.value) == d.exposure.routeHost)
  {
    PayloadAsks(d, t);
    RecreatedIff(inst, d, t, s);
    FitPass(inst, d, t, s, lingers);
  }

  // ---- Over runs ----

  /** The same is asked of the Routes. */
  predicate SameAsk(d: Desired, d': Desired) {
    && d.exposure.routeEnabled == d'.exposure.routeEnabled && d.exposure.routeHost == d'.exposure.routeHost
    && d.components.ui == d'.components.ui
  }

  /** Others do not end the incarnation in the slot. */
  predicate Spared(s: Slot, s': Slot) {
    s.obj.Some? ==> s'.obj.Some? && s'.obj.value.born == s.obj.value.born && (s'.obj.value.deleting ==> s.obj.value.deleting)
  }

  /** A move that neither asks otherwise of the Routes nor, if it is of others, ends the Route at `k`. */
  ghost predicate Gentle(inst: Instance, d: Desired, k: Key, s: Sys, l: Label) {
    && (l.Edit? ==> SameAsk(IntentOf(inst, l.spec), d))
    && (l.Others? ==> Spared(At(s.store, k), At(l.store, k)))
  }

  ghost predicate AllGentle(inst: Instance, d: Desired, k: Key, s: Sys, ls: seq<Label>)
    decreases |ls|
  {
    |ls| == 0 || (AllGentle(inst, d, k, s, ls[..|ls| - 1])
                  && Gentle(inst, d, k, RunTo(inst, s, ls[..|ls| - 1]), ls[|ls| - 1]))
  }

  /** The Route in the slot is live, the operator's, of this incarnation and as asked. */
  predicate Stays(uid: Uid, d: Desired, t: Item, s: Slot, born: nat) {
    Ours(uid, s) && s.obj.value.born == born && AsAsked(d, t, s.obj.value)
  }

  /** And so is what the operator remembers of it, while it works for the same intent. */
  ghost predicate Keeping(inst: Instance, d: Desired, t: Item, s: Sys, born: nat) {
    && Stays(inst.uid, d, t, At(s.store, WriteKey(inst.name, t)), born)
    && SameAsk(IntentOf(inst, s.spec), d) && (s.run.Working? ==> SameAsk(s.run.d, d))
    && (Busy(inst, s) && Current(s) == t && s.run.seen != [] ==> Stays(inst.uid, d, t, s.run.seen[0], born))
  }

  /** Applying the wanted payload, with the host seen, to a Route that is as asked. */
  lemma ApplyKeepsAsAsked(inst: Instance, d: Desired, t: Item, seen: Slot, s: Slot, born: nat)
    requires Wants(t) && Stays(inst.uid, d, t, seen, born) && Stays(inst.uid, d, t, s, born)
    ensures var p := PreserveHost(seen.obj.value.fields, WantedPayload(d, t));
            Patched(s, inst.uid, p).Done? && Stays(inst.uid, d, t, Patched(s, inst.uid, p).slot, born)
  {
    PayloadAsks(d, t);
    var p := PreserveHost(seen.obj.value.fields, WantedPayload(d, t));
    PatchedFields(s, inst.uid, p, Path);
    PatchedFields(s, inst.uid, p, DesiredHost);
    PatchedFields(s, inst.uid, p, Host);
  }

  lemma SameAskSame(d: Desired, d': Desired, t: Item, o: Obj)
    requires SameAsk(d, d')
    ensures AsAsked(d, t, o) <==> AsAsked(d', t, o)
  {
  }

  /** The item for the Route's name is the one that wants it. */
  lemma SameItem(inst: Instance, d: Desired, d': Desired, t: Item, u: Item)
    requires SameAsk(d, d') && Planned(inst, d, t) && Planned(inst, d', u) && Wants(t)
    requires WriteKey(inst.name, t) == WriteKey(inst.name, u)
    ensures t == u
  {
    KeyTells(inst.name, t, u);
  }

  /** The operator's call on such a Route applies to it. */
  lemma CallKeepsRoute(inst: Instance, d: Desired, t: Item, s: Sys, i: Input, born: nat)
    requires Wants(t) && Keeping(inst, d, t, s, born) && Busy(inst, s) && Current(s) == t && s.run.seen != []
    ensures Stays(inst.uid, d, t, At(OperatorStep(inst, s, i).store, WriteKey(inst.name, t)), born)
  {
    var k, seen := WriteKey(inst.name, t), s.run.seen[0];
    RouteCall(inst, s.run.d, t, s.run.seen, i.material);
    SameAskSame(s.run.d, d, t, seen.obj.value);
    SameAskSame(s.run.d, d, t, At(s.store, k).obj.value);
    LiveRouteKept(inst, s.run.d, t, seen, i.lingers);
    ApplyKeepsAsAsked(inst, s.run.d, t, seen, At(s.store, k), born);
    StepOnKey(inst, s, i);
    SameAskSame(s.run.d, d, t, At(OperatorStep(inst, s, i).store, k).obj.value);
  }

  lemma OperatorKeepsRoute(inst: Instance, d: Desired, t: Item, s: Sys, i: Input, born: nat)
    requires Wants(t) && Planned(inst, d, t) && Keeping(inst, d, t, s, born) && Progress(inst, s)
    ensures Stays(inst.uid, d, t, At(OperatorStep(inst, s, i).store, WriteKey(inst.name, t)), born)
  {
    var k := WriteKey(inst.name, t);
    PlanSteady(inst, s);
    if !Busy(inst, s) {
      OtherStepsKeepStore(inst, s, i);
    } else if k != WriteKey(inst.name, Current(s)) {
      StepFrame(inst, s, i, k);
    } else {
      SameItem(inst, d, s.run.d, t, Current(s));
      if s.run.seen == [] {
        LookLeaves(inst, s, i, k);
      } else {
        CallKeepsRoute(inst, d, t, s, i, born);
      }
    }
  }

  /** A look changes nothing. */
  lemma LookLeaves(inst: Instance, s: Sys, i: Input, k: Key)
    requires Busy(inst, s) && Wants(Current(s)) && s.run.seen == []
    ensures At(OperatorStep(inst, s, i).store, k) == At(s.store, k)
  {
  }

  /** What the operator then remembers of the Route is what it saw. */
  lemma OperatorRemembers(inst: Instance, d: Desired, t: Item, s: Sys, i: Input, born: nat)
    requires Wants(t) && Planned(inst, d, t) && Keeping(inst, d, t, s, born) && Progress(inst, s)
    ensures var s' := OperatorStep(inst, s, i);
            && (s'.run.Working? ==> SameAsk(s'.run.d, d))
            && (Busy(inst, s') && Current(s') == t && s'.run.seen != [] ==> Stays(inst.uid, d, t, s'.run.seen[0], born))
  {
    var s' := OperatorStep(inst, s, i);
    if Busy(inst, s) {
      StepMoves(inst, s, i);
      if s'.run.Working? && s'.run.pc == s.run.pc && Current(s) == t {
        RoutesLook(inst, s.run.d, t);
        LookReads(inst, s.run.d, t, s.run.seen, i.material);
      }
    } else {
      NotBusyStops(inst, s, i);
    }
  }

  lemma OthersSpare(inst: Instance, d: Desired, t: Item, s: Sys, store: Store, born: nat)
    requires Wants(t) && Keeping(inst, d, t, s, born) && Bystanders(inst, s.store, store)
    requires Spared(At(s.store, WriteKey(inst.name, t)), At(store, WriteKey(inst.name, t)))
    ensures Stays(inst.uid, d, t, At(store, WriteKey(inst.name, t)), born)
  {
    var k := WriteKey(inst.name, t);
    var o, o' := At(s.store, k).obj.value, At(store, k).obj.value;
    assert Bystander(inst.name, inst.uid, k, At(s.store, k), At(store, k));
    assert Kept(o, Path) && Kept(o, DesiredHost);
    assert SameField(o.fields, o'.fields, Path) && SameField(o.fields, o'.fields, DesiredHost);
    if d.exposure.routeHost != "" { assert Kept(o, Host) && SameField(o.fields, o'.fields, Host); }
  }

  lemma NextKeeps(inst: Instance, d: Desired, t: Item, s: Sys, l: Label, born: nat)
    requires Wants(t) && Planned(inst, d, t) && Keeping(inst, d, t, s, born) && Progress(inst, s)
    requires Enabled(inst, s, l) && Gentle(inst, d, WriteKey(inst.name, t), s, l)
    ensures Keeping(inst, d, t, Next(inst, s, l), born)
  {
    match l
    case Operate(i) =>
      OperatorKeepsRoute(inst, d, t, s, i, born);
      OperatorRemembers(inst, d, t, s, i, born);
      StepKeepsSpec(inst, s, i);
    case Others(store) => OthersSpare(inst, d, t, s, store, born);
    case _ =>
  }

  lemma StepKeepsSpec(inst: Instance, s: Sys, i: Input)
    ensures OperatorStep(inst, s, i).spec == s.spec
  {
  }

  lemma {:induction false} RunKeeps(inst: Instance, d: Desired, t: Item, s: Sys, ls: seq<Label>, born: nat)
    requires Wants(t) && Planned(inst, d, t) && Keeping(inst, d, t, s, born) && Sane(inst, s)
    requires Possible(inst, s, ls) && AllGentle(inst, d, WriteKey(inst.name, t), s, ls)
    ensures Keeping(inst, d, t, RunTo(inst, s, ls), born)
    decreases |ls|
  {
    if ls != [] {
      var front, l := ls[..|ls| - 1], ls[|ls| - 1];
      RunKeeps(inst, d, t, s, front, born);
      SaneRun(inst, s, front);
      NextKeeps(inst, d, t, RunTo(inst, s, front), l, born);
    }
  }

  // ---- The theorem ----

  /** A live Route of the operator that is as asked when a run begins, annotated or left without annotation by an earlier
      operator, is never deleted in it, whatever fails and whatever else of the spec is edited: as long as others spare it
      and the same is asked of the Routes, it stays the same live object, as asked, and keeps any host it has. */
  lemma WantedRouteStays(inst: Instance, d: Desired, t: Item, s: Sys, ls: seq<Label>, k: Key)
    requires Reachable(inst, s) && s.run.Idle? && d == IntentOf(inst, s.spec)
    requires Wants(t) && Planned(inst, d, t) && k == WriteKey(inst.name, t)
    requires Ours(inst.uid, At(s.store, k)) && AsAsked(d, t, At(s.store, k).obj.value)
    requires Possible(inst, s, ls) && AllGentle(inst, d, k, s, ls)
    ensures var o, n := At(s.store, k).obj.value, At(RunTo(inst, s, ls).store, k);
            && Ours(inst.uid, n) && n.obj.value.born == o.born && AsAsked(d, t, n.obj.value)
            && (HostOf(o) != "" ==> HostOf(n.obj.value) == HostOf(o))
  {
    ReachableSane(inst, s);
    RunKeeps(inst, d, t, s, ls, At(s.store, k).obj.value.born);
    WantedIsRoute(t);
    if HostOf(At(s.store, k).obj.value) != "" { HostNeverMoves(inst, s, ls, k); }
  }

  lemma WantedIsRoute(t: Item)
    requires Wants(t)
    ensures KindOf(t) == Route
  {
  }

  /** So does the un-annotated Route of LegacyStore at the root, when no custom host is asked for. */
  lemma LegacyRouteStays(inst: Instance, host: string, s: Sys, ls: seq<Label>)
    requires s.store == LegacyStore(inst, host) && PluginPorts.Admitted(s.spec.plugins) && host != ""
    requires s.run.Idle? && s.finished == [] && s.reports == []
    requires Planned(inst, IntentOf(inst, s.spec), WantUIRoute) && s.spec.routeHost == ""
    requires Possible(inst, s, ls) && AllGentle(inst, IntentOf(inst, s.spec), Key(Route, inst.name + "-ui"), s, ls)
    ensures var n := At(RunTo(inst, s, ls).store, Key(Route, inst.name + "-ui"));
            Ours(inst.uid, n) && n.obj.value.born == 0 && HostOf(n.obj.value) == host
  {
    LegacyRouteReachable(inst, s, host);
    WantedRouteStays(inst, IntentOf(inst, s.spec), WantUIRoute, s, ls, Key(Route, inst.name + "-ui"));
  }
}
