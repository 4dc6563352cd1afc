/** Deletion safety: what the operator may remove, and when the Route it removes is its own. */
module Deletion {
  import opened ObjectNames
  import opened Resolve
  import opened Cluster
  import opened Plan
  import opened Machine
  import opened Reach
  import opened Frames
  import opened References
  import opened Incarnations
  import opened RouteHosts

  /** The operator removes, or marks for removal, nothing but Routes that it saw under its own control. */
  lemma OnlyOwnRoutesGo(inst: Instance, s: Sys, i: Input, k: Key)
    requires Reachable(inst, s) && Present(s.store, k)
    requires var n := At(OperatorStep(inst, s, i).store, k).obj;
             n.None? || (n.value.deleting && !At(s.store, k).obj.value.deleting)
    ensures k.kind == Route && Busy(inst, s) && k == WriteKey(inst.name, Current(s))
    ensures CurrentAction(inst, s, i).Delete? && OnRoute(Current(s))
    ensures s.run.seen != [] && s.run.seen[0].obj.Some? && ControlledBy(s.run.seen[0].obj.value, inst.uid)
  {
    ReachableSane(inst, s);
    if Busy(inst, s) {
      var t, a := Current(s), CurrentAction(inst, s, i);
      StepEffect(inst, s, i);
      OnlyDeletionRemoves(inst.uid, At(s.store, k), a, i.lingers);
      DeletesOnlyRoutes(inst, s.run.d, t, s.run.seen, i.material);
      RouteCall(inst, s.run.d, t, s.run.seen, i.material);
      DeletesWhatItOwned(inst, s.run.d, t, s.run.seen[0]);
    } else {
      OtherStepsKeepStore(inst, s, i);
    }
  }

  lemma OnlyDeletionRemoves(uid: Uid, s: Slot, a: Action, lingers: bool)
    requires Writes(a) && s.obj.Some? && Answer(uid, s, a, lingers).Done?
    requires var n := Answer(uid, s, a, lingers).slot.obj; n.None? || (n.value.deleting && !s.obj.value.deleting)
    ensures a.Delete?
  {
  }

  lemma DeletesWhatItOwned(inst: Instance, d: Desired, t: Item, s: Slot)
    requires OnRoute(t) && RouteAction(inst, d, t, s).Delete?
    ensures s.obj.Some? && ControlledBy(s.obj.value, inst.uid)
  {
  }

  /** A Delete call names no incarnation. What it removes is the operator's own exactly when the Route was not
      replaced since the operator read it. */
  lemma DeletedRouteIsOwnIff(inst: Instance, s: Sys, i: Input)
    requires Reachable(inst, s) && Busy(inst, s) && CurrentAction(inst, s, i).Delete?
    requires Present(s.store, WriteKey(inst.name, Current(s)))
    ensures s.run.seen != [] && s.run.seen[0].obj.Some?
    ensures var k := WriteKey(inst.name, Current(s));
            Owned(s.store, k, inst.uid) <==> At(s.store, k).obj.value.born == s.run.seen[0].obj.value.born
  {
    ReachableSane(inst, s);
    var t := Current(s);
    DeletesOnlyRoutes(inst, s.run.d, t, s.run.seen, i.material);
    RouteCall(inst, s.run.d, t, s.run.seen, i.material);
    DeletesWhatItOwned(inst, s.run.d, t, s.run.seen[0]);
    RoutesLook(inst, s.run.d, t);
  }

  /** A Route of another controller that the operator has not mistaken for its own stays exactly as it is. */
  lemma ForeignRouteUntouched(inst: Instance, s: Sys, i: Input, k: Key)
    requires Reachable(inst, s) && k.kind == Route && Present(s.store, k)
    requires At(s.store, k).obj.value.controller.Some? && !Owned(s.store, k, inst.uid)
    requires Busy(inst, s) && k == WriteKey(inst.name, Current(s)) && s.run.seen != [] && s.run.seen[0].obj.Some? ==>
               At(s.store, k).obj.value.born == s.run.seen[0].obj.value.born
    ensures At(OperatorStep(inst, s, i).store, k) == At(s.store, k)
  {
    ReachableSane(inst, s);
    if Busy(inst, s) && k == WriteKey(inst.name, Current(s)) {
      var t, a := Current(s), CurrentAction(inst, s, i);
      StepOnKey(inst, s, i);
      RouteItemByKind(inst, s);
      if s.run.seen != [] {
        RouteCall(inst, s.run.d, t, s.run.seen, i.material);
        CallShape(inst, s.run.d, t, s.run.seen[0]);
        if a.Delete? { DeletedRouteIsOwnIff(inst, s, i); }
        if a.Patch? { PatchedRejects(At(s.store, k), inst.uid, a.payload); }
      }
    } else if Busy(inst, s) {
      StepFrame(inst, s, i, k);
    } else {
      OtherStepsKeepStore(inst, s, i);
    }
  }

  /** Nothing else under a generated name ever goes: managed Postgres, its data and its Secrets survive every run,
      whatever the spec is switched to. */
  lemma {:induction false} OthersSurvive(inst: Instance, s: Sys, ls: seq<Label>, k: Key)
    requires Reachable(inst, s) && Possible(inst, s, ls)
    requires Present(s.store, k) && Generated(inst.name, k) && k.kind != Route
    ensures Present(RunTo(inst, s, ls).store, k)
    decreases |ls|
  {
    if ls != [] {
      var front, l := ls[..|ls| - 1], ls[|ls| - 1];
      OthersSurvive(inst, s, front, k);
      ReachableSane(inst, s);
      SaneRun(inst, s, front);
      SurvivesNext(inst, RunTo(inst, s, front), l, k);
    }
  }

  lemma SurvivesNext(inst: Instance, s: Sys, l: Label, k: Key)
    requires Sane(inst, s) && Enabled(inst, s, l)
    requires Present(s.store, k) && Generated(inst.name, k) && k.kind != Route
    ensures Present(Next(inst, s, l).store, k)
  {
    match l
    case Operate(i) => StepKeepsPresent(inst, s, i, k);
    case Others(store) => BystandersKeepPresent(inst, s.store, store, k);
    case _ =>
  }
}
