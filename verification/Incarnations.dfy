/** What survives of an object while others are at work, and what the operator knows of an object it has read. */
module Incarnations {
  import opened ObjectNames
  import opened Resolve
  import opened Cluster
  import Manifests
  import opened Plan
  import opened Machine
  import opened PlanLaws
  import opened Frames
  import opened References
  import opened Reach

  lemma BystanderReflexive(name: string, uid: Uid, k: Key, s: Slot)
    requires WellBorn(s)
    ensures Bystander(name, uid, k, s, s)
  {
  }

  lemma SameIncarnationTransitive(uid: Uid, o: Obj, p: Obj, q: Obj)
    requires SameIncarnation(uid, o, p) && SameIncarnation(uid, p, q)
    ensures SameIncarnation(uid, o, q)
  {
    if ControlledBy(o, uid) {
      forall f | Kept(o, f)
        ensures SameField(o.fields, q.fields, f)
      {
        assert SameField(o.fields, p.fields, f);
        assert Kept(p, f);
      }
    }
  }

  /** Others acting twice is others acting. */
  lemma BystanderTransitive(name: string, uid: Uid, k: Key, s: Slot, t: Slot, u: Slot)
    requires WellBorn(s) && Bystander(name, uid, k, s, t) && Bystander(name, uid, k, t, u)
    ensures Bystander(name, uid, k, s, u)
  {
    if s.obj.Some? && t.obj.Some? && u.obj.Some? {
      if s.obj.value.born == t.obj.value.born == u.obj.value.born {
        SameIncarnationTransitive(uid, s.obj.value, t.obj.value, u.obj.value);
      }
    }
  }

  lemma AnswerWellBorn(uid: Uid, s: Slot, a: Action, lingers: bool)
    requires WellBorn(s) && Writes(a) && Answer(uid, s, a, lingers).Done?
    ensures WellBorn(Answer(uid, s, a, lingers).slot)
  {
  }

  lemma OperatorWellBorn(inst: Instance, s: Sys, i: Input)
    requires AllWellBorn(s.store) && Steady(inst, s)
    ensures AllWellBorn(OperatorStep(inst, s, i).store)
  {
    if Busy(inst, s) {
      var a, k := CurrentAction(inst, s, i), WriteKey(inst.name, Current(s));
      StepEffect(inst, s, i);
      if Writes(a) && Answer(inst.uid, At(s.store, k), a, i.lingers).Done? {
        AnswerWellBorn(inst.uid, At(s.store, k), a, i.lingers);
      }
    } else {
      OtherStepsKeepStore(inst, s, i);
    }
  }

  // ---- What the operator knows of an object it has read ----

  predicate OnRoute(t: Item) { Wants(t) || Unwants(t) }

  /** An item that looks at its own object before it acts. */
  predicate Looks(name: string, d: Desired, t: Item) {
    !Applies(t) && !t.ApplyDeployment? && !t.SeeLeftover? && ReadKey(d, t) == WriteKey(name, t)
  }

  lemma RoutesLook(inst: Instance, d: Desired, t: Item)
    requires Defaulted(inst, d) && OnRoute(t)
    ensures Looks(inst.name, d, t)
  {
  }

  /** Since the operator read its object, only others have touched it. */
  ghost predicate ObjectSeen(inst: Instance, s: Sys) {
    Busy(inst, s) && Looks(inst.name, s.run.d, Current(s)) && s.run.seen != [] ==>
      var k := WriteKey(inst.name, Current(s));
      WellBorn(s.run.seen[0]) && Bystander(inst.name, inst.uid, k, s.run.seen[0], At(s.store, k))
  }

  lemma LookReads(inst: Instance, d: Desired, t: Item, seen: seq<Slot>, m: Manifests.Material)
    requires Looks(inst.name, d, t) && NextAction(inst, d, t, seen, m).Get?
    ensures seen == [] && NextAction(inst, d, t, seen, m).key == WriteKey(inst.name, t)
  {
  }

  lemma OperatorObjectSeen(inst: Instance, s: Sys, i: Input)
    requires AllWellBorn(s.store) && Progress(inst, s) && ObjectSeen(inst, s)
    ensures ObjectSeen(inst, OperatorStep(inst, s, i))
  {
    var s' := OperatorStep(inst, s, i);
    if Busy(inst, s) {
      StepMoves(inst, s, i);
      if s'.run.Working? && s'.run.pc == s.run.pc && Looks(inst.name, s.run.d, Current(s)) {
        LookReads(inst, s.run.d, Current(s), s.run.seen, i.material);
        var k := WriteKey(inst.name, Current(s));
        assert s'.run.seen[0] == At(s.store, k);
        StepOnKey(inst, s, i);
        BystanderReflexive(inst.name, inst.uid, k, At(s.store, k));
      }
    } else {
      NotBusyStops(inst, s, i);
    }
  }

  lemma OthersObjectSeen(inst: Instance, s: Sys, store: Store)
    requires ObjectSeen(inst, s) && Bystanders(inst, s.store, store)
    ensures ObjectSeen(inst, s.(store := store))
  {
    if Busy(inst, s) && Looks(inst.name, s.run.d, Current(s)) && s.run.seen != [] {
      var k := WriteKey(inst.name, Current(s));
      assert Bystander(inst.name, inst.uid, k, At(s.store, k), At(store, k));
      BystanderTransitive(inst.name, inst.uid, k, s.run.seen[0], At(s.store, k), At(store, k));
    }
  }

  /** The invariant of every reachable state on which the results about objects rest. */
  ghost predicate Sane(inst: Instance, s: Sys) {
    Progress(inst, s) && NoDangling(inst, s.store) && AllWellBorn(s.store) && ObjectSeen(inst, s)
  }

  lemma OthersWellBorn(inst: Instance, store: Store, store': Store)
    requires Bystanders(inst, store, store')
    ensures AllWellBorn(store')
  {
    forall k
      ensures WellBorn(At(store', k))
    {
      assert Bystander(inst.name, inst.uid, k, At(store, k), At(store', k));
    }
  }

  lemma SaneNext(inst: Instance, s: Sys, l: Label)
    requires Sane(inst, s) && Enabled(inst, s, l)
    ensures Sane(inst, Next(inst, s, l))
  {
    ReferencesNext(inst, s, l);
    match l
    case Operate(i) =>
      OperatorWellBorn(inst, s, i);
      OperatorObjectSeen(inst, s, i);
    case Others(store) =>
      OthersWellBorn(inst, s.store, store);
      OthersObjectSeen(inst, s, store);
    case _ =>
  }

  lemma {:induction false} SaneRun(inst: Instance, s0: Sys, ls: seq<Label>)
    requires Sane(inst, s0) && Possible(inst, s0, ls)
    ensures Sane(inst, RunTo(inst, s0, ls))
    decreases |ls|
  {
    if ls != [] {
      SaneRun(inst, s0, ls[..|ls| - 1]);
      SaneNext(inst, RunTo(inst, s0, ls[..|ls| - 1]), ls[|ls| - 1]);
    }
  }

  lemma ReachableSane(inst: Instance, s: Sys)
    requires Reachable(inst, s)
    ensures Sane(inst, s)
  {
    var s0, ls :| Initial(inst, s0) && Possible(inst, s0, ls) && s == RunTo(inst, s0, ls);
    SaneRun(inst, s0, ls);
  }
}
