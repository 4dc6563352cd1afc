/** An instance whose spec names none of the other's objects runs exactly as if it were alone. */
module Alone {
  import opened ObjectNames
  import opened Resolve
  import opened Cluster
  import opened Manifests
  import opened PodReferences
  import opened Plan
  import opened Machine
  import opened PlanLaws
  import opened Frames
  import opened Incarnations
  import opened NonInterference

  /** The two stores agree on everything but the objects named after `b`. */
  ghost predicate AgreeOff(b: Instance, store: Store, store': Store) {
    forall k :: !Generated(b.name, k) ==> At(store, k) == At(store', k)
  }

  /** The spec names no object of `b`. */
  ghost predicate Minds(a: Instance, b: Instance, spec: ApmeSpec) {
    forall k :: k in UserRefs(IntentOf(a, spec)) ==> !Generated(b.name, k)
  }

  ghost predicate MindsIntent(b: Instance, d: Desired) {
    forall k :: k in UserRefs(d) ==> !Generated(b.name, k)
  }

  /** What a step reads is named after its own instance or by its own spec. */
  lemma ReadsKnown(inst: Instance, d: Desired, t: Item, seen: seq<Slot>, m: Material)
    requires Defaulted(inst, d) && Planned(inst, d, t) && NextAction(inst, d, t, seen, m).Get?
    ensures var k := NextAction(inst, d, t, seen, m).key;
            k in UserRefs(d) || exists u :: k == WriteKey(inst.name, u)
  {
    var k := NextAction(inst, d, t, seen, m).key;
    if t.ApplyDeployment? {
      DeploymentReads(inst, d, seen);
    } else {
      FirstReadsKnown(inst, d, t);
    }
  }

  lemma DeploymentReads(inst: Instance, d: Desired, seen: seq<Slot>)
    requires Defaulted(inst, d) && DeploymentAction(inst, d, seen).Get?
    ensures var k := DeploymentAction(inst, d, seen).key; k in UserRefs(d) || k == WriteKey(inst.name, EnsureProxyToken)
  {
  }

  lemma FirstReadsKnown(inst: Instance, d: Desired, t: Item)
    requires Defaulted(inst, d) && Planned(inst, d, t) && !Applies(t) && !t.ApplyDeployment?
    ensures ReadKey(d, t) in UserRefs(d) || ReadKey(d, t) == WriteKey(inst.name, t)
  {
  }

  lemma NotNamedAfterOther(a: Instance, b: Instance, d: Desired, k: Key)
    requires a.name != b.name && MindsIntent(b, d)
    requires k in UserRefs(d) || exists u :: k == WriteKey(a.name, u)
    ensures !Generated(b.name, k)
  {
    if k !in UserRefs(d) && Generated(b.name, k) {
      var u :| k == WriteKey(a.name, u);
      WriteKeyGenerated(a.name, u);
      GeneratedDisjoint(a.name, b.name, k);
    }
  }

  lemma ReportReadsKnown(inst: Instance, d: Desired, k: Key)
    requires Defaulted(inst, d) && k in ReportKeys(inst, d)
    ensures k in UserRefs(d) || exists u :: k == WriteKey(inst.name, u)
  {
    if k == Key(Deployment, d.name) {
      assert d.name + "" == d.name;
      assert k == WriteKey(inst.name, ApplyDeployment);
    } else if k == DatabaseObject(d) {
      if d.database.mode == Managed { assert k == WriteKey(inst.name, ApplyPostgresSet); }
    } else {
      assert k == RouteShown(d);
      assert k == WriteKey(inst.name, WantUIRoute) || k == WriteKey(inst.name, WantAPIRoute);
    }
  }

  // ---- One step on two stores ----

  lemma SameCall(a: Instance, b: Instance, s: Sys, store: Store, i: Input)
    requires a.name != b.name && Busy(a, s) && AgreeOff(b, s.store, store) && MindsIntent(b, s.run.d)
    ensures var act := CurrentAction(a, s, i);
            && (act.Get? || Writes(act) ==> At(s.store, act.key) == At(store, act.key))
            && (Writes(act) ==> !Generated(b.name, act.key))
  {
    var t, act := Current(s), CurrentAction(a, s, i);
    if act.Get? {
      ReadsKnown(a, s.run.d, t, s.run.seen, i.material);
      NotNamedAfterOther(a, b, s.run.d, act.key);
    } else if Writes(act) {
      WritesOwnKey(a, s.run.d, t, s.run.seen, i.material);
      NotNamedAfterOther(a, b, s.run.d, act.key);
    }
  }

  lemma StoreAfterAgrees(uid: Uid, b: Instance, store: Store, store': Store, act: Action, i: Input)
    requires AgreeOff(b, store, store')
    requires act.Get? || Writes(act) ==> At(store, act.key) == At(store', act.key)
    ensures AgreeOff(b, StoreAfter(uid, store, act, i), StoreAfter(uid, store', act, i))
    ensures ErrorSeen(uid, store, act, i) == ErrorSeen(uid, store', act, i)
  {
  }

  lemma SameWork(a: Instance, b: Instance, s: Sys, store: Store, i: Input)
    requires a.name != b.name && Busy(a, s) && AgreeOff(b, s.store, store) && MindsIntent(b, s.run.d)
    ensures var n, n' := OperatorStep(a, s, i), OperatorStep(a, s.(store := store), i);
            n' == n.(store := n'.store) && AgreeOff(b, n.store, n'.store)
  {
    SameCall(a, b, s, store, i);
    StoreAfterAgrees(a.uid, b, s.store, store, CurrentAction(a, s, i), i);
  }

  lemma SameReport(a: Instance, b: Instance, s: Sys, store: Store, i: Input)
    requires a.name != b.name && s.run.Reporting? && Defaulted(a, s.run.d)
    requires AgreeOff(b, s.store, store) && MindsIntent(b, s.run.d)
    ensures ReportStep(a, s.(store := store), i) == ReportStep(a, s, i).(store := store)
    ensures ReportStep(a, s, i).store == s.store
  {
    var keys := ReportKeys(a, s.run.d);
    if |s.run.seen| < |keys| {
      ReportReadsKnown(a, s.run.d, keys[|s.run.seen|]);
      NotNamedAfterOther(a, b, s.run.d, keys[|s.run.seen|]);
    }
  }

  /** The run works on an intent that names nothing of the other instance. */
  ghost predicate Considerate(a: Instance, b: Instance, s: Sys) {
    Minds(a, b, s.spec) && (!s.run.Idle? ==> Defaulted(a, s.run.d) && MindsIntent(b, s.run.d))
  }

  /** Any step of `a`, on two stores that differ in objects of `b` only, comes to the same. */
  lemma SameNext(a: Instance, b: Instance, s: Sys, store: Store, l: Label)
    requires a.name != b.name && Considerate(a, b, s) && Steady(a, s) && AgreeOff(b, s.store, store) && !l.Others?
    requires l.Edit? ==> Minds(a, b, l.spec)
    ensures var n, n' := Next(a, s, l), Next(a, s.(store := store), l);
            n' == n.(store := n'.store) && AgreeOff(b, n.store, n'.store)
  {
    if l.Operate? {
      if Busy(a, s) { SameWork(a, b, s, store, l.input); }
      else if s.run.Reporting? { SameReport(a, b, s, store, l.input); }
    }
  }

  lemma NextConsiderate(a: Instance, b: Instance, s: Sys, l: Label)
    requires Considerate(a, b, s) && Steady(a, s) && !l.Others? && (l.Edit? ==> Minds(a, b, l.spec))
    ensures Considerate(a, b, Next(a, s, l))
  {
    if l.Begin? { IntentDefaulted(a, s.spec); }
    if l.Operate? && Busy(a, s) { StepMoves(a, s, l.input); StepKeepsSpec(a, s, l.input); }
  }

  lemma StepKeepsSpec(a: Instance, s: Sys, i: Input)
    requires Busy(a, s)
    ensures OperatorStep(a, s, i).spec == s.spec
  {
  }

  // ---- Runs ----

  /** The turns of the first instance only. */
  function OwnMoves(turns: seq<Turn>): seq<Label> {
    if |turns| == 0 then []
    else OwnMoves(turns[..|turns| - 1]) + if turns[|turns| - 1].First? then [turns[|turns| - 1].move] else []
  }

  /** The first instance's edits name nothing of the second. */
  ghost predicate ConsiderateTurns(a: Instance, b: Instance, turns: seq<Turn>) {
    forall i :: 0 <= i < |turns| && turns[i].First? && turns[i].move.Edit? ==> Minds(a, b, turns[i].move.spec)
  }

  lemma OtherTurnAgrees(a: Instance, b: Instance, s: Sys, l: Label, store: Store)
    requires Sane(b, s) && AgreeOff(b, s.store, store) && !l.Others?
    ensures AgreeOff(b, Next(b, s, l).store, store)
  {
    forall k | !Generated(b.name, k)
      ensures At(Next(b, s, l).store, k) == At(store, k)
    {
      if l.Operate? { StepsAreGenerated(b, s, l.input, k); }
    }
  }

  lemma RunSplit(inst: Instance, s0: Sys, ls: seq<Label>, l: Label)
    ensures RunTo(inst, s0, ls + [l]) == Next(inst, RunTo(inst, s0, ls), l)
  {
    assert (ls + [l])[..|ls + [l]| - 1] == ls;
  }

  /** In any interleaving with another instance whose objects its specs do not name, an instance goes through the
      same control states, reports the same status and leaves the same objects as when it runs alone. */
  lemma {:induction false} RunsAsIfAlone(a: Instance, b: Instance, p: Pair, turns: seq<Turn>)
    requires Start(a, b, p) && TogetherPossible(a, b, p, turns)
    requires Minds(a, b, p.first.spec) && ConsiderateTurns(a, b, turns)
    ensures var joint, alone := Together(a, b, p, turns).first, RunTo(a, p.first, OwnMoves(turns));
            && alone == joint.(store := alone.store) && AgreeOff(b, joint.store, alone.store)
            && (forall k :: Generated(a.name, k) ==> At(alone.store, k) == At(joint.store, k))
            && Considerate(a, b, joint)
    decreases |turns|
  {
    if turns != [] {
      var front, turn := turns[..|turns| - 1], turns[|turns| - 1];
      var q := Together(a, b, p, front);
      assert forall i :: 0 <= i < |front| ==> front[i] == turns[i];
      RunsAsIfAlone(a, b, p, front);
      var _, _ := EachRunsItsMachine(a, b, p, front);
      var alone := RunTo(a, p.first, OwnMoves(front));
      if turn.First? {
        SameNext(a, b, q.first, alone.store, turn.move);
        NextConsiderate(a, b, q.first, turn.move);
        RunSplit(a, p.first, OwnMoves(front), turn.move);
      } else {
        OtherTurnAgrees(a, b, q.second, turn.move, alone.store);
        assert OwnMoves(turns) == OwnMoves(front);
      }
    }
    OwnKeysAgree(a, b, Together(a, b, p, turns).first.store, RunTo(a, p.first, OwnMoves(turns)).store);
  }

  lemma OwnKeysAgree(a: Instance, b: Instance, store: Store, store': Store)
    requires a.name != b.name && AgreeOff(b, store, store')
    ensures forall k :: Generated(a.name, k) ==> At(store', k) == At(store, k)
  {
    forall k | Generated(a.name, k)
      ensures At(store', k) == At(store, k)
    {
      if Generated(b.name, k) { GeneratedDisjoint(a.name, b.name, k); }
    }
  }
}
