/** What one step can change in the store. */
module Frames {
  import opened ObjectNames
  import opened Resolve
  import opened Cluster
  import opened Manifests
  import opened Status
  import opened Plan
  import opened Machine
  import opened PlanLaws

  /** The item a working operator is at. */
  function Current(s: Sys): Item
    requires s.run.Working? && s.run.pc < |s.run.plan|
  {
    s.run.plan[s.run.pc]
  }

  /** The operator is at work on an intent From produced. */
  ghost predicate Busy(inst: Instance, s: Sys) {
    s.run.Working? && s.run.pc < |s.run.plan| && Defaulted(inst, s.run.d) && Planned(inst, s.run.d, Current(s))
  }

  /** A working operator is, or is done. */
  ghost predicate Steady(inst: Instance, s: Sys) {
    s.run.Working? && s.run.pc < |s.run.plan| ==> Busy(inst, s)
  }

  /** Outside the object of its current item a step of the operator changes nothing. */
  lemma StepFrame(inst: Instance, s: Sys, i: Input, k: Key)
    requires Busy(inst, s) && k != WriteKey(inst.name, Current(s))
    ensures At(OperatorStep(inst, s, i).store, k) == At(s.store, k)
  {
    var a := CurrentAction(inst, s, i);
    if Writes(a) { WritesOwnKey(inst, s.run.d, Current(s), s.run.seen, i.material); }
  }

  /** On that object it does what the API server answers to its call, or nothing. */
  lemma StepOnKey(inst: Instance, s: Sys, i: Input)
    requires Busy(inst, s)
    ensures var k, a := WriteKey(inst.name, Current(s)), CurrentAction(inst, s, i);
            At(OperatorStep(inst, s, i).store, k) ==
              if Writes(a) && !i.fault.Refused? && Answer(inst.uid, At(s.store, k), a, i.lingers).Done?
              then Answer(inst.uid, At(s.store, k), a, i.lingers).slot else At(s.store, k)
  {
    var a := CurrentAction(inst, s, i);
    if Writes(a) { WritesOwnKey(inst, s.run.d, Current(s), s.run.seen, i.material); }
  }

  /** Steps that are not API calls of a working operator leave the store alone. */
  lemma OtherStepsKeepStore(inst: Instance, s: Sys, i: Input)
    requires !(s.run.Working? && s.run.pc < |s.run.plan|)
    ensures OperatorStep(inst, s, i).store == s.store
  {
  }

  /** `store'` is `store` after the call `a` on `k`, which may have been refused. */
  ghost predicate Effect(uid: Uid, store: Store, store': Store, k: Key, a: Action, lingers: bool) {
    && (forall j :: j != k ==> At(store', j) == At(store, j))
    && (At(store', k) == At(store, k)
        || (Writes(a) && Answer(uid, At(store, k), a, lingers).Done?
            && At(store', k) == Answer(uid, At(store, k), a, lingers).slot))
  }

  lemma StepEffect(inst: Instance, s: Sys, i: Input)
    requires Busy(inst, s)
    ensures Effect(inst.uid, s.store, OperatorStep(inst, s, i).store, WriteKey(inst.name, Current(s)),
                   CurrentAction(inst, s, i), i.lingers)
  {
    StepOnKey(inst, s, i);
    forall j | j != WriteKey(inst.name, Current(s))
      ensures At(OperatorStep(inst, s, i).store, j) == At(s.store, j)
    {
      StepFrame(inst, s, i, j);
    }
  }

  /** Every call the operator makes on a store is on a name generated for it. */
  lemma StepsAreGenerated(inst: Instance, s: Sys, i: Input, k: Key)
    requires Steady(inst, s)
    requires !Generated(inst.name, k)
    ensures At(OperatorStep(inst, s, i).store, k) == At(s.store, k)
  {
    if Busy(inst, s) {
      WriteKeyGenerated(inst.name, Current(s));
      StepFrame(inst, s, i, k);
    }
  }

  /** Only Routes are ever deleted. */
  lemma DeletesOnlyRoutes(inst: Instance, d: Desired, t: Item, seen: seq<Slot>, m: Material)
    requires NextAction(inst, d, t, seen, m).Delete?
    ensures (Wants(t) || Unwants(t)) && |seen| > 0 && KindOf(t) == Route
  {
  }

  /** How a working step moves the run: a read is remembered, a finished or accepted step goes on to the next
      item, and anything else ends the work. */
  lemma StepMoves(inst: Instance, s: Sys, i: Input)
    requires Busy(inst, s)
    ensures var r, a, k := OperatorStep(inst, s, i).run, CurrentAction(inst, s, i), WriteKey(inst.name, Current(s));
            && !r.Idle?
            && (r.Reporting? ==> r.ending != Fine && !r.leftover && r.d == s.run.d && r.generation == s.run.generation)
            && (r.Working? ==> r.d == s.run.d && r.plan == s.run.plan && r.generation == s.run.generation)
            && (r.Working? && r.pc == s.run.pc ==>
                  a.Get? && (r.seen == s.run.seen + [At(s.store, a.key)]
                             || (Current(s).SeeLeftover? && r.seen == s.run.seen + [EMPTY])))
            && (r.Working? && r.pc != s.run.pc ==>
                  r.pc == s.run.pc + 1 && r.seen == []
                  && (a.Finish? || (Writes(a) && (Unwants(Current(s))
                        || (i.fault == NoFault && Answer(inst.uid, At(s.store, k), a, i.lingers).Done?)))))
  {
    var a := CurrentAction(inst, s, i);
    if Writes(a) { WritesOwnKey(inst, s.run.d, Current(s), s.run.seen, i.material); }
    FailsBadly(inst, s.run.d, Current(s), s.run.seen, i.material);
  }

  lemma FailsBadly(inst: Instance, d: Desired, t: Item, seen: seq<Slot>, m: Material)
    ensures NextAction(inst, d, t, seen, m).Fail? ==> NextAction(inst, d, t, seen, m).ending == OtherError
  {
  }

  lemma AnswerPresent(uid: Uid, s: Slot, a: Action, lingers: bool)
    requires Writes(a) && !a.Delete? && Answer(uid, s, a, lingers).Done?
    ensures Answer(uid, s, a, lingers).slot.obj.Some?
  {
  }

  lemma EffectKeepsPresent(uid: Uid, store: Store, store': Store, k: Key, a: Action, lingers: bool, j: Key)
    requires Effect(uid, store, store', k, a, lingers) && !(a.Delete? && j == k)
    ensures Present(store, j) ==> Present(store', j)
  {
    if j == k && At(store', k) != At(store, k) { AnswerPresent(uid, At(store, k), a, lingers); }
  }

  /** An object of another kind that is present stays so. */
  lemma StepKeepsPresent(inst: Instance, s: Sys, i: Input, k: Key)
    requires Steady(inst, s)
    requires Present(s.store, k) && k.kind != Route
    ensures Present(OperatorStep(inst, s, i).store, k)
  {
    if Busy(inst, s) {
      var t, a := Current(s), CurrentAction(inst, s, i);
      if a.Delete? { DeletesOnlyRoutes(inst, s.run.d, t, s.run.seen, i.material); }
      StepEffect(inst, s, i);
      EffectKeepsPresent(inst.uid, s.store, OperatorStep(inst, s, i).store, WriteKey(inst.name, t), a, i.lingers, k);
    }
  }
}
