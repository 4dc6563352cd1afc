/** The status in every reachable state: coherent, Ready only after a success, and stamped with its last flips. */
module StatusRuns {
  import opened Options
  import opened Resolve
  import opened Cluster
  import opened Manifests
  import opened Status
  import opened StatusLaws
  import opened Plan
  import opened Machine
  import opened Reach
  import opened Frames
  import opened References
  import opened Incarnations

  /** A report as a reconcile may make it: an error is never passed together with a leftover, and a success was
      recorded. */
  ghost predicate Honest(finished: seq<(nat, bool)>, r: Report) {
    && (r.ending != Fine ==> !r.leftover)
    && (r.ending == Fine ==> (r.generation, r.leftover) in finished)
    && (r.leftover ==> r.d.database.mode == External)
    && (r.o.deploymentReady ==> !r.o.imagePull)
  }

  ghost predicate RunHonest(finished: seq<(nat, bool)>, r: Run) {
    && (r.Working? ==> (r.leftover ==> r.d.database.mode == External))
    && (r.Reporting? ==> (r.ending != Fine ==> !r.leftover) && (r.ending == Fine ==> (r.generation, r.leftover) in finished)
                         && (r.leftover ==> r.d.database.mode == External))
  }

  /** A run started on the spec it works for. */
  ghost predicate RunCurrent(inst: Instance, s: Sys) {
    !s.run.Idle? ==> s.run.generation <= s.generation && (s.run.generation == s.generation ==> s.run.d == IntentOf(inst, s.spec))
  }

  ghost predicate StatusHistory(s: Sys, first: Status) {
    && s.status == ApplyAll(first, s.reports)
    && (forall i :: 0 <= i < |s.reports| ==> Honest(s.finished, s.reports[i]))
  }

  ghost predicate StatusInv(inst: Instance, s: Sys, first: Status) {
    RunHonest(s.finished, s.run) && RunCurrent(inst, s) && StatusHistory(s, first)
  }

  lemma ReportAppended(first: Status, rs: seq<Report>, r: Report)
    ensures ApplyAll(first, rs + [r]) == Apply(ApplyAll(first, rs), r)
  {
    assert (rs + [r])[..|rs + [r]| - 1] == rs;
  }

  lemma ObservedHonest(inst: Instance, d: Desired, seen: seq<Slot>, imagePull: bool)
    requires |seen| == |ReportKeys(inst, d)|
    ensures var o := Observe(inst, d, seen, imagePull); o.deploymentReady ==> !o.imagePull
  {
  }

  lemma ReportingHonest(inst: Instance, s: Sys, i: Input, first: Status)
    requires StatusInv(inst, s, first) && s.run.Reporting?
    ensures StatusInv(inst, ReportStep(inst, s, i), first)
  {
    if |s.run.seen| == |ReportKeys(inst, s.run.d)| && !i.fault.Refused? {
      var o := Observe(inst, s.run.d, s.run.seen, i.imagePull);
      ObservedHonest(inst, s.run.d, s.run.seen, i.imagePull);
      ReportAppended(first, s.reports, Report(s.run.d, s.run.generation, s.run.leftover, s.run.ending, o, i.now));
    }
  }

  /** Only the look for a leftover StatefulSet, which External mode alone has, reports one. */
  lemma LeftoverOnlyExternal(inst: Instance, s: Sys, i: Input)
    requires Busy(inst, s)
    ensures var r := OperatorStep(inst, s, i).run;
            r.Working? ==> (r.leftover ==> s.run.leftover || (Current(s) == SeeLeftover && s.run.d.database.mode == External))
  {
    if CurrentAction(inst, s, i).Finish? { FinishLeftover(inst, s.run.d, Current(s), s.run.seen, i.material); }
  }

  /** And it reports exactly what it has seen. */
  lemma FinishLeftover(inst: Instance, d: Desired, t: Item, seen: seq<Slot>, m: Material)
    requires NextAction(inst, d, t, seen, m).Finish?
    ensures seen != [] && NextAction(inst, d, t, seen, m).leftover == (t == SeeLeftover && seen[0].obj.Some?)
  {
  }

  lemma OperatorStatus(inst: Instance, s: Sys, i: Input, first: Status)
    requires Progress(inst, s) && StatusInv(inst, s, first)
    ensures StatusInv(inst, OperatorStep(inst, s, i), first)
  {
    if s.run.Reporting? {
      ReportingHonest(inst, s, i, first);
    } else if Busy(inst, s) {
      StepMoves(inst, s, i);
      LeftoverOnlyExternal(inst, s, i);
      WorkKeepsRecords(inst, s, i);
    } else if s.run.Working? {
      GrowingFinished(s.finished, s.finished + [(s.run.generation, s.run.leftover)], s.reports);
    }
  }

  lemma WorkKeepsRecords(inst: Instance, s: Sys, i: Input)
    requires Busy(inst, s)
    ensures var s' := OperatorStep(inst, s, i);
            s'.status == s.status && s'.reports == s.reports && s'.finished == s.finished
            && s'.spec == s.spec && s'.generation == s.generation
  {
  }

  lemma GrowingFinished(f: seq<(nat, bool)>, f': seq<(nat, bool)>, rs: seq<Report>)
    requires (forall x :: x in f ==> x in f') && forall i :: 0 <= i < |rs| ==> Honest(f, rs[i])
    ensures forall i :: 0 <= i < |rs| ==> Honest(f', rs[i])
  {
  }

  lemma StatusNext(inst: Instance, s: Sys, l: Label, first: Status)
    requires Sane(inst, s) && StatusInv(inst, s, first) && Enabled(inst, s, l)
    ensures StatusInv(inst, Next(inst, s, l), first)
  {
    if l.Operate? { OperatorStatus(inst, s, l.input, first); }
  }

  lemma {:induction false} StatusRun(inst: Instance, s0: Sys, ls: seq<Label>)
    requires Initial(inst, s0) && Possible(inst, s0, ls)
    ensures StatusInv(inst, RunTo(inst, s0, ls), s0.status)
    decreases |ls|
  {
    if ls == [] {
      assert ApplyAll(s0.status, []) == s0.status;
    } else {
      StatusRun(inst, s0, ls[..|ls| - 1]);
      SaneRun(inst, s0, ls[..|ls| - 1]);
      StatusNext(inst, RunTo(inst, s0, ls[..|ls| - 1]), ls[|ls| - 1], s0.status);
    }
  }

  // ---- The theorems ----

  /** In every reachable state in which the operator has reported, the conditions agree with each other, and Ready
      says that an ensureAll for the generation it names went through and saw no leftover StatefulSet. */
  lemma ReadyIsEarned(inst: Instance, s: Sys)
    requires Reachable(inst, s) && s.reports != []
    ensures Coherent(s.status)
    ensures Holds(s.status, Ready) ==>
              (Find(s.status.conditions, Ready).value.generation, false) in s.finished
              && Denied(s.status, Degraded) && Holds(s.status, DatabaseReady) && Denied(s.status, Progressing)
  {
    var s0, ls :| Initial(inst, s0) && Possible(inst, s0, ls) && s == RunTo(inst, s0, ls);
    StatusRun(inst, s0, ls);
    LastReport(s0.status, s.reports);
    var front, r := ApplyAll(s0.status, s.reports[..|s.reports| - 1]), s.reports[|s.reports| - 1];
    ReportIsCoherent(front, r);
    ConditionAfter(front, r, Ready);
  }

  lemma LastReport(first: Status, rs: seq<Report>)
    requires rs != []
    ensures ApplyAll(first, rs) == Apply(ApplyAll(first, rs[..|rs| - 1]), rs[|rs| - 1])
  {
  }

  /** An ensureAll is recorded as a success only when every item of its plan is done; while the spec has not been
      edited since it began, that is the plan of the spec. */
  lemma SuccessMeansWholePlan(inst: Instance, s: Sys, l: Label)
    requires Reachable(inst, s) && Enabled(inst, s, l) && Next(inst, s, l).finished != s.finished
    ensures s.run.Working? && s.run.plan == Items(inst, s.run.d) && s.run.pc == |s.run.plan|
    ensures Next(inst, s, l).finished == s.finished + [(s.run.generation, s.run.leftover)]
    ensures s.run.generation == s.generation ==> s.run.d == IntentOf(inst, s.spec)
    ensures forall j :: 0 <= j < |s.run.plan| && Provides(s.run.d, s.run.plan[j]) ==>
              Present(s.store, WriteKey(inst.name, s.run.plan[j]))
  {
    ReachableSane(inst, s);
    var s0, ls :| Initial(inst, s0) && Possible(inst, s0, ls) && s == RunTo(inst, s0, ls);
    StatusRun(inst, s0, ls);
    RecordedAtEnd(inst, s, l);
  }

  lemma RecordedAtEnd(inst: Instance, s: Sys, l: Label)
    requires Progress(inst, s) && Enabled(inst, s, l) && Next(inst, s, l).finished != s.finished
    ensures s.run.Working? && s.run.pc == |s.run.plan|
    ensures Next(inst, s, l).finished == s.finished + [(s.run.generation, s.run.leftover)]
  {
    if Busy(inst, s) && l.Operate? { WorkKeepsRecords(inst, s, l.input); }
  }

  /** Over every run of the operator, each condition carries the time of the report at which it last flipped, or, if
      the operator has never changed it, the time it had when the operator started. */
  lemma TransitionTimes(inst: Instance, s0: Sys, ls: seq<Label>, kind: ConditionType) returns (i: Option<nat>)
    requires Initial(inst, s0) && Possible(inst, s0, ls) && RunTo(inst, s0, ls).reports != []
    ensures var s := RunTo(inst, s0, ls);
            && Find(s.status.conditions, kind).Some?
            && (i.Some? ==> i.value < |s.reports| && LastFlip(s0.status, s.reports, kind, i.value)
                            && Find(s.status.conditions, kind).value.since == s.reports[i.value].now)
            && (i.None? ==> NeverFlips(s0.status, s.reports, kind)
                            && Find(s.status.conditions, kind).value.since == Find(s0.status.conditions, kind).value.since)
  {
    StatusRun(inst, s0, ls);
    i := TransitionTimeIsLastFlip(s0.status, RunTo(inst, s0, ls).reports, kind);
  }

  /** A leftover and an error are never reported together, and a leftover only in External mode. */
  lemma NeverLeftoverWithError(inst: Instance, s: Sys)
    requires Reachable(inst, s)
    ensures s.run.Reporting? && s.run.leftover ==> s.run.ending == Fine && s.run.d.database.mode == External
    ensures forall i :: 0 <= i < |s.reports| && s.reports[i].leftover ==>
              s.reports[i].ending == Fine && s.reports[i].d.database.mode == External
  {
    var s0, ls :| Initial(inst, s0) && Possible(inst, s0, ls) && s == RunTo(inst, s0, ls);
    StatusRun(inst, s0, ls);
  }
}
