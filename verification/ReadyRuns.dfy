/** Ready over runs: when the status says so, the cluster has been up. */
module ReadyRuns {
  import opened Options
  import opened ObjectNames
  import opened Resolve
  import opened Cluster
  import opened Status
  import opened StatusLaws
  import opened StatusRuns
  import opened Plan
  import opened Machine
  import opened Reach
  import opened References
  import opened Incarnations
  import opened Readiness

  /** At some point of the run the object was there. */
  ghost predicate Was(inst: Instance, s0: Sys, ls: seq<Label>, k: Key, o: Obj) {
    exists n: nat :: n <= |ls| && At(RunTo(inst, s0, ls[..n]).store, k).obj == Some(o)
  }

  lemma WasBefore(inst: Instance, s0: Sys, front: seq<Label>, ls: seq<Label>, k: Key, o: Obj)
    requires Was(inst, s0, front, k, o) && front <= ls
    ensures Was(inst, s0, ls, k, o)
  {
    var n: nat :| n <= |front| && At(RunTo(inst, s0, front[..n]).store, k).obj == Some(o);
    assert front[..n] == ls[..n];
  }

  lemma IsNow(inst: Instance, s0: Sys, ls: seq<Label>, k: Key)
    requires At(RunTo(inst, s0, ls).store, k).obj.Some?
    ensures Was(inst, s0, ls, k, At(RunTo(inst, s0, ls).store, k).obj.value)
  {
    assert ls[..|ls|] == ls;
  }

  ghost predicate DeploymentWasUp(inst: Instance, s0: Sys, ls: seq<Label>) {
    exists o :: Was(inst, s0, ls, Key(Deployment, inst.name), o) && OneReady(o.fields)
  }

  ghost predicate DatabaseWasUp(inst: Instance, s0: Sys, ls: seq<Label>, d: Desired) {
    if d.database.mode == External then exists o :: Was(inst, s0, ls, Key(Secret, d.database.secretName), o)
    else exists o :: Was(inst, s0, ls, Key(StatefulSet, inst.name + "-postgres"), o) && OneReady(o.fields)
  }

  // ---- What the operator knows ----

  /** A look told of an object that was there. */
  ghost predicate Informed(inst: Instance, s0: Sys, ls: seq<Label>, k: Key, slot: Slot) {
    slot.obj.Some? ==> Was(inst, s0, ls, k, slot.obj.value)
  }

  ghost predicate LooksInformed(inst: Instance, s0: Sys, ls: seq<Label>, r: Run) {
    r.Reporting? ==>
      && r.d.name == inst.name
      && forall j :: 0 <= j < |r.seen| && j < |ReportKeys(inst, r.d)| ==>
           Informed(inst, s0, ls, ReportKeys(inst, r.d)[j], r.seen[j])
  }

  ghost predicate ReportInformed(inst: Instance, s0: Sys, ls: seq<Label>, r: Report) {
    (r.o.deploymentReady ==> DeploymentWasUp(inst, s0, ls)) && (r.o.databaseReady ==> DatabaseWasUp(inst, s0, ls, r.d))
  }

  ghost predicate AllInformed(inst: Instance, s0: Sys, ls: seq<Label>, s: Sys) {
    LooksInformed(inst, s0, ls, s.run) && forall i :: 0 <= i < |s.reports| ==> ReportInformed(inst, s0, ls, s.reports[i])
  }

  lemma ReportStaysInformed(inst: Instance, s0: Sys, front: seq<Label>, ls: seq<Label>, r: Report)
    requires ReportInformed(inst, s0, front, r) && front <= ls
    ensures ReportInformed(inst, s0, ls, r)
  {
    if r.o.deploymentReady {
      var o :| Was(inst, s0, front, Key(Deployment, inst.name), o) && OneReady(o.fields);
      WasBefore(inst, s0, front, ls, Key(Deployment, inst.name), o);
    }
    if r.o.databaseReady {
      if r.d.database.mode == External {
        var o :| Was(inst, s0, front, Key(Secret, r.d.database.secretName), o);
        WasBefore(inst, s0, front, ls, Key(Secret, r.d.database.secretName), o);
      } else {
        var o :| Was(inst, s0, front, Key(StatefulSet, inst.name + "-postgres"), o) && OneReady(o.fields);
        WasBefore(inst, s0, front, ls, Key(StatefulSet, inst.name + "-postgres"), o);
      }
    }
  }

  lemma StaysInformed(inst: Instance, s0: Sys, front: seq<Label>, ls: seq<Label>, s: Sys)
    requires AllInformed(inst, s0, front, s) && front <= ls
    ensures AllInformed(inst, s0, ls, s)
  {
    forall i | 0 <= i < |s.reports|
      ensures ReportInformed(inst, s0, ls, s.reports[i])
    {
      ReportStaysInformed(inst, s0, front, ls, s.reports[i]);
    }
    if s.run.Reporting? {
      forall j | 0 <= j < |s.run.seen| && j < |ReportKeys(inst, s.run.d)|
        ensures Informed(inst, s0, ls, ReportKeys(inst, s.run.d)[j], s.run.seen[j])
      {
        assert Informed(inst, s0, front, ReportKeys(inst, s.run.d)[j], s.run.seen[j]);
        if s.run.seen[j].obj.Some? {
          WasBefore(inst, s0, front, ls, ReportKeys(inst, s.run.d)[j], s.run.seen[j].obj.value);
        }
      }
    }
  }

  // ---- One step ----

  /** What the looks said is what the report goes by. */
  lemma ObservedInformed(inst: Instance, s0: Sys, ls: seq<Label>, r: Run, imagePull: bool)
    requires r.Reporting? && LooksInformed(inst, s0, ls, r) && |r.seen| == |ReportKeys(inst, r.d)|
    ensures var o := Observe(inst, r.d, r.seen, imagePull);
            (o.deploymentReady ==> DeploymentWasUp(inst, s0, ls)) && (o.databaseReady ==> DatabaseWasUp(inst, s0, ls, r.d))
  {
    var keys := ReportKeys(inst, r.d);
    var n := |keys|;
    assert keys[n - 1] == Key(Deployment, r.d.name) && keys[n - 2] == DatabaseObject(r.d);
    assert Informed(inst, s0, ls, keys[n - 1], r.seen[n - 1]) && Informed(inst, s0, ls, keys[n - 2], r.seen[n - 2]);
  }

  lemma LookInformed(inst: Instance, s0: Sys, ls: seq<Label>, s: Sys, i: Input)
    requires s == RunTo(inst, s0, ls) && AllInformed(inst, s0, ls, s) && s.run.Reporting?
    requires |s.run.seen| < |ReportKeys(inst, s.run.d)|
    ensures AllInformed(inst, s0, ls, ReportStep(inst, s, i))
  {
    var k := ReportKeys(inst, s.run.d)[|s.run.seen|];
    if At(s.store, k).obj.Some? { IsNow(inst, s0, ls, k); }
  }

  lemma ReportingInformed(inst: Instance, s0: Sys, ls: seq<Label>, s: Sys, i: Input)
    requires s == RunTo(inst, s0, ls) && AllInformed(inst, s0, ls, s) && s.run.Reporting?
    ensures AllInformed(inst, s0, ls, ReportStep(inst, s, i))
  {
    if |s.run.seen| < |ReportKeys(inst, s.run.d)| {
      LookInformed(inst, s0, ls, s, i);
    } else if |s.run.seen| == |ReportKeys(inst, s.run.d)| {
      ObservedInformed(inst, s0, ls, s.run, i.imagePull);
    }
  }

  /** Work on the plan ends with looks still to come. */
  lemma WorkInformed(inst: Instance, s0: Sys, ls: seq<Label>, s: Sys, i: Input)
    requires AllInformed(inst, s0, ls, s) && Progress(inst, s) && s.run.Working?
    ensures AllInformed(inst, s0, ls, OperatorStep(inst, s, i))
  {
  }

  lemma NextInformed(inst: Instance, s0: Sys, ls: seq<Label>, s: Sys, l: Label)
    requires s == RunTo(inst, s0, ls) && AllInformed(inst, s0, ls, s) && Progress(inst, s)
    ensures AllInformed(inst, s0, ls, Next(inst, s, l))
  {
    if l.Operate? && s.run.Working? { WorkInformed(inst, s0, ls, s, l.input); }
    if l.Operate? && s.run.Reporting? { ReportingInformed(inst, s0, ls, s, l.input); }
  }

  lemma {:induction false} RunInformed(inst: Instance, s0: Sys, ls: seq<Label>)
    requires Initial(inst, s0) && Possible(inst, s0, ls)
    ensures AllInformed(inst, s0, ls, RunTo(inst, s0, ls))
    decreases |ls|
  {
    if ls != [] {
      var front, l := ls[..|ls| - 1], ls[|ls| - 1];
      RunInformed(inst, s0, front);
      SaneRun(inst, s0, front);
      NextInformed(inst, s0, front, RunTo(inst, s0, front), l);
      StaysInformed(inst, s0, front, ls, RunTo(inst, s0, ls));
    }
  }

  // ---- The theorem ----

  /** Over every run in which the operator has reported: if the status says Ready, the Deployment had a ready replica at
      some point of the run, and so had the managed database; an external one had its Secret. */
  lemma ReadyWasUp(inst: Instance, s0: Sys, ls: seq<Label>)
    requires Initial(inst, s0) && Possible(inst, s0, ls)
    requires var s := RunTo(inst, s0, ls); s.reports != [] && Holds(s.status, Ready)
    ensures DeploymentWasUp(inst, s0, ls)
    ensures var rs := RunTo(inst, s0, ls).reports; DatabaseWasUp(inst, s0, ls, rs[|rs| - 1].d)
  {
    var s := RunTo(inst, s0, ls);
    var n := |s.reports| - 1;
    RunInformed(inst, s0, ls);
    StatusRun(inst, s0, ls);
    LastReport(s0.status, s.reports);
    ConditionAfter(ApplyAll(s0.status, s.reports[..n]), s.reports[n], Ready);
    assert ReportInformed(inst, s0, ls, s.reports[n]);
  }
}
