/** Readiness, told in the objects themselves: what the operator must have found in the cluster for the conditions it
    writes. */
module Readiness {
  import opened Options
  import opened ObjectNames
  import opened Resolve
  import opened Cluster
  import Status
  import opened StatusLaws
  import opened Plan
  import opened Machine
  import opened Exchanges
  import opened Refinement
  import opened Parts

  /** The workload reports one ready replica or more. */
  ghost predicate OneReady(fields: Payload) {
    ReadyReplicas in fields && exists n: nat :: n >= 1 && fields[ReadyReplicas] == Count(n)
  }

  /** A look that found the object. */
  predicate FoundAt(cs: seq<Exchange>, k: Key, o: Obj) {
    exists i :: 0 <= i < |cs| && Gets(cs[i], k) && Found(cs[i], k) && At(cs[i].before, k).obj == Some(o)
  }

  /** The Deployment was found with a ready replica. */
  ghost predicate DeploymentUp(d: Desired, cs: seq<Exchange>) {
    exists o :: FoundAt(cs, Key(Deployment, d.name), o) && OneReady(o.fields)
  }

  /** The database is there: the user's Secret was found, or the operator's StatefulSet with a ready replica. */
  ghost predicate DatabaseUp(d: Desired, cs: seq<Exchange>) {
    if d.database.mode == External then exists o :: FoundAt(cs, Key(Secret, d.database.secretName), o)
    else exists o :: FoundAt(cs, Key(StatefulSet, d.name + "-postgres"), o) && OneReady(o.fields)
  }

  /** What each condition says after a report with these looks. */
  ghost predicate SaysWhatWasFound(d: Desired, cs: seq<Exchange>, leftover: bool, ending: Ending, st: Status.Status) {
    && (Holds(st, Status.DatabaseReady) <==> DatabaseUp(d, cs))
    && (Holds(st, Status.Ready) <==> ending == Status.Fine && !leftover && DeploymentUp(d, cs) && DatabaseUp(d, cs))
    && (Denied(st, Status.Progressing) <==> Holds(st, Status.Ready))
  }

  // ---- The looks, by their keys ----

  lemma LastLooks(inst: Instance, d: Desired, cs: seq<Exchange>)
    requires LookCalls(ReportKeys(inst, d), cs)
    ensures |cs| >= 2 && Gets(cs[|cs| - 1], Key(Deployment, d.name))
    ensures d.database.mode == External ==> Gets(cs[|cs| - 2], Key(Secret, d.database.secretName))
    ensures d.database.mode != External ==> Gets(cs[|cs| - 2], Key(StatefulSet, d.name + "-postgres"))
    ensures |cs| == 3 || |cs| == 2
    ensures |cs| == 3 ==> exists name :: Gets(cs[0], Key(Route, name))
  {
    var keys := ReportKeys(inst, d);
    var n := |keys|;
    assert keys[n - 1] == Key(Deployment, d.name) && keys[n - 2] == DatabaseObject(d);
    if n == 3 { assert keys[0] == RouteShown(d) && Gets(cs[0], Key(Route, keys[0].name)); }
  }

  /** Only one of the looks is at `k`, so what was found there is what it found. */
  lemma FoundByOne(cs: seq<Exchange>, k: Key, j: nat, o: Obj)
    requires j < |cs| && forall i :: 0 <= i < |cs| && Gets(cs[i], k) ==> i == j
    requires Gets(cs[j], k)
    ensures FoundAt(cs, k, o) <==> Found(cs[j], k) && At(cs[j].before, k).obj == Some(o)
  {
  }

  lemma DeploymentByLast(inst: Instance, d: Desired, cs: seq<Exchange>, o: Obj)
    requires LookCalls(ReportKeys(inst, d), cs)
    ensures |cs| >= 2
    ensures FoundAt(cs, Key(Deployment, d.name), o) <==>
            Found(cs[|cs| - 1], Key(Deployment, d.name)) && At(cs[|cs| - 1].before, Key(Deployment, d.name)).obj == Some(o)
  {
    LastLooks(inst, d, cs);
    FoundByOne(cs, Key(Deployment, d.name), |cs| - 1, o);
  }

  lemma DatabaseByLook(inst: Instance, d: Desired, cs: seq<Exchange>, k: Key, o: Obj)
    requires LookCalls(ReportKeys(inst, d), cs)
    requires k == if d.database.mode == External then Key(Secret, d.database.secretName)
                  else Key(StatefulSet, d.name + "-postgres")
    ensures |cs| >= 2
    ensures FoundAt(cs, k, o) <==> Found(cs[|cs| - 2], k) && At(cs[|cs| - 2].before, k).obj == Some(o)
  {
    LastLooks(inst, d, cs);
    FoundByOne(cs, k, |cs| - 2, o);
  }

  // ---- What is observed of them ----

  /** What the report makes of the last two looks. */
  lemma ObservedOf(inst: Instance, d: Desired, cs: seq<Exchange>, imagePull: bool)
    requires LookCalls(ReportKeys(inst, d), cs)
    ensures var o := Observe(inst, d, Findings(ReportKeys(inst, d), cs), imagePull);
            (o.deploymentReady <==> DeploymentUp(d, cs)) && (o.databaseReady <==> DatabaseUp(d, cs))
  {
    DeploymentObserved(inst, d, cs, imagePull);
    DatabaseObserved(inst, d, cs, imagePull);
  }

  lemma DeploymentObserved(inst: Instance, d: Desired, cs: seq<Exchange>, imagePull: bool)
    requires LookCalls(ReportKeys(inst, d), cs)
    ensures Observe(inst, d, Findings(ReportKeys(inst, d), cs), imagePull).deploymentReady <==> DeploymentUp(d, cs)
  {
    LastLooks(inst, d, cs);
    var c, k := cs[|cs| - 1], Key(Deployment, d.name);
    forall o
      ensures FoundAt(cs, k, o) <==> Found(c, k) && At(c.before, k).obj == Some(o)
    {
      DeploymentByLast(inst, d, cs, o);
    }
    assert Findings(ReportKeys(inst, d), cs)[|cs| - 1] == if c.input.fault == NoFault then At(c.before, k) else EMPTY;
    if Found(c, k) && OneReady(Read(c, k).fields) { assert FoundAt(cs, k, Read(c, k)); }
  }

  lemma DatabaseObserved(inst: Instance, d: Desired, cs: seq<Exchange>, imagePull: bool)
    requires LookCalls(ReportKeys(inst, d), cs)
    ensures Observe(inst, d, Findings(ReportKeys(inst, d), cs), imagePull).databaseReady <==> DatabaseUp(d, cs)
  {
    LastLooks(inst, d, cs);
    var k := if d.database.mode == External then Key(Secret, d.database.secretName) else Key(StatefulSet, d.name + "-postgres");
    var c := cs[|cs| - 2];
    forall o
      ensures FoundAt(cs, k, o) <==> Found(c, k) && At(c.before, k).obj == Some(o)
    {
      DatabaseByLook(inst, d, cs, k, o);
    }
    assert Findings(ReportKeys(inst, d), cs)[|cs| - 2] == if c.input.fault == NoFault then At(c.before, k) else EMPTY;
    if Found(c, k) { assert FoundAt(cs, k, Read(c, k)); }
  }

  // ---- The theorem ----

  /** After a report, whatever the status was: DatabaseReady says exactly that the database was found up; Ready says exactly
      that, and that the Deployment was found with a ready replica, and that the reconcile ended well and left nothing over;
      and Progressing is denied exactly with Ready. */
  lemma ReportSaysWhatWasFound(inst: Instance, d: Desired, st: Status.Status, g: nat, leftover: bool, ending: Ending,
                               cs: seq<Exchange>, i: Input)
    requires LookCalls(ReportKeys(inst, d), cs)
    ensures SaysWhatWasFound(d, cs, leftover, ending,
                             Apply(st, ReportOf(inst, d, g, leftover, ending, Findings(ReportKeys(inst, d), cs), i)))
  {
    var r := ReportOf(inst, d, g, leftover, ending, Findings(ReportKeys(inst, d), cs), i);
    ObservedOf(inst, d, cs, i.imagePull);
    ConditionAfter(st, r, Status.DatabaseReady);
    ConditionAfter(st, r, Status.Ready);
    ConditionAfter(st, r, Status.Progressing);
  }

  // ---- And why ----

  /** The Deployment was found without a ready replica while its Pods show that an image cannot be pulled. */
  ghost predicate ImagesMissing(d: Desired, cs: seq<Exchange>, imagePull: bool) {
    imagePull && (exists o :: FoundAt(cs, Key(Deployment, d.name), o)) && !DeploymentUp(d, cs)
  }

  function ReasonOf(st: Status.Status, kind: Status.ConditionType): Option<Status.Reason> {
    if Status.Find(st.conditions, kind).Some? then Some(Status.Find(st.conditions, kind).value.reason) else None
  }

  /** The reason given is the first of these that applies: a leftover, a Route permission error, another error, a missing
      image; and Degraded is denied exactly when none does. */
  ghost predicate SaysWhy(d: Desired, cs: seq<Exchange>, leftover: bool, ending: Ending, imagePull: bool, st: Status.Status) {
    && ReasonOf(st, Status.Degraded) == Some(
         if leftover then Status.LeftoverManagedPostgres
         else if ending == Status.RoutePermission then Status.RoutePermissionDenied
         else if ending == Status.OtherError then Status.ReconcileError
         else if ImagesMissing(d, cs, imagePull) then Status.ImagePullError
         else Status.AsExpected)
    && (Denied(st, Status.Degraded) <==> !leftover && ending == Status.Fine && !ImagesMissing(d, cs, imagePull))
    && (ReasonOf(st, Status.Ready) == Some(Status.RoutePermissionDenied) <==> ending == Status.RoutePermission)
    && (ReasonOf(st, Status.Ready) == Some(Status.Error) <==> ending == Status.OtherError)
    && (ReasonOf(st, Status.Ready) == Some(Status.Available) <==> Holds(st, Status.Ready))
    && (ReasonOf(st, Status.Progressing) == Some(Status.Retrying) <==> ending != Status.Fine)
    && (ReasonOf(st, Status.Progressing) == Some(Status.Stable) <==> Holds(st, Status.Ready))
    && (ReasonOf(st, Status.DatabaseReady) == Some(Status.Available) <==> DatabaseUp(d, cs))
  }

  lemma ImagesObserved(inst: Instance, d: Desired, cs: seq<Exchange>, imagePull: bool)
    requires LookCalls(ReportKeys(inst, d), cs)
    ensures Observe(inst, d, Findings(ReportKeys(inst, d), cs), imagePull).imagePull <==> ImagesMissing(d, cs, imagePull)
  {
    LastLooks(inst, d, cs);
    DeploymentObserved(inst, d, cs, imagePull);
    var c, k := cs[|cs| - 1], Key(Deployment, d.name);
    forall o
      ensures FoundAt(cs, k, o) <==> Found(c, k) && At(c.before, k).obj == Some(o)
    {
      DeploymentByLast(inst, d, cs, o);
    }
    assert Findings(ReportKeys(inst, d), cs)[|cs| - 1] == if c.input.fault == NoFault then At(c.before, k) else EMPTY;
    if Found(c, k) { assert FoundAt(cs, k, Read(c, k)); }
  }

  /** The reasons after a report, whatever the status was. */
  lemma ReportSaysWhy(inst: Instance, d: Desired, st: Status.Status, g: nat, leftover: bool, ending: Ending,
                      cs: seq<Exchange>, i: Input)
    requires LookCalls(ReportKeys(inst, d), cs)
    ensures SaysWhy(d, cs, leftover, ending, i.imagePull,
                    Apply(st, ReportOf(inst, d, g, leftover, ending, Findings(ReportKeys(inst, d), cs), i)))
  {
    var r := ReportOf(inst, d, g, leftover, ending, Findings(ReportKeys(inst, d), cs), i);
    ObservedOf(inst, d, cs, i.imagePull);
    ImagesObserved(inst, d, cs, i.imagePull);
    ConditionAfter(st, r, Status.DatabaseReady);
    ConditionAfter(st, r, Status.Degraded);
    ConditionAfter(st, r, Status.Ready);
    ConditionAfter(st, r, Status.Progressing);
  }

  // ---- And where ----

  /** The Route looked at is the UI's if there is a UI, and else the API's; it is looked at exactly when Routes are on. */
  ghost predicate LooksAtRoute(inst: Instance, d: Desired, cs: seq<Exchange>) {
    if d.exposure.routeEnabled && inst.routeAPI then
      |cs| == 3 && Gets(cs[0], Key(Route, if d.components.ui then d.name + "-ui" else d.name + "-api"))
    else |cs| == 2
  }

  /** The object a look found, if any. */
  function FindingOf(c: Exchange): Slot {
    if c.request.Object? && c.request.action.Get? && c.input.fault == NoFault then At(c.before, c.request.action.key) else EMPTY
  }

  /** The URL shows the host that the Route was found with, admitted before given, and else the Ingress host. */
  ghost predicate SaysWhere(inst: Instance, d: Desired, cs: seq<Exchange>, st: Status.Status) {
    var route := if |cs| == 3 then FindingOf(cs[0]) else EMPTY;
    LooksAtRoute(inst, d, cs) && UrlShown(d, AdmittedTo(route), HostGiven(route), st.url)
  }

  lemma PublicURLShows(d: Desired, route: Slot)
    ensures UrlShown(d, AdmittedTo(route), HostGiven(route), PublicURL(d, route))
  {
  }

  lemma FirstLook(inst: Instance, d: Desired, cs: seq<Exchange>)
    requires LookCalls(ReportKeys(inst, d), cs)
    ensures LooksAtRoute(inst, d, cs)
    ensures |cs| == 3 ==> Findings(ReportKeys(inst, d), cs)[0] == FindingOf(cs[0])
  {
    var keys := ReportKeys(inst, d);
    if d.exposure.routeEnabled && inst.routeAPI { assert keys[0] == RouteShown(d) && |keys| == 3 && Gets(cs[0], keys[0]); }
  }

  /** The URL after a report. */
  lemma ReportSaysWhere(inst: Instance, d: Desired, st: Status.Status, g: nat, leftover: bool, ending: Ending,
                        cs: seq<Exchange>, i: Input)
    requires LookCalls(ReportKeys(inst, d), cs)
    ensures SaysWhere(inst, d, cs, Apply(st, ReportOf(inst, d, g, leftover, ending, Findings(ReportKeys(inst, d), cs), i)))
  {
    FirstLook(inst, d, cs);
    PublicURLShows(d, if |cs| == 3 then FindingOf(cs[0]) else EMPTY);
  }
}
