/** Status of an Apme resource: patchStatus, databaseReady, deploymentReady, imagePullMessage and publicURL of
    internal/controller/apme_controller.go. Message texts are left out; a condition keeps the reason chosen. */
module Status {
  import opened Options
  import opened Resolve

  datatype ConditionType = Ready | Progressing | Degraded | DatabaseReady

  datatype Reason =
    Available | Pending | LeftoverManagedPostgres | RoutePermissionDenied | ReconcileError | ImagePullError
    | AsExpected | Error | Retrying | Stable | Waiting

  datatype Condition = Condition(kind: ConditionType, holds: bool, reason: Reason, since: nat, generation: nat)

  datatype Status = Status(conditions: seq<Condition>, url: string, observedGeneration: nat,
                           database: Option<DatabaseMode>)

  /** How a reconcile ended: without error, with a Route permission error, or with another error. */
  datatype Ending = Fine | RoutePermission | OtherError

  /** What patchStatus learns from the cluster: the database and the Deployment are ready, and whether the Pods
      of an unready Deployment show an image pull error. */
  datatype Observed = Observed(databaseReady: bool, deploymentReady: bool, imagePull: bool, url: string)

  function Find(cs: seq<Condition>, kind: ConditionType): Option<Condition> {
    if |cs| == 0 then None else if cs[0].kind == kind then Some(cs[0]) else Find(cs[1..], kind)
  }

  /** apimeta.SetStatusCondition: the transition time moves only when the status flips. */
  function SetCondition(cs: seq<Condition>, c: Condition): seq<Condition> {
    if |cs| == 0 then [c]
    else if cs[0].kind == c.kind then
      [if cs[0].holds == c.holds then c.(since := cs[0].since) else c] + cs[1..]
    else [cs[0]] + SetCondition(cs[1..], c)
  }

  function DegradedReason(leftover: bool, ending: Ending, imagePull: bool): Reason {
    if leftover then LeftoverManagedPostgres
    else if ending == RoutePermission then RoutePermissionDenied
    else if ending == OtherError then ReconcileError
    else if imagePull then ImagePullError
    else AsExpected
  }

  /** The status and reason chosen for each condition. */
  function Verdict(kind: ConditionType, leftover: bool, ending: Ending, o: Observed): (bool, Reason) {
    var ready := ending == Fine && o.deploymentReady && o.databaseReady && !leftover;
    match kind
    case DatabaseReady => (o.databaseReady, if o.databaseReady then Available else Pending)
    case Degraded =>
      var reason := DegradedReason(leftover, ending, o.imagePull);
      (reason != AsExpected, reason)
    case Progressing => (!ready, if ending != Fine then Retrying else if ready then Stable else Waiting)
    case Ready => (ready, if ending == RoutePermission then RoutePermissionDenied
                          else if ending == OtherError then Error
                          else if ready then Available else Waiting)
  }

  function NewCondition(kind: ConditionType, generation: nat, leftover: bool, ending: Ending, o: Observed, now: nat): Condition {
    var v := Verdict(kind, leftover, ending, o);
    Condition(kind, v.0, v.1, now, generation)
  }

  /** The status after patchStatus has set its four conditions, in the order it sets them. */
  function NextStatus(st: Status, d: Desired, generation: nat, leftover: bool, ending: Ending, o: Observed, now: nat): Status {
    var c1 := SetCondition(st.conditions, NewCondition(DatabaseReady, generation, leftover, ending, o, now));
    var c2 := SetCondition(c1, NewCondition(Degraded, generation, leftover, ending, o, now));
    var c3 := SetCondition(c2, NewCondition(Progressing, generation, leftover, ending, o, now));
    var c4 := SetCondition(c3, NewCondition(Ready, generation, leftover, ending, o, now));
    Status(c4, o.url, generation, Some(d.database.mode))
  }

  // ---- patchStatus ----

  method PatchConditions(st: Status, d: Desired, generation: nat, leftover: bool, ending: Ending, o: Observed, now: nat)
    returns (next: Status)
    ensures next == NextStatus(st, d, generation, leftover, ending, o, now)
  {
    var cs := st.conditions;
    if o.databaseReady {
      cs := SetCondition(cs, Condition(DatabaseReady, true, Available, now, generation));
    } else {
      cs := SetCondition(cs, Condition(DatabaseReady, false, Pending, now, generation));
    }
    var c := Condition(Degraded, false, AsExpected, now, generation);
    if leftover {
      c := Condition(Degraded, true, LeftoverManagedPostgres, now, generation);
    } else if ending == RoutePermission {
      c := Condition(Degraded, true, RoutePermissionDenied, now, generation);
    } else if ending != Fine {
      c := Condition(Degraded, true, ReconcileError, now, generation);
    } else if o.imagePull {
      c := Condition(Degraded, true, ImagePullError, now, generation);
    }
    cs := SetCondition(cs, c);
    var p, r;
    if ending != Fine {
      var reason := Error;
      if ending == RoutePermission {
        reason := RoutePermissionDenied;
      }
      p := Condition(Progressing, true, Retrying, now, generation);
      r := Condition(Ready, false, reason, now, generation);
    } else if o.deploymentReady && o.databaseReady && !leftover {
      p := Condition(Progressing, false, Stable, now, generation);
      r := Condition(Ready, true, Available, now, generation);
    } else {
      p := Condition(Progressing, true, Waiting, now, generation);
      r := Condition(Ready, false, Waiting, now, generation);
    }
    cs := SetCondition(cs, p);
    cs := SetCondition(cs, r);
    next := Status(cs, o.url, generation, Some(d.database.mode));
  }

  // ---- imagePullMessage ----

  datatype ContainerState = ContainerState(name: string, image: string, waiting: Option<string>, detail: string)

  datatype PodState = PodState(inits: seq<ContainerState>, containers: seq<ContainerState>)

  predicate PullFailure(c: ContainerState) {
    c.waiting == Some("ErrImagePull") || c.waiting == Some("ImagePullBackOff") || c.waiting == Some("InvalidImageName")
  }

  /** All container states of the Pods, in the order the operator visits them. */
  function Visited(pods: seq<PodState>): seq<ContainerState> {
    if |pods| == 0 then [] else pods[0].inits + pods[0].containers + Visited(pods[1..])
  }

  lemma {:induction false} VisitedSplit(pods: seq<PodState>, i: nat)
    requires i < |pods|
    ensures Visited(pods[..i + 1]) == Visited(pods[..i]) + (pods[i].inits + pods[i].containers)
  {
    if i == 0 {
      assert pods[..1][1..] == [] && pods[..0] == [];
    } else {
      VisitedSplit(pods[1..], i - 1);
      assert pods[..i + 1][1..] == pods[1..][..i] && pods[..i][1..] == pods[1..][..i - 1];
    }
  }

  /** The first container state, in visiting order, that waits on an image pull failure; none exactly when no
      container does. */
  method ImagePullMessage(pods: seq<PodState>) returns (found: Option<ContainerState>)
    ensures found.None? <==> forall c :: c in Visited(pods) ==> !PullFailure(c)
    ensures found.Some? ==>
      (exists k :: 0 <= k < |Visited(pods)| && Visited(pods)[k] == found.value && PullFailure(found.value)
        && forall j :: 0 <= j < k ==> !PullFailure(Visited(pods)[j]))
  {
    for i := 0 to |pods|
      invariant forall c :: c in Visited(pods[..i]) ==> !PullFailure(c)
    {
      VisitedSplit(pods, i);
      var statuses := pods[i].inits + pods[i].containers;
      ghost var before := Visited(pods[..i]);
      for j := 0 to |statuses|
        invariant forall k :: 0 <= k < j ==> !PullFailure(statuses[k])
      {
        if PullFailure(statuses[j]) {
          VisitedPrefix(pods, i + 1);
          FirstFailure(Visited(pods), before, statuses, j);
          return Some(statuses[j]);
        }
      }
    }
    assert pods[..|pods|] == pods;
    return None;
  }

  /** The first failure in `statuses`, where there is none in what was visited before. */
  lemma FirstFailure(visited: seq<ContainerState>, before: seq<ContainerState>, statuses: seq<ContainerState>, j: nat)
    requires before + statuses <= visited && j < |statuses|
    requires (forall c :: c in before ==> !PullFailure(c)) && forall k :: 0 <= k < j ==> !PullFailure(statuses[k])
    ensures |before| + j < |visited| && visited[|before| + j] == statuses[j]
    ensures forall l :: 0 <= l < |before| + j ==> !PullFailure(visited[l])
  {
    assert forall l :: 0 <= l < |before + statuses| ==> visited[l] == (before + statuses)[l];
  }

  lemma {:induction false} VisitedPrefix(pods: seq<PodState>, i: nat)
    requires i <= |pods|
    ensures |Visited(pods[..i])| <= |Visited(pods)| && Visited(pods)[..|Visited(pods[..i])|] == Visited(pods[..i])
    decreases |pods| - i
  {
    if i == |pods| {
      assert pods[..i] == pods;
    } else {
      VisitedPrefix(pods, i + 1);
      VisitedSplit(pods, i);
    }
  }
}
