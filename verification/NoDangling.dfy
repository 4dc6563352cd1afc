/** No dangling references, over all runs: calls failing, stops and spec edits anywhere. */
module NoDangling {
  import opened ObjectNames
  import opened Resolve
  import opened Cluster
  import opened Pod
  import opened PodReferences
  import opened Plan
  import opened Machine
  import opened Reach
  import opened References
  import opened Incarnations

  /** Whatever an object of the operator refers to under a name of the operator's is in the store. */
  lemma NoDanglingReferences(inst: Instance, s: Sys, k: Key, r: Key)
    requires Reachable(inst, s) && Owned(s.store, k, inst.uid)
    requires r in Refs(k.kind, At(s.store, k).obj.value.fields)
    ensures Present(s.store, r) && Generated(inst.name, r)
  {
    ReachableSane(inst, s);
  }

  /** The Deployment in the store: every Secret, ConfigMap, claim and ServiceAccount its Pod names is there, or is one
      the user named. */
  lemma DeploymentReferencesPresent(inst: Instance, s: Sys, k: Key, d: Desired, checksum: string, r: Key)
    requires Reachable(inst, s) && Owned(s.store, k, inst.uid)
    requires Template in At(s.store, k).obj.value.fields
    requires At(s.store, k).obj.value.fields[Template] == Of(Workload(d, checksum))
    requires Refers(PodOf(d), r)
    ensures Present(s.store, r) || r in UserRefs(d)
  {
    WorkloadRefs(d, checksum, r);
    if r !in UserRefs(d) { NoDanglingReferences(inst, s, k, r); }
  }

  /** Every Route in the store leads to a Service that is there. */
  lemma RouteLeadsToService(inst: Instance, s: Sys, k: Key)
    requires Reachable(inst, s) && Owned(s.store, k, inst.uid) && k.kind == Route
    requires TextOf(At(s.store, k).obj.value.fields, Target) != ""
    ensures Present(s.store, Key(Service, TextOf(At(s.store, k).obj.value.fields, Target)))
  {
    NoDanglingReferences(inst, s, k, Key(Service, TextOf(At(s.store, k).obj.value.fields, Target)));
  }

  /** And so does every backend of the Ingress. */
  lemma IngressLeadsToServices(inst: Instance, s: Sys, k: Key, host: string, backends: seq<Backend>, b: Backend)
    requires Reachable(inst, s) && Owned(s.store, k, inst.uid)
    requires Template in At(s.store, k).obj.value.fields
    requires At(s.store, k).obj.value.fields[Template] == Of(Backends(host, backends)) && b in backends
    ensures Present(s.store, Key(Service, b.service))
  {
    NoDanglingReferences(inst, s, k, Key(Service, b.service));
  }
}
