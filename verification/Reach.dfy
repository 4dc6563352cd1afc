/** Where runs begin, and the states they reach. */
module Reach {
  import opened ObjectNames
  import opened PluginPorts
  import opened Cluster
  import opened Plan
  import opened Machine
  import opened References

  function HostOf(o: Obj): string { TextOf(o.fields, Host) }

  /** A nonempty desired-host annotation is the host, and a host the operator applied is not empty. */
  predicate HostAgrees(o: Obj) {
    && (TextOf(o.fields, DesiredHost) != "" ==> HostOf(o) == TextOf(o.fields, DesiredHost))
    && (Host in o.applied ==> HostOf(o) != "")
  }

  ghost predicate HostsAgree(inst: Instance, store: Store) {
    forall k: Key :: k.kind == Route && Owned(store, k, inst.uid) ==> HostAgrees(At(store, k).obj.value)
  }

  ghost predicate AllWellBorn(store: Store) { forall k :: WellBorn(At(store, k)) }

  ghost predicate OwnsOwnNames(inst: Instance, store: Store) {
    forall k :: Owned(store, k, inst.uid) ==> Generated(inst.name, k)
  }

  /** What an earlier operator may have left: its objects are under their generated names, refer to nothing that is
      missing, and a Route that has the desired-host annotation agrees with it. It may be without the annotation, and
      a Secret may hold any URL. */
  ghost predicate Inherited(inst: Instance, store: Store) {
    AllWellBorn(store) && NoDangling(inst, store) && HostsAgree(inst, store) && OwnsOwnNames(inst, store)
  }

  /** The operator starts, on a new resource or on one an earlier operator served. */
  ghost predicate Initial(inst: Instance, s: Sys) {
    Inherited(inst, s.store) && Admitted(s.spec.plugins) && s.run.Idle? && s.finished == [] && s.reports == []
  }

  /** `s` can be reached from some state in which the operator starts. */
  ghost predicate Reachable(inst: Instance, s: Sys) {
    exists s0, ls :: Initial(inst, s0) && Possible(inst, s0, ls) && s == RunTo(inst, s0, ls)
  }

  /** A store in which nothing is the operator's yet is one to start from. */
  lemma NewResourceInherits(inst: Instance, store: Store)
    requires AllWellBorn(store) && forall k :: !Owned(store, k, inst.uid)
    ensures Inherited(inst, store)
  {
  }

  // ---- A run and its parts ----

  lemma InitialReachable(inst: Instance, s: Sys)
    requires Initial(inst, s)
    ensures Reachable(inst, s)
  {
    assert Possible(inst, s, []) && s == RunTo(inst, s, []);
  }

  lemma {:induction false} RunConcat(inst: Instance, s: Sys, ls: seq<Label>, ms: seq<Label>)
    ensures RunTo(inst, s, ls + ms) == RunTo(inst, RunTo(inst, s, ls), ms)
    ensures Possible(inst, s, ls + ms) <==> Possible(inst, s, ls) && Possible(inst, RunTo(inst, s, ls), ms)
    decreases |ms|
  {
    if ms == [] {
      assert ls + ms == ls;
    } else {
      RunConcat(inst, s, ls, ms[..|ms| - 1]);
      assert (ls + ms)[..|ls + ms| - 1] == ls + ms[..|ms| - 1];
    }
  }

  lemma RunOne(inst: Instance, s: Sys, l: Label)
    ensures RunTo(inst, s, [l]) == Next(inst, s, l)
    ensures Possible(inst, s, [l]) <==> Enabled(inst, s, l)
  {
    assert [l][..0] == [];
    assert RunTo(inst, s, []) == s && Possible(inst, s, []);
  }

  /** Whatever a reachable state can run to is reachable. */
  lemma RunReachable(inst: Instance, s: Sys, ls: seq<Label>)
    requires Reachable(inst, s) && Possible(inst, s, ls)
    ensures Reachable(inst, RunTo(inst, s, ls))
  {
    var s0, ms :| Initial(inst, s0) && Possible(inst, s0, ms) && s == RunTo(inst, s0, ms);
    RunConcat(inst, s0, ms, ls);
    assert Possible(inst, s0, ms + ls);
  }
}
