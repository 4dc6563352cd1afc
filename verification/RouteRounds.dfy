/** Rounds of whole reconciles: the Route passes of RouteConvergence are what ensureAll does to a Route. */
module RouteRounds {
  import opened ObjectNames
  import opened Resolve
  import opened Cluster
  import opened Plan
  import opened Machine
  import opened PlanLaws
  import opened Incarnations
  import opened RouteConvergence
  import opened Passes
  import opened Quiescence

  /** The cluster before each of a series of reconciles of one spec, all of which succeed. Between two of them the
      Routes of the plan are only touched as OpenShift does. */
  ghost predicate Series(inst: Instance, spec: ApmeSpec, stores: seq<Store>, envs: seq<Inputs>) {
    && |stores| == |envs| + 1
    && forall i :: 0 <= i < |envs| ==> Successive(inst, spec, stores[i], envs[i], stores[i + 1])
  }

  ghost predicate Successive(inst: Instance, spec: ApmeSpec, store: Store, env: Inputs, store': Store) {
    var d, o := IntentOf(inst, spec), Pass(inst, spec, store, env);
    && Smooth(env) && o.ok
    && forall t :: OnRoute(t) && Planned(inst, d, t) ==> RouteSettles(inst, t, o.store, store')
  }

  ghost predicate RouteSettles(inst: Instance, t: Item, store: Store, store': Store) {
    Settles(At(store, WriteKey(inst.name, t)), At(store', WriteKey(inst.name, t)))
  }

  function Slots(stores: seq<Store>, k: Key): seq<Slot> {
    seq(|stores|, i requires 0 <= i < |stores| => At(stores[i], k))
  }

  function Lingers(envs: seq<Inputs>, t: Item): seq<bool> {
    seq(|envs|, i requires 0 <= i < |envs| => envs[i](t).lingers)
  }

  /** How many of the first `n` reconciles did more for the Route of `t` than wait for its deletion. */
  function ActiveOn(inst: Instance, stores: seq<Store>, t: Item, n: nat): nat
    requires n < |stores|
  {
    Active(Slots(stores, WriteKey(inst.name, t)), n)
  }

  lemma SuccessiveIsRound(inst: Instance, spec: ApmeSpec, t: Item, store: Store, env: Inputs, store': Store)
    requires OnRoute(t) && Planned(inst, IntentOf(inst, spec), t) && Successive(inst, spec, store, env, store')
    ensures var k := WriteKey(inst.name, t);
            Round(inst, IntentOf(inst, spec), t, At(store, k), env(t).lingers, At(store', k))
  {
    var d, o := IntentOf(inst, spec), Pass(inst, spec, store, env);
    assert RouteSettles(inst, t, o.store, store');
    IntentDefaulted(inst, spec);
    ItemsPiece(inst, d);
    ItemsMembers(inst, d, t);
    var j :| 0 <= j < |Items(inst, d)| && Items(inst, d)[j] == t;
    PassOnRoute(inst, d, Items(inst, d), store, false, env, j);
  }

  ghost predicate RoundAt(inst: Instance, d: Desired, t: Item, stores: seq<Store>, envs: seq<Inputs>, i: nat)
    requires OnRoute(t) && i < |envs| && i + 1 < |stores|
  {
    var k := WriteKey(inst.name, t);
    Round(inst, d, t, At(stores[i], k), envs[i](t).lingers, At(stores[i + 1], k))
  }

  lemma RoundsFromParts(inst: Instance, d: Desired, t: Item, stores: seq<Store>, envs: seq<Inputs>)
    requires OnRoute(t) && |stores| == |envs| + 1 && forall i :: 0 <= i < |envs| ==> RoundAt(inst, d, t, stores, envs, i)
    ensures Rounds(inst, d, t, Slots(stores, WriteKey(inst.name, t)), Lingers(envs, t))
  {
    var ss, lingers := Slots(stores, WriteKey(inst.name, t)), Lingers(envs, t);
    forall i | 0 <= i < |lingers|
      ensures Round(inst, d, t, ss[i], lingers[i], ss[i + 1])
    {
      assert RoundAt(inst, d, t, stores, envs, i);
    }
  }

  lemma SeriesRoundAt(inst: Instance, spec: ApmeSpec, t: Item, stores: seq<Store>, envs: seq<Inputs>, i: nat)
    requires OnRoute(t) && Planned(inst, IntentOf(inst, spec), t) && Series(inst, spec, stores, envs) && i < |envs|
    ensures RoundAt(inst, IntentOf(inst, spec), t, stores, envs, i)
  {
    SuccessiveIsRound(inst, spec, t, stores[i], envs[i], stores[i + 1]);
  }

  lemma SeriesIsRounds(inst: Instance, spec: ApmeSpec, t: Item, stores: seq<Store>, envs: seq<Inputs>)
    requires OnRoute(t) && Planned(inst, IntentOf(inst, spec), t) && Series(inst, spec, stores, envs)
    ensures Rounds(inst, IntentOf(inst, spec), t, Slots(stores, WriteKey(inst.name, t)), Lingers(envs, t))
  {
    forall i: nat | i < |envs|
      ensures RoundAt(inst, IntentOf(inst, spec), t, stores, envs, i)
    {
      SeriesRoundAt(inst, spec, t, stores, envs, i);
    }
    RoundsFromParts(inst, IntentOf(inst, spec), t, stores, envs);
  }

  lemma RoundsConverge(inst: Instance, d: Desired, t: Item, ss: seq<Slot>, lingers: seq<bool>, n: nat)
    requires OnRoute(t) && Rounds(inst, d, t, ss, lingers) && NoRival(inst.uid, ss[0])
    requires n <= |lingers| && Active(ss, n) >= 5
    ensures AsDesired(inst, d, t, ss[n])
  {
    RoutesConverge(inst, d, t, ss, lingers, n);
  }

  /** However long deletions take: once five such reconciles have done more for a Route than wait for its deletion, and
      ever after, it is as the spec desires. */
  lemma ReconcilesConverge(inst: Instance, spec: ApmeSpec, t: Item, stores: seq<Store>, envs: seq<Inputs>, n: nat)
    requires OnRoute(t) && Planned(inst, IntentOf(inst, spec), t) && Series(inst, spec, stores, envs)
    requires NoRival(inst.uid, At(stores[0], WriteKey(inst.name, t)))
    requires n <= |envs| && ActiveOn(inst, stores, t, n) >= 5
    ensures AsDesired(inst, IntentOf(inst, spec), t, At(stores[n], WriteKey(inst.name, t)))
  {
    SeriesIsRounds(inst, spec, t, stores, envs);
    RoundsConverge(inst, IntentOf(inst, spec), t, Slots(stores, WriteKey(inst.name, t)), Lingers(envs, t), n);
  }

  /** No Route of the plan has another controller, and each has had five reconciles that did more than wait. */
  ghost predicate Underway(inst: Instance, d: Desired, stores: seq<Store>, n: nat)
    requires n < |stores|
  {
    forall t :: OnRoute(t) && Planned(inst, d, t) ==>
      NoRival(inst.uid, At(stores[0], WriteKey(inst.name, t))) && ActiveOn(inst, stores, t, n) >= 5
  }

  lemma AllConverge(inst: Instance, spec: ApmeSpec, stores: seq<Store>, envs: seq<Inputs>, n: nat)
    requires Series(inst, spec, stores, envs) && n <= |envs| && Underway(inst, IntentOf(inst, spec), stores, n)
    ensures var d := IntentOf(inst, spec); RoutesAsDesired(inst, d, Items(inst, d), stores[n])
  {
    var d := IntentOf(inst, spec);
    forall j | 0 <= j < |Items(inst, d)| && OnRoute(Items(inst, d)[j])
      ensures AsDesired(inst, d, Items(inst, d)[j], At(stores[n], WriteKey(inst.name, Items(inst, d)[j])))
    {
      ItemsMembers(inst, d, Items(inst, d)[j]);
      ReconcilesConverge(inst, spec, Items(inst, d)[j], stores, envs, n);
    }
  }

  /** From any cluster to quiescence: once each Route of the plan has had its five reconciles, one more reconcile that
      succeeds brings the cluster to rest, and the one after it changes neither store nor status. */
  lemma ConvergesToRest(inst: Instance, s: Sys, stores: seq<Store>, envs: seq<Inputs>, n: nat,
                        env: Inputs, last: Input, env': Inputs, last': Input)
    requires Series(inst, s.spec, stores, envs) && n <= |envs| && Underway(inst, IntentOf(inst, s.spec), stores, n)
    requires s.store == stores[n] && UrlHeld(inst, s.store)
    requires Smooth(env) && Smooth(env') && last'.imagePull == last.imagePull && Pass(inst, s.spec, s.store, env).ok
    ensures var s1 := AfterPass(inst, s, env, last);
            var s2 := AfterPass(inst, s1, env', last');
            s2.store == s1.store && s2.status == s1.status
  {
    AllConverge(inst, s.spec, stores, envs, n);
    SecondReconcileChangesNothing(inst, s, env, last, env', last');
  }
}
