/** The race in which a Delete removes another controller's Route: possible from every state that is about to delete
    one, and such states are reached, for a Route no longer wanted and for one to be recreated. */
module StaleDelete {
  import opened Options
  import opened ObjectNames
  import opened Resolve
  import opened Cluster
  import opened Plan
  import opened Machine
  import opened Reach
  import opened PlanLaws
  import opened Frames
  import opened Incarnations
  import opened RouteHosts
  import opened Passes
  import opened Quiescence

  // ---- The race ----

  /** Another controller's Route, put in the place of the one read. */
  function Replaced(store: Store, k: Key, rival: Uid): Store {
    var v := At(store, k).version;
    store[k := Slot(Some(Obj(Some(rival), false, v + 1, map[], {})), v + 1)]
  }

  lemma OthersMayReplace(inst: Instance, store: Store, k: Key, rival: Uid)
    requires AllWellBorn(store) && k.kind == Route && rival != inst.uid && Present(store, k)
    ensures Bystanders(inst, store, Replaced(store, k, rival))
    ensures Owned(Replaced(store, k, rival), k, rival)
  {
    forall j
      ensures Bystander(inst.name, inst.uid, j, At(store, j), At(Replaced(store, k, rival), j))
    {
      if j != k { BystanderReflexive(inst.name, inst.uid, j, At(store, j)); }
    }
  }

  /** The operator is about to look at a Route of its own that it will delete. */
  ghost predicate AboutToDelete(inst: Instance, s: Sys) {
    && Busy(inst, s) && OnRoute(Current(s)) && s.run.seen == []
    && Owned(s.store, WriteKey(inst.name, Current(s)), inst.uid)
    && RouteAction(inst, s.run.d, Current(s), At(s.store, WriteKey(inst.name, Current(s)))).Delete?
  }

  /** A call that goes through and finds no finalizer. */
  predicate Plainly(i: Input) { i.fault == NoFault && !i.lingers && Drawn(i.material) }

  /** The operator reads its Route, another controller puts its own in the place, and the operator deletes. */
  function Race(store: Store, k: Key, i: Input, rival: Uid): seq<Label> {
    [Operate(i), Others(Replaced(store, k, rival)), Operate(i)]
  }

  /** After the look. */
  lemma ReadsItsRoute(inst: Instance, s: Sys, i: Input, k: Key) returns (s1: Sys)
    requires AboutToDelete(inst, s) && Plainly(i) && k == WriteKey(inst.name, Current(s))
    ensures Enabled(inst, s, Operate(i)) && s1 == Next(inst, s, Operate(i)) && s1.store == s.store
    ensures s1.run == Working(s.run.d, s.run.generation, s.run.plan, s.run.pc, [At(s.store, k)], s.run.leftover)
  {
    FirstRead(inst, s.run.d, Current(s), s.store, i.material);
    ReadStep(inst, s, i);
    assert s.run.seen + [At(s.store, k)] == [At(s.store, k)];
    s1 := Next(inst, s, Operate(i));
  }

  /** After the swap. */
  lemma RivalComes(inst: Instance, s1: Sys, store: Store) returns (s2: Sys)
    requires Bystanders(inst, s1.store, store)
    ensures Enabled(inst, s1, Others(store)) && s2 == Next(inst, s1, Others(store))
    ensures s2.run == s1.run && s2.store == store
  {
    s2 := Next(inst, s1, Others(store));
  }

  lemma DeletesWhatIsThere(inst: Instance, s: Sys, i: Input, k: Key)
    requires Busy(inst, s) && OnRoute(Current(s)) && |s.run.seen| == 1 && Plainly(i)
    requires k == WriteKey(inst.name, Current(s))
    requires RouteAction(inst, s.run.d, Current(s), s.run.seen[0]).Delete? && Present(s.store, k)
    ensures Enabled(inst, s, Operate(i)) && !Present(Next(inst, s, Operate(i)).store, k)
  {
    RouteCall(inst, s.run.d, Current(s), s.run.seen, i.material);
    StepOnKey(inst, s, i);
  }

  lemma RivalMayReplace(inst: Instance, s: Sys, k: Key, rival: Uid)
    requires Reachable(inst, s) && k.kind == Route && Present(s.store, k) && rival != inst.uid
    ensures Bystanders(inst, s.store, Replaced(s.store, k, rival)) && Owned(Replaced(s.store, k, rival), k, rival)
  {
    ReachableSane(inst, s);
    assert AllWellBorn(s.store);
    OthersMayReplace(inst, s.store, k, rival);
  }

  lemma RouteKind(t: Item)
    requires OnRoute(t)
    ensures KindOf(t) == Route
  {
  }

  /** From every reachable state in which the operator is about to delete a Route of its own, unwanted or due to be
      recreated, the race is possible; the Route is the rival's before the last step and gone after it. */
  lemma StaleDeleteRemovesForeignRoute(inst: Instance, s: Sys, i: Input, k: Key, rival: Uid, ls: seq<Label>)
    requires Reachable(inst, s) && AboutToDelete(inst, s) && k == WriteKey(inst.name, Current(s))
    requires Plainly(i) && rival != inst.uid && ls == Race(s.store, k, i, rival)
    ensures Possible(inst, s, ls)
    ensures Owned(RunTo(inst, s, ls[..2]).store, k, rival) && !Present(RunTo(inst, s, ls).store, k)
  {
    RouteKind(Current(s));
    RivalMayReplace(inst, s, k, rival);
    RaceRuns(inst, s, i, k, Replaced(s.store, k, rival), ls);
  }

  lemma RaceRuns(inst: Instance, s: Sys, i: Input, k: Key, store: Store, ls: seq<Label>)
    requires AboutToDelete(inst, s) && Plainly(i) && k == WriteKey(inst.name, Current(s))
    requires Bystanders(inst, s.store, store) && Present(store, k) && ls == [Operate(i), Others(store), Operate(i)]
    ensures Possible(inst, s, ls) && RunTo(inst, s, ls[..2]).store == store && !Present(RunTo(inst, s, ls).store, k)
  {
    var s1 := ReadsItsRoute(inst, s, i, k);
    var s2 := RivalComes(inst, s1, store);
    DeletesWhatIsThere(inst, s2, i, k);
    ThreeMoves(inst, s, Operate(i), Others(store), Operate(i), s1, s2);
  }

  lemma ThreeMoves(inst: Instance, s: Sys, l: Label, m: Label, n: Label, s1: Sys, s2: Sys)
    requires s1 == Next(inst, s, l) && s2 == Next(inst, s1, m)
    requires Enabled(inst, s, l) && Enabled(inst, s1, m) && Enabled(inst, s2, n)
    ensures RunTo(inst, s, [l, m, n][..2]) == s2 && RunTo(inst, s, [l, m, n]) == Next(inst, s2, n)
    ensures Possible(inst, s, [l, m, n])
  {
    RunOne(inst, s, l);
    RunOne(inst, s1, m);
    RunConcat(inst, s, [l], [m]);
    assert [l] + [m] == [l, m] == [l, m, n][..2];
    RunOne(inst, s2, n);
    RunConcat(inst, s, [l, m], [n]);
    assert [l, m] + [n] == [l, m, n];
  }

  // ---- A pass over a namespace that is still bare ----

  /** Items that go through where nothing is in their way. */
  predicate Simple(t: Item) { Applies(t) || t.SeeLeftover? || t.EnsureProxyToken? || t.ApplyDeployment? }

  ghost predicate Bare(inst: Instance, d: Desired, ts: seq<Item>, store: Store) {
    forall j :: 0 <= j < |ts| ==> Simple(ts[j]) && !Present(store, WriteKey(inst.name, ts[j]))
  }

  function TokenKey(inst: Instance): Key { WriteKey(inst.name, EnsureProxyToken) }

  lemma BareItem(inst: Instance, d: Desired, t: Item, store: Store, i: Input)
    requires Defaulted(inst, d) && Planned(inst, d, t) && Simple(t) && !Present(store, WriteKey(inst.name, t))
    requires t.ApplyDeployment? ==> Present(store, TokenKey(inst)) && d.proxy.caConfigMap == ""
    ensures ItemPass(inst, d, t, store, i).ok
    ensures t.EnsureProxyToken? ==> Present(ItemPass(inst, d, t, store, i).store, TokenKey(inst))
  {
  }

  /** The admin token is there, or still to come, when the Deployment needs it. */
  ghost predicate TokenInTime(inst: Instance, ts: seq<Item>, store: Store) {
    ApplyDeployment in ts ==> Present(store, TokenKey(inst)) || EnsureProxyToken in ts
  }

  lemma BareRest(inst: Instance, d: Desired, ts: seq<Item>, store: Store, i: Input)
    requires Piece(inst, d, ts) && ts != [] && Bare(inst, d, ts, store)
    ensures Bare(inst, d, ts[1..], ItemPass(inst, d, ts[0], store, i).store)
  {
    forall j | 0 <= j < |ts[1..]|
      ensures Simple(ts[1..][j]) && !Present(ItemPass(inst, d, ts[0], store, i).store, WriteKey(inst.name, ts[1..][j]))
    {
      assert ts[1..][j] == ts[j + 1] && Rank(ts[0]) < Rank(ts[j + 1]);
      if WriteKey(inst.name, ts[0]) == WriteKey(inst.name, ts[j + 1]) { KeyTells(inst.name, ts[0], ts[j + 1]); }
      ItemFrame(inst, d, ts[0], store, i, WriteKey(inst.name, ts[j + 1]));
    }
  }

  lemma DeploymentHasToken(inst: Instance, d: Desired, ts: seq<Item>, store: Store)
    requires Piece(inst, d, ts) && ts != [] && TokenInTime(inst, ts, store) && ts[0] == ApplyDeployment
    ensures Present(store, TokenKey(inst))
  {
    assert forall j :: 0 < j < |ts| ==> Rank(ts[0]) < Rank(ts[j]);
  }

  lemma TokenRest(inst: Instance, d: Desired, ts: seq<Item>, store: Store, i: Input)
    requires Piece(inst, d, ts) && ts != [] && Bare(inst, d, ts, store) && TokenInTime(inst, ts, store)
    requires d.proxy.caConfigMap == ""
    ensures TokenInTime(inst, ts[1..], ItemPass(inst, d, ts[0], store, i).store)
  {
    if ts[0].EnsureProxyToken? {
      BareItem(inst, d, ts[0], store, i);
    } else {
      if WriteKey(inst.name, ts[0]) == TokenKey(inst) { KeyTells(inst.name, ts[0], EnsureProxyToken); }
      ItemFrame(inst, d, ts[0], store, i, TokenKey(inst));
      if EnsureProxyToken in ts { assert EnsureProxyToken in ts[1..]; }
    }
  }

  lemma {:induction false} BarePass(inst: Instance, d: Desired, ts: seq<Item>, store: Store, lo: bool, env: Inputs)
    requires Piece(inst, d, ts) && Bare(inst, d, ts, store) && TokenInTime(inst, ts, store) && d.proxy.caConfigMap == ""
    ensures PassFrom(inst, d, ts, store, lo, env).ok
    decreases |ts|
  {
    if ts != [] {
      var o := ItemPass(inst, d, ts[0], store, env(ts[0]));
      if ts[0].ApplyDeployment? { DeploymentHasToken(inst, d, ts, store); }
      BareItem(inst, d, ts[0], store, env(ts[0]));
      BareRest(inst, d, ts, store, env(ts[0]));
      TokenRest(inst, d, ts, store, env(ts[0]));
      BarePass(inst, d, ts[1..], o.store, lo || o.leftover, env);
    }
  }

  // ---- Such states are reached ----

  /** An external database and nothing optional but, perhaps, Routes. */
  function RaceSpec(routes: bool): ApmeSpec {
    ApmeSpec("", None, None, None, None, [], KeyRef("db", "url"), "", None, None, Some(routes), "", false, "",
             AbbenaySpec(false, KeyRef("", ""), "", None), Some(false), "")
  }

  /** An operator's UI Route at another path than the operator gives it now. */
  function OldRouteStore(inst: Instance): Store {
    map[Key(Route, inst.name + "-ui") := Slot(Some(Obj(Some(inst.uid), false, 0, map[Path := Cluster.Text("/old")], {})), 1)]
  }

  function RouteItem(routes: bool): Item { if routes then WantUIRoute else UnwantUIRoute }

  lemma RacePlan(inst: Instance, d: Desired, routes: bool)
    requires inst.routeAPI && d == IntentOf(inst, RaceSpec(routes))
    ensures var ts := Items(inst, d);
            && 9 < |ts| && ts[9] == RouteItem(routes) && d.proxy.caConfigMap == ""
            && (forall j :: 0 <= j < 9 ==> Simple(ts[j])) && ts[4] == EnsureProxyToken
  {
  }

  lemma OldRouteInherits(inst: Instance)
    ensures Inherited(inst, OldRouteStore(inst))
  {
    assert Suffixes(Route)[0] in Suffixes(Route);
    MkGenerated(inst.name, Route, "-ui");
  }

  lemma FirstNine(inst: Instance, d: Desired, routes: bool, env: Inputs) returns (o: Outcome)
    requires inst.routeAPI && d == IntentOf(inst, RaceSpec(routes)) && Smooth(env)
    ensures Piece(inst, d, Items(inst, d)) && |Items(inst, d)| > 9
    ensures o == PassFrom(inst, d, Items(inst, d)[..9], OldRouteStore(inst), false, env) && o.ok
    ensures At(o.store, Key(Route, inst.name + "-ui")) == At(OldRouteStore(inst), Key(Route, inst.name + "-ui"))
  {
    var plan, store, k := Items(inst, d), OldRouteStore(inst), Key(Route, inst.name + "-ui");
    var ts := plan[..9];
    IntentDefaulted(inst, RaceSpec(routes));
    ItemsPiece(inst, d);
    RacePlan(inst, d, routes);
    assert forall j :: 0 <= j < 9 ==> ts[j] == plan[j];
    assert ts[4] == EnsureProxyToken;
    SimpleElsewhere(inst, d, ts, k);
    BarePass(inst, d, ts, store, false, env);
    PassFrame(inst, d, ts, store, false, env, k);
    o := PassFrom(inst, d, ts, store, false, env);
  }

  lemma SimpleElsewhere(inst: Instance, d: Desired, ts: seq<Item>, k: Key)
    requires k.kind == Route && forall j :: 0 <= j < |ts| ==> Simple(ts[j])
    ensures forall j :: 0 <= j < |ts| ==> k != WriteKey(inst.name, ts[j])
  {
    forall j | 0 <= j < |ts|
      ensures KindOf(ts[j]) != Route
    {
      assert Simple(ts[j]);
    }
  }

  /** Steps that end at work have been at work all along. */
  lemma AtWorkBefore(inst: Instance, s: Sys, xs: seq<Input>)
    requires xs != [] && !Steps(inst, s, xs).run.Idle?
    ensures !Steps(inst, s, xs[..|xs| - 1]).run.Idle?
  {
    var front, x := xs[..|xs| - 1], xs[|xs| - 1];
    assert xs == front + [x];
    StepsAppend(inst, s, front, [x]);
    if Steps(inst, s, front).run.Idle? { IdleStays(inst, Steps(inst, s, front), [x]); }
  }

  /** A run that has done the first `n` items is possible. */
  lemma ItemsReachable(inst: Instance, s0: Sys, s1: Sys, n: nat, env: Inputs, o: Outcome) returns (s: Sys)
    requires Initial(inst, s0) && s1 == BeginStep(inst, s0) && Smooth(env) && n <= |s1.run.plan|
    requires o == PassFrom(inst, s1.run.d, s1.run.plan[..n], s1.store, false, env) && o.ok
    ensures Reachable(inst, s) && s == Past(s1, n, o)
  {
    var xs := ItemsRun(inst, s1, s1.run.plan[..n], env, o);
    s := Past(s1, n, o);
    if xs != [] { AtWorkBefore(inst, s1, xs); }
    BeginThen(inst, s0, xs);
    InitialReachable(inst, s0);
    RunReachable(inst, s0, [Begin] + Operates(xs));
  }

  /** For every instance that may manage Routes: the operator gets to where it deletes its Route, as unwanted and as
      wanted at another path. */
  lemma DeleteReachable(inst: Instance, routes: bool, i: Input) returns (s: Sys)
    requires inst.routeAPI && Plainly(i)
    ensures Reachable(inst, s) && AboutToDelete(inst, s) && (Wants(Current(s)) <==> routes)
  {
    var d := IntentOf(inst, RaceSpec(routes));
    var s0 := Sys(OldRouteStore(inst), RaceSpec(routes), 1, Status.Status([], "", 0, None), Idle, [], []);
    var env: Inputs := (t: Item) => i;
    var o := FirstNine(inst, d, routes, env);
    OldRouteInherits(inst);
    s := ItemsReachable(inst, s0, BeginStep(inst, s0), 9, env, o);
    RacePlan(inst, d, routes);
    AtTheRoute(inst, d, routes, s);
  }

  lemma AtTheRoute(inst: Instance, d: Desired, routes: bool, s: Sys)
    requires inst.routeAPI && d == IntentOf(inst, RaceSpec(routes))
    requires s.run.Working? && s.run.pc < |s.run.plan| && Current(s) == RouteItem(routes) && s.run.seen == []
    requires s.run.d == d
    requires At(s.store, Key(Route, inst.name + "-ui")) == At(OldRouteStore(inst), Key(Route, inst.name + "-ui"))
    ensures AboutToDelete(inst, s) && (Wants(Current(s)) <==> routes)
  {
    IntentDefaulted(inst, RaceSpec(routes));
    ToBeDeleted(inst, d, RouteItem(routes), At(OldRouteStore(inst), Key(Route, inst.name + "-ui")));
  }

  lemma ToBeDeleted(inst: Instance, d: Desired, t: Item, s: Slot)
    requires Defaulted(inst, d) && (t == WantUIRoute || t == UnwantUIRoute)
    requires s.obj.Some? && ControlledBy(s.obj.value, inst.uid) && !s.obj.value.deleting
    requires TextOf(s.obj.value.fields, Path) == "/old"
    ensures WriteKey(inst.name, t) == Key(Route, inst.name + "-ui") && RouteAction(inst, d, t, s).Delete?
  {
  }
}
