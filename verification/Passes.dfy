/** A whole reconcile in which no call fails and no one interferes, as a function; and the run it stands for. */
module Passes {
  import opened ObjectNames
  import opened Resolve
  import opened Cluster
  import opened Manifests
  import opened Status
  import opened StatusLaws
  import opened Plan
  import opened Machine
  import opened Reach

  /** What each item's step gets from its surroundings. */
  type Inputs = Item -> Input

  ghost predicate Smooth(env: Inputs) { forall t :: env(t).fault == NoFault && Drawn(env(t).material) }

  /** What item `t` reads before it acts. */
  ghost function Reads(inst: Instance, d: Desired, t: Item, store: Store): seq<Slot> {
    if Applies(t) then []
    else
      var first := At(store, ReadKey(d, t));
      if t.ApplyDeployment? && first.obj.Some? && d.proxy.caConfigMap != ""
      then [first, At(store, Key(ConfigMap, d.proxy.caConfigMap))] else [first]
  }

  ghost function Act(inst: Instance, d: Desired, t: Item, store: Store, i: Input): Action {
    NextAction(inst, d, t, Reads(inst, d, t, store), i.material)
  }

  datatype Outcome = Outcome(store: Store, ok: bool, leftover: bool)

  /** One item from its first read to its end. */
  ghost function ItemPass(inst: Instance, d: Desired, t: Item, store: Store, i: Input): Outcome {
    var a := Act(inst, d, t, store, i);
    if a.Finish? then Outcome(store, true, a.leftover)
    else if !Writes(a) then Outcome(store, false, false)
    else
      var r := Answer(inst.uid, At(store, a.key), a, i.lingers);
      if r.Done? then Outcome(store[a.key := r.slot], true, false)
      else Outcome(store, Tolerates(t, r.error), false)
  }

  /** ensureAll from item number `pc` on. */
  ghost function PassFrom(inst: Instance, d: Desired, ts: seq<Item>, store: Store, leftover: bool, env: Inputs): Outcome
    decreases |ts|
  {
    if |ts| == 0 then Outcome(store, true, leftover)
    else
      var o := ItemPass(inst, d, ts[0], store, env(ts[0]));
      if !o.ok then Outcome(o.store, false, false)
      else PassFrom(inst, d, ts[1..], o.store, leftover || o.leftover, env)
  }

  ghost function Pass(inst: Instance, spec: ApmeSpec, store: Store, env: Inputs): Outcome {
    var d := IntentOf(inst, spec);
    PassFrom(inst, d, Items(inst, d), store, false, env)
  }

  /** What patchStatus sees of a cluster that stands still. */
  ghost function Look(inst: Instance, d: Desired, store: Store, imagePull: bool): Observed {
    Observe(inst, d, LookUp(store, ReportKeys(inst, d)), imagePull)
  }

  function LookUp(store: Store, keys: seq<Key>): (slots: seq<Slot>)
    ensures |slots| == |keys|
  {
    if |keys| == 0 then [] else LookUp(store, keys[..|keys| - 1]) + [At(store, keys[|keys| - 1])]
  }

  /** What patchStatus reports at the end of ensureAll with outcome `o`. */
  ghost function EndReport(inst: Instance, d: Desired, generation: nat, o: Outcome, last: Input): Report {
    Report(d, generation, o.leftover, Fine, Look(inst, d, o.store, last.imagePull), last.now)
  }

  ghost function Ended(inst: Instance, s: Sys, d: Desired, generation: nat, o: Outcome, last: Input): Sys {
    var r := EndReport(inst, d, generation, o, last);
    s.(store := o.store, status := Apply(s.status, r), run := Idle,
       finished := s.finished + [(generation, o.leftover)], reports := s.reports + [r])
  }

  /** The state after a reconcile that succeeds. */
  ghost function AfterPass(inst: Instance, s: Sys, env: Inputs, last: Input): Sys {
    Ended(inst, s, IntentOf(inst, s.spec), s.generation, Pass(inst, s.spec, s.store, env), last)
  }

  // ---- The run a pass stands for ----

  /** Steps of the operator one after the other. */
  ghost function Steps(inst: Instance, s: Sys, xs: seq<Input>): Sys
    decreases |xs|
  {
    if |xs| == 0 then s else Steps(inst, OperatorStep(inst, s, xs[0]), xs[1..])
  }

  ghost predicate AllSmooth(xs: seq<Input>) { forall j :: 0 <= j < |xs| ==> xs[j].fault == NoFault && Drawn(xs[j].material) }

  lemma {:induction false} StepsAppend(inst: Instance, s: Sys, xs: seq<Input>, ys: seq<Input>)
    ensures Steps(inst, s, xs + ys) == Steps(inst, Steps(inst, s, xs), ys)
    decreases |xs|
  {
    if xs == [] {
      assert xs + ys == ys;
    } else {
      StepsAppend(inst, OperatorStep(inst, s, xs[0]), xs[1..], ys);
      assert (xs + ys)[1..] == xs[1..] + ys;
    }
  }

  /** The steps as moves of the machine. */
  function Operates(xs: seq<Input>): seq<Label> { seq(|xs|, j requires 0 <= j < |xs| => Operate(xs[j])) }

  lemma IdleStays(inst: Instance, s: Sys, xs: seq<Input>)
    requires s.run.Idle?
    ensures Steps(inst, s, xs) == s
    decreases |xs|
  {
    if xs != [] { IdleStays(inst, s, xs[1..]); }
  }

  /** Steps that leave the operator at work until the last one are a possible run. */
  lemma {:induction false} StepsAreRun(inst: Instance, s: Sys, xs: seq<Input>)
    requires AllSmooth(xs) && (xs != [] ==> !Steps(inst, s, xs[..|xs| - 1]).run.Idle?)
    ensures Possible(inst, s, Operates(xs)) && RunTo(inst, s, Operates(xs)) == Steps(inst, s, xs)
    decreases |xs|
  {
    if xs != [] {
      var front, x := xs[..|xs| - 1], xs[|xs| - 1];
      assert xs == front + [x];
      StepsAppend(inst, s, front, [x]);
      StepsOne(inst, Steps(inst, s, front), x);
      if front != [] {
        var ff, f := front[..|front| - 1], front[|front| - 1];
        assert front == ff + [f];
        StepsAppend(inst, s, ff, [f]);
        if Steps(inst, s, ff).run.Idle? { IdleStays(inst, Steps(inst, s, ff), [f]); }
      }
      StepsAreRun(inst, s, front);
      assert Operates(xs)[..|Operates(xs)| - 1] == Operates(front);
    }
  }

  lemma StepsOne(inst: Instance, s: Sys, i: Input)
    ensures Steps(inst, s, [i]) == OperatorStep(inst, s, i)
  {
    assert [i][1..] == [];
  }

  ghost function AtItem(s: Sys, pc: nat, seen: seq<Slot>, leftover: bool): Sys
    requires s.run.Working?
  {
    s.(run := Working(s.run.d, s.run.generation, s.run.plan, pc, seen, leftover))
  }

  /** A read that succeeds. */
  lemma ReadStep(inst: Instance, s: Sys, i: Input)
    requires s.run.Working? && s.run.pc < |s.run.plan| && i.fault == NoFault && CurrentAction(inst, s, i).Get?
    ensures OperatorStep(inst, s, i)
         == AtItem(s, s.run.pc, s.run.seen + [At(s.store, CurrentAction(inst, s, i).key)], s.run.leftover)
  {
  }

  /** The step that ends an item well. */
  lemma ActStep(inst: Instance, s: Sys, t: Item, i: Input)
    requires s.run.Working? && s.run.pc < |s.run.plan| && t == s.run.plan[s.run.pc] && i.fault == NoFault
    requires s.run.seen == Reads(inst, s.run.d, t, s.store) && ItemPass(inst, s.run.d, t, s.store, i).ok
    ensures var o := ItemPass(inst, s.run.d, t, s.store, i);
            OperatorStep(inst, s, i)
            == AtItem(s, s.run.pc + 1, [], s.run.leftover || o.leftover).(store := o.store)
  {
    assert CurrentAction(inst, s, i) == Act(inst, s.run.d, t, s.store, i);
  }

  lemma FirstRead(inst: Instance, d: Desired, t: Item, store: Store, m: Material)
    requires !Applies(t)
    ensures NextAction(inst, d, t, [], m) == Get(ReadKey(d, t)) && |Reads(inst, d, t, store)| > 0
    ensures Reads(inst, d, t, store)[0] == At(store, ReadKey(d, t))
  {
  }

  lemma SecondRead(inst: Instance, d: Desired, t: Item, store: Store, m: Material)
    requires |Reads(inst, d, t, store)| > 1
    ensures NextAction(inst, d, t, [Reads(inst, d, t, store)[0]], m) == Get(Key(ConfigMap, d.proxy.caConfigMap))
    ensures Reads(inst, d, t, store) == [Reads(inst, d, t, store)[0]] + [At(store, Key(ConfigMap, d.proxy.caConfigMap))]
  {
  }

  /** Reading takes the operator to the point where it acts. */
  lemma ReadsRun(inst: Instance, s: Sys, t: Item, i: Input) returns (xs: seq<Input>)
    requires s.run.Working? && s.run.pc < |s.run.plan| && t == s.run.plan[s.run.pc]
    requires s.run.seen == [] && i.fault == NoFault && Drawn(i.material)
    ensures AllSmooth(xs)
    ensures Steps(inst, s, xs) == AtItem(s, s.run.pc, Reads(inst, s.run.d, t, s.store), s.run.leftover)
  {
    if Applies(t) {
      xs := [];
    } else {
      FirstRead(inst, s.run.d, t, s.store, i.material);
      OneReadRun(inst, s, t, i, ReadKey(s.run.d, t));
      assert s.run.seen + [At(s.store, ReadKey(s.run.d, t))] == [At(s.store, ReadKey(s.run.d, t))];
      xs := [i];
      var s1 := AtItem(s, s.run.pc, [At(s.store, ReadKey(s.run.d, t))], s.run.leftover);
      var got := Reads(inst, s.run.d, t, s.store);
      if |got| > 1 {
        SecondRead(inst, s.run.d, t, s.store, i.material);
        OneReadRun(inst, s1, t, i, Key(ConfigMap, s.run.d.proxy.caConfigMap));
        StepsAppend(inst, s, [i], [i]);
        xs := [i] + [i];
      } else {
        assert got == [got[0]];
      }
    }
  }

  lemma OneReadRun(inst: Instance, s: Sys, t: Item, i: Input, k: Key)
    requires s.run.Working? && s.run.pc < |s.run.plan| && t == s.run.plan[s.run.pc]
    requires i.fault == NoFault && NextAction(inst, s.run.d, t, s.run.seen, i.material) == Get(k)
    ensures Steps(inst, s, [i])
         == AtItem(s, s.run.pc, s.run.seen + [At(s.store, k)], s.run.leftover)
  {
    ReadStep(inst, s, i);
    StepsOne(inst, s, i);
  }

  lemma ItemRun(inst: Instance, s: Sys, t: Item, i: Input, o: Outcome) returns (xs: seq<Input>)
    requires s.run.Working? && s.run.pc < |s.run.plan| && t == s.run.plan[s.run.pc]
    requires s.run.seen == [] && i.fault == NoFault && Drawn(i.material)
    requires o == ItemPass(inst, s.run.d, t, s.store, i) && o.ok
    ensures AllSmooth(xs)
    ensures Steps(inst, s, xs) == AtItem(s, s.run.pc + 1, [], s.run.leftover || o.leftover).(store := o.store)
  {
    var ys := ReadsRun(inst, s, t, i);
    var s1 := Steps(inst, s, ys);
    ActStep(inst, s1, t, i);
    StepsAppend(inst, s, ys, [i]);
    StepsOne(inst, s1, i);
    xs := ys + [i];
  }

  /** A pass that succeeds, split after its first item. */
  lemma PassHead(inst: Instance, d: Desired, ts: seq<Item>, store: Store, lo: bool, env: Inputs, o: Outcome)
    returns (first: Outcome)
    requires o == PassFrom(inst, d, ts, store, lo, env) && o.ok && ts != []
    ensures first == ItemPass(inst, d, ts[0], store, env(ts[0])) && first.ok
    ensures o == PassFrom(inst, d, ts[1..], first.store, lo || first.leftover, env)
  {
    first := ItemPass(inst, d, ts[0], store, env(ts[0]));
  }

  /** The items `ts` come next in the plan. */
  ghost predicate Ahead(plan: seq<Item>, pc: nat, ts: seq<Item>) {
    pc + |ts| <= |plan| && forall j :: 0 <= j < |ts| ==> ts[j] == plan[pc + j]
  }

  lemma AheadRest(plan: seq<Item>, pc: nat, ts: seq<Item>)
    requires Ahead(plan, pc, ts) && ts != []
    ensures pc < |plan| && ts[0] == plan[pc] && Ahead(plan, pc + 1, ts[1..])
  {
    assert ts[0] == plan[pc + 0];
    assert forall j :: 0 <= j < |ts[1..]| ==> ts[1..][j] == ts[j + 1] && ts[j + 1] == plan[pc + (j + 1)];
  }

  /** Where the run stands, and what it still has to do for the outcome `o`. */
  ghost predicate Comes(inst: Instance, s: Sys, ts: seq<Item>, env: Inputs, o: Outcome) {
    && s.run.Working? && Ahead(s.run.plan, s.run.pc, ts) && s.run.seen == [] && Smooth(env)
    && o == PassFrom(inst, s.run.d, ts, s.store, s.run.leftover, env) && o.ok
  }

  /** The state when `n` items are over, with the store and leftover of `o`. */
  ghost function Past(s: Sys, n: nat, o: Outcome): Sys
    requires s.run.Working?
  {
    AtItem(s, s.run.pc + n, [], o.leftover).(store := o.store)
  }

  lemma MovesOn(s: Sys, n: nat, first: Outcome, o: Outcome, s1: Sys)
    requires s.run.Working? && n > 0 && s1 == AtItem(s, s.run.pc + 1, [], s.run.leftover || first.leftover).(store := first.store)
    ensures s1.run.Working? && Past(s1, n - 1, o) == Past(s, n, o)
    ensures s1.run == Working(s.run.d, s.run.generation, s.run.plan, s.run.pc + 1, [], s.run.leftover || first.leftover)
    ensures s1.store == first.store
  {
  }

  lemma ComesOn(inst: Instance, s: Sys, ts: seq<Item>, env: Inputs, first: Outcome, o: Outcome, s1: Sys)
    requires s.run.Working? && ts != [] && Ahead(s.run.plan, s.run.pc + 1, ts[1..]) && Smooth(env) && o.ok
    requires s1 == AtItem(s, s.run.pc + 1, [], s.run.leftover || first.leftover).(store := first.store)
    requires o == PassFrom(inst, s.run.d, ts[1..], first.store, s.run.leftover || first.leftover, env)
    ensures Comes(inst, s1, ts[1..], env, o)
  {
  }

  lemma FirstItem(inst: Instance, s: Sys, ts: seq<Item>, env: Inputs, o: Outcome) returns (xs: seq<Input>, first: Outcome)
    requires Comes(inst, s, ts, env, o) && ts != []
    ensures AllSmooth(xs)
    ensures Steps(inst, s, xs) == AtItem(s, s.run.pc + 1, [], s.run.leftover || first.leftover).(store := first.store)
    ensures o == PassFrom(inst, s.run.d, ts[1..], first.store, s.run.leftover || first.leftover, env)
  {
    AheadRest(s.run.plan, s.run.pc, ts);
    first := PassHead(inst, s.run.d, ts, s.store, s.run.leftover, env, o);
    xs := ItemRun(inst, s, ts[0], env(ts[0]), first);
  }

  /** One item of a pass that succeeds, and the pass that is left. */
  lemma NextRun(inst: Instance, s: Sys, ts: seq<Item>, env: Inputs, o: Outcome) returns (xs: seq<Input>, s1: Sys)
    requires Comes(inst, s, ts, env, o) && ts != []
    ensures AllSmooth(xs) && Steps(inst, s, xs) == s1 && Comes(inst, s1, ts[1..], env, o)
    ensures Past(s1, |ts| - 1, o) == Past(s, |ts|, o)
  {
    var first;
    xs, first := FirstItem(inst, s, ts, env, o);
    s1 := AfterFirst(inst, s, ts, env, first, o);
  }

  lemma AfterFirst(inst: Instance, s: Sys, ts: seq<Item>, env: Inputs, first: Outcome, o: Outcome) returns (s1: Sys)
    requires Comes(inst, s, ts, env, o) && ts != []
    requires o == PassFrom(inst, s.run.d, ts[1..], first.store, s.run.leftover || first.leftover, env)
    ensures s1 == AtItem(s, s.run.pc + 1, [], s.run.leftover || first.leftover).(store := first.store)
    ensures Comes(inst, s1, ts[1..], env, o) && Past(s1, |ts| - 1, o) == Past(s, |ts|, o)
  {
    AheadRest(s.run.plan, s.run.pc, ts);
    s1 := AtItem(s, s.run.pc + 1, [], s.run.leftover || first.leftover).(store := first.store);
    MovesOn(s, |ts|, first, o, s1);
    ComesOn(inst, s, ts, env, first, o, s1);
  }

  lemma {:induction false} ItemsRun(inst: Instance, s: Sys, ts: seq<Item>, env: Inputs, o: Outcome) returns (xs: seq<Input>)
    requires Comes(inst, s, ts, env, o)
    ensures AllSmooth(xs) && Steps(inst, s, xs) == Past(s, |ts|, o)
    decreases |ts|
  {
    if ts == [] {
      xs := [];
    } else {
      var ys, s1 := NextRun(inst, s, ts, env, o);
      var zs := ItemsRun(inst, s1, ts[1..], env, o);
      StepsAppend(inst, s, ys, zs);
      xs := ys + zs;
    }
  }

  /** The state of a report that has read `seen`. */
  ghost function Looking(s: Sys, seen: seq<Slot>): Sys
    requires s.run.Reporting?
  {
    s.(run := Reporting(s.run.d, s.run.generation, s.run.leftover, s.run.ending, seen))
  }

  lemma LookStep(inst: Instance, s: Sys, i: Input)
    requires s.run.Reporting? && |s.run.seen| < |ReportKeys(inst, s.run.d)| && i.fault == NoFault
    ensures OperatorStep(inst, s, i)
         == Looking(s, s.run.seen + [At(s.store, ReportKeys(inst, s.run.d)[|s.run.seen|])])
  {
  }

  lemma {:induction false} LooksRun(inst: Instance, s: Sys, keys: seq<Key>, i: Input) returns (xs: seq<Input>)
    requires s.run.Reporting? && |keys| <= |ReportKeys(inst, s.run.d)| && keys == ReportKeys(inst, s.run.d)[..|keys|]
    requires i.fault == NoFault && Drawn(i.material) && s.run.seen == []
    ensures AllSmooth(xs) && Steps(inst, s, xs) == Looking(s, LookUp(s.store, keys))
    decreases |keys|
  {
    if keys == [] {
      xs := [];
    } else {
      var ys := LooksRun(inst, s, keys[..|keys| - 1], i);
      LookStep(inst, Steps(inst, s, ys), i);
      StepsAppend(inst, s, ys, [i]);
      StepsOne(inst, Steps(inst, s, ys), i);
      xs := ys + [i];
    }
  }

  /** patchStatus, when its patch goes through. */
  lemma ReportRun(inst: Instance, s: Sys, i: Input) returns (xs: seq<Input>)
    requires s.run.Reporting? && s.run.seen == [] && i.fault == NoFault && Drawn(i.material)
    ensures AllSmooth(xs)
    ensures var r := Report(s.run.d, s.run.generation, s.run.leftover, s.run.ending,
                            Look(inst, s.run.d, s.store, i.imagePull), i.now);
            Steps(inst, s, xs) == s.(status := Apply(s.status, r), run := Idle, reports := s.reports + [r])
    ensures xs != [] && !Steps(inst, s, xs[..|xs| - 1]).run.Idle?
  {
    var keys := ReportKeys(inst, s.run.d);
    assert keys == keys[..|keys|];
    var ys := LooksRun(inst, s, keys, i);
    StepsAppend(inst, s, ys, [i]);
    StepsOne(inst, Steps(inst, s, ys), i);
    xs := ys + [i];
    assert xs[..|xs| - 1] == ys;
  }

  /** What follows a plan that is done. */
  lemma EndRun(inst: Instance, s: Sys, last: Input) returns (xs: seq<Input>)
    requires s.run.Working? && s.run.pc == |s.run.plan| && last.fault == NoFault && Drawn(last.material)
    ensures AllSmooth(xs)
    ensures Steps(inst, s, xs) == Ended(inst, s, s.run.d, s.run.generation, Outcome(s.store, true, s.run.leftover), last)
    ensures xs != [] && !Steps(inst, s, xs[..|xs| - 1]).run.Idle?
  {
    var s2 := EndWork(s);
    StepsOne(inst, s, last);
    var zs := ReportRun(inst, s2, last);
    StepsAppend(inst, s, [last], zs);
    StepsAppend(inst, s, [last], zs[..|zs| - 1]);
    xs := [last] + zs;
    assert xs[..|xs| - 1] == [last] + zs[..|zs| - 1];
  }

  /** The plan, and then the report. */
  lemma WorkRun(inst: Instance, s: Sys, ts: seq<Item>, env: Inputs, last: Input, o: Outcome) returns (xs: seq<Input>)
    requires Comes(inst, s, ts, env, o) && s.run.pc == 0 && s.run.plan == ts && last.fault == NoFault
    requires Drawn(last.material)
    ensures AllSmooth(xs) && Steps(inst, s, xs) == Ended(inst, s, s.run.d, s.run.generation, o, last)
    ensures xs != [] && !Steps(inst, s, xs[..|xs| - 1]).run.Idle?
  {
    var ys := ItemsRun(inst, s, ts, env, o);
    var s1 := Past(s, |ts|, o);
    var zs := EndRun(inst, s1, last);
    xs := ys + zs;
    StepsAppend(inst, s, ys, zs);
    StepsAppend(inst, s, ys, zs[..|zs| - 1]);
    assert xs[..|xs| - 1] == ys + zs[..|zs| - 1];
  }

  /** A pass that succeeds is a possible run of the machine from Idle to Idle, in which no call fails. */
  lemma PassIsRun(inst: Instance, s: Sys, env: Inputs, last: Input) returns (xs: seq<Input>)
    requires s.run.Idle? && Smooth(env) && last.fault == NoFault && Drawn(last.material)
    requires Pass(inst, s.spec, s.store, env).ok
    ensures AllSmooth(xs) && Possible(inst, s, [Begin] + Operates(xs))
    ensures RunTo(inst, s, [Begin] + Operates(xs)) == AfterPass(inst, s, env, last)
  {
    var s1 := BeginStep(inst, s);
    xs := WorkRun(inst, s1, s1.run.plan, env, last, Pass(inst, s.spec, s.store, env));
    BeginThen(inst, s, xs);
  }

  lemma BeginThen(inst: Instance, s: Sys, xs: seq<Input>)
    requires s.run.Idle? && AllSmooth(xs) && (xs != [] ==> !Steps(inst, BeginStep(inst, s), xs[..|xs| - 1]).run.Idle?)
    ensures Possible(inst, s, [Begin] + Operates(xs))
    ensures RunTo(inst, s, [Begin] + Operates(xs)) == Steps(inst, BeginStep(inst, s), xs)
  {
    StepsAreRun(inst, BeginStep(inst, s), xs);
    RunConcat(inst, s, [Begin], Operates(xs));
    RunOne(inst, s, Begin);
  }
}
