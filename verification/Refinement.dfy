/** What the controller asks of the API server is what the state machine does: the calls of each item, of ensureAll and
    of patchStatus are those of a run. */
module Refinement {
  import opened Lists
  import opened Options
  import opened ObjectNames
  import opened Resolve
  import opened Cluster
  import opened Manifests
  import opened StatusLaws
  import opened Plan
  import opened Machine
  import opened Reach
  import opened Passes
  import opened Exchanges
  import Status

  // ---- The requests of a run ----

  /** What the machine asks when it makes the move `l`. */
  ghost function Asked(inst: Instance, s: Sys, l: Label): seq<Request> {
    if l.Begin? then [ReadResource]
    else if !l.Operate? || s.run.Idle? then []
    else if s.run.Reporting? then Reported(inst, s, l.input)
    else
      var a := CurrentAction(inst, s, l.input);
      if a.Get? || Writes(a) then [Object(a)] else []
  }

  ghost function Reported(inst: Instance, s: Sys, i: Input): seq<Request>
    requires s.run.Reporting?
  {
    var keys := ReportKeys(inst, s.run.d);
    if |s.run.seen| < |keys| then [Object(Get(keys[|s.run.seen|]))]
    else if |s.run.seen| == |keys| then [PatchStatus(Apply(s.status, ReportNow(inst, s, i)))]
    else []
  }

  ghost function ReportNow(inst: Instance, s: Sys, i: Input): Report
    requires s.run.Reporting? && |s.run.seen| == |ReportKeys(inst, s.run.d)|
  {
    Report(s.run.d, s.run.generation, s.run.leftover, s.run.ending, Observe(inst, s.run.d, s.run.seen, i.imagePull), i.now)
  }

  /** What `ask` says of each move of a run. */
  ghost function Gather(ask: (Sys, Label) -> seq<Request>, inst: Instance, s: Sys, ls: seq<Label>): seq<Request>
    decreases |ls|
  {
    if |ls| == 0 then []
    else Gather(ask, inst, s, ls[..|ls| - 1]) + ask(RunTo(inst, s, ls[..|ls| - 1]), ls[|ls| - 1])
  }

  ghost function AllAsked(inst: Instance, s: Sys, ls: seq<Label>): seq<Request> {
    Gather((s: Sys, l: Label) => Asked(inst, s, l), inst, s, ls)
  }

  /** Some run leads from `s` to `s'` and asks exactly `rs`. */
  ghost predicate Plays(inst: Instance, s: Sys, rs: seq<Request>, s': Sys) {
    exists ls :: Possible(inst, s, ls) && RunTo(inst, s, ls) == s' && AllAsked(inst, s, ls) == rs
  }

  lemma GatherOneMore(ask: (Sys, Label) -> seq<Request>, inst: Instance, s: Sys, ls: seq<Label>, l: Label)
    ensures Gather(ask, inst, s, ls + [l]) == Gather(ask, inst, s, ls) + ask(RunTo(inst, s, ls), l)
  {
    assert (ls + [l])[..|ls|] == ls;
  }

  lemma {:induction false} GatherConcat(ask: (Sys, Label) -> seq<Request>, inst: Instance, s: Sys, ls: seq<Label>, ms: seq<Label>)
    ensures Gather(ask, inst, s, ls + ms) == Gather(ask, inst, s, ls) + Gather(ask, inst, RunTo(inst, s, ls), ms)
    decreases |ms|
  {
    if ms == [] {
      assert ls + ms == ls;
    } else {
      var s1, front, m := RunTo(inst, s, ls), ms[..|ms| - 1], ms[|ms| - 1];
      assert ms == front + [m];
      Regroup(ls, front, [m]);
      GatherConcat(ask, inst, s, ls, front);
      RunConcat(inst, s, ls, front);
      GatherOneMore(ask, inst, s, ls + front, m);
      GatherOneMore(ask, inst, s1, front, m);
      Regroup(Gather(ask, inst, s, ls), Gather(ask, inst, s1, front), ask(RunTo(inst, s1, front), m));
    }
  }

  lemma AskedConcat(inst: Instance, s: Sys, ls: seq<Label>, ms: seq<Label>)
    ensures AllAsked(inst, s, ls + ms) == AllAsked(inst, s, ls) + AllAsked(inst, RunTo(inst, s, ls), ms)
  {
    GatherConcat((s: Sys, l: Label) => Asked(inst, s, l), inst, s, ls, ms);
  }

  lemma PlaysThen(inst: Instance, s: Sys, rs: seq<Request>, s1: Sys, rs': seq<Request>, s2: Sys)
    requires Plays(inst, s, rs, s1) && Plays(inst, s1, rs', s2)
    ensures Plays(inst, s, rs + rs', s2)
  {
    var ls :| Possible(inst, s, ls) && RunTo(inst, s, ls) == s1 && AllAsked(inst, s, ls) == rs;
    var ms :| Possible(inst, s1, ms) && RunTo(inst, s1, ms) == s2 && AllAsked(inst, s1, ms) == rs';
    RunConcat(inst, s, ls, ms);
    AskedConcat(inst, s, ls, ms);
    assert Possible(inst, s, ls + ms);
  }

  lemma PlaysThenNothing(inst: Instance, s: Sys, rs: seq<Request>, s1: Sys, s2: Sys)
    requires Plays(inst, s, rs, s1) && Plays(inst, s1, [], s2)
    ensures Plays(inst, s, rs, s2)
  {
    PlaysThen(inst, s, rs, s1, [], s2);
    assert rs + [] == rs;
  }

  lemma PlaysNothing(inst: Instance, s: Sys)
    ensures Plays(inst, s, [], s)
  {
    assert Possible(inst, s, []);
  }

  lemma PlaysOne(inst: Instance, s: Sys, l: Label, rs: seq<Request>, s': Sys)
    requires Enabled(inst, s, l) && Next(inst, s, l) == s' && Asked(inst, s, l) == rs
    ensures Plays(inst, s, rs, s')
  {
    RunOne(inst, s, l);
    assert [l][..0] == [];
    assert AllAsked(inst, s, []) == [] && RunTo(inst, s, []) == s;
    assert AllAsked(inst, s, [l]) == rs;
  }

  /** What a run leads to from a reachable state is reachable. */
  lemma PlaysReachable(inst: Instance, s: Sys, rs: seq<Request>, s': Sys)
    requires Reachable(inst, s) && Plays(inst, s, rs, s')
    ensures Reachable(inst, s')
  {
    var ls :| Possible(inst, s, ls) && RunTo(inst, s, ls) == s' && AllAsked(inst, s, ls) == rs;
    RunReachable(inst, s, ls);
  }

  lemma OthersPlay(inst: Instance, s: Sys, store: Store)
    requires Bystanders(inst, s.store, store)
    ensures Plays(inst, s, [], s.(store := store))
  {
    PlaysOne(inst, s, Others(store), [], s.(store := store));
  }

  // ---- One call, one decision ----

  /** The operator is at item `t` of intent `d` and has read `seen`. */
  ghost predicate AtWork(inst: Instance, s: Sys, d: Desired, t: Item, seen: seq<Slot>) {
    && s.run.Working? && s.run.pc < |s.run.plan| && s.run.plan[s.run.pc] == t && s.run.d == d && s.run.seen == seen
  }

  /** The machine's next action for item `t` is `a`, with the material `m`; below, whatever the material. Both are stated
      about the action itself, not about what it is computed from. */
  ghost predicate Prescribed(inst: Instance, d: Desired, t: Item, seen: seq<Slot>, m: Material, a: Action) {
    forall x {:trigger NextAction(inst, d, t, seen, x)} :: x == m ==> NextAction(inst, d, t, seen, x) == a
  }

  ghost predicate AlwaysPrescribed(inst: Instance, d: Desired, t: Item, seen: seq<Slot>, a: Action) {
    forall x {:trigger NextAction(inst, d, t, seen, x)} :: NextAction(inst, d, t, seen, x) == a
  }

  lemma PrescribedNow(inst: Instance, d: Desired, t: Item, seen: seq<Slot>, m: Material, a: Action)
    requires AlwaysPrescribed(inst, d, t, seen, a)
    ensures Prescribed(inst, d, t, seen, m, a)
  {
  }

  /** What the machine remembers of a call. */
  ghost function Reply(a: Action, store: Store): Slot { if a.Get? then At(store, a.key) else EMPTY }

  ghost function Called(inst: Instance, s: Sys, t: Item, a: Action, c: Exchange): Sys
    requires s.run.Working?
  {
    s.(store := c.after, run := RunAfter(s.run, t, a, ErrorSeen(inst.uid, c.before, a, c.input), Reply(a, c.before)))
  }

  /** A call of the controller that is the machine's next one is a step of the machine, followed by what others do. */
  lemma CallPlays(inst: Instance, s: Sys, d: Desired, t: Item, seen: seq<Slot>, c: Exchange, a: Action)
    requires AtWork(inst, s, d, t, seen) && Happened(inst, c) && c.before == s.store
    requires c.request == Object(a) && Prescribed(inst, d, t, seen, c.input.material, a)
    ensures Plays(inst, s, [c.request], Called(inst, s, t, a, c))
  {
    var s1 := Next(inst, s, Operate(c.input));
    PlaysOne(inst, s, Operate(c.input), [c.request], s1);
    assert s1.store == StoreAfter(inst.uid, c.before, a, c.input);
    OthersPlay(inst, s1, c.after);
    PlaysThenNothing(inst, s, [c.request], s1, s1.(store := c.after));
  }

  lemma DecisionPlays(inst: Instance, s: Sys, d: Desired, t: Item, seen: seq<Slot>, i: Input, a: Action)
    requires AtWork(inst, s, d, t, seen) && Drawn(i.material) && Prescribed(inst, d, t, seen, i.material, a)
    requires a.Finish? || a.Fail?
    ensures Plays(inst, s, [], s.(run := RunAfter(s.run, t, a, None, EMPTY)))
  {
    PlaysOne(inst, s, Operate(i), [], s.(run := RunAfter(s.run, t, a, None, EMPTY)));
  }

  // ---- One item ----

  function Requests(cs: seq<Exchange>): seq<Request> { seq(|cs|, i requires 0 <= i < |cs| => cs[i].request) }

  /** The requests lead from `store` to `store'`. */
  ghost predicate Leads(inst: Instance, store: Store, cs: seq<Exchange>, store': Store) {
    && Linked(inst, cs)
    && (if cs == [] then store' == store else cs[0].before == store && cs[|cs| - 1].after == store')
  }

  /** The item is over: on to the next one, or to fail with the error. */
  function Over(s: Sys, store: Store, leftover: bool, err: Option<Ending>): Sys
    requires s.run.Working?
  {
    s.(store := store,
       run := if err.Some? then Failing(s.run, err.value)
              else Working(s.run.d, s.run.generation, s.run.plan, s.run.pc + 1, [], s.run.leftover || leftover))
  }

  /** After a read, with the item still to be decided. */
  function Looked(s: Sys, store: Store, slot: Slot): Sys
    requires s.run.Working?
  {
    s.(store := store, run := Working(s.run.d, s.run.generation, s.run.plan, s.run.pc, s.run.seen + [slot], s.run.leftover))
  }

  lemma LookPlays(inst: Instance, s: Sys, d: Desired, t: Item, seen: seq<Slot>, c: Exchange, k: Key)
    requires AtWork(inst, s, d, t, seen) && Happened(inst, c) && c.before == s.store && Gets(c, k)
    requires Prescribed(inst, d, t, seen, c.input.material, Get(k)) && c.input.fault == NoFault
    ensures Plays(inst, s, [c.request], Looked(s, c.after, At(c.before, k)))
    ensures AtWork(inst, Looked(s, c.after, At(c.before, k)), d, t, seen + [At(c.before, k)])
  {
    CallPlays(inst, s, d, t, seen, c, Get(k));
  }

  lemma LookFails(inst: Instance, s: Sys, d: Desired, t: Item, seen: seq<Slot>, c: Exchange, k: Key)
    requires AtWork(inst, s, d, t, seen) && Happened(inst, c) && c.before == s.store && Gets(c, k)
    requires Prescribed(inst, d, t, seen, c.input.material, Get(k)) && c.input.fault != NoFault && !t.SeeLeftover?
    ensures Plays(inst, s, [c.request], Over(s, c.after, false, Some(EndingOf(d, t, FaultError(c.input.fault)))))
  {
    CallPlays(inst, s, d, t, seen, c, Get(k));
  }

  /** How a write ends the item. */
  function WriteEnding(uid: Uid, d: Desired, t: Item, c: Exchange): Option<Ending> {
    var e := Failure(uid, c);
    if e.None? || Tolerates(t, e.value) then None else Some(EndingOf(d, t, e.value))
  }

  lemma WritePlays(inst: Instance, s: Sys, d: Desired, t: Item, seen: seq<Slot>, c: Exchange, a: Action)
    requires AtWork(inst, s, d, t, seen) && Happened(inst, c) && c.before == s.store && c.request == Object(a)
    requires Prescribed(inst, d, t, seen, c.input.material, a) && Writes(a)
    ensures Plays(inst, s, [c.request], Over(s, c.after, false, WriteEnding(inst.uid, d, t, c)))
  {
    CallPlays(inst, s, d, t, seen, c, a);
    CalledIsOver(inst, s, d, t, c, a);
  }

  lemma CalledIsOver(inst: Instance, s: Sys, d: Desired, t: Item, c: Exchange, a: Action)
    requires s.run.Working? && s.run.d == d && c.request == Object(a) && Writes(a)
    ensures Called(inst, s, t, a, c) == Over(s, c.after, false, WriteEnding(inst.uid, d, t, c))
  {
  }

  /** A look, and a decision on what was found. */
  lemma LookDecides(inst: Instance, s: Sys, d: Desired, t: Item, seen: seq<Slot>, c: Exchange, k: Key, a: Action)
    requires AtWork(inst, s, d, t, seen) && Happened(inst, c) && c.before == s.store && Gets(c, k)
    requires Prescribed(inst, d, t, seen, c.input.material, Get(k)) && c.input.fault == NoFault
    requires Prescribed(inst, d, t, seen + [At(c.before, k)], c.input.material, a) && (a.Finish? || a.Fail?)
    ensures Plays(inst, s, [c.request], Over(s, c.after, a.Finish? && a.leftover, if a.Finish? then None else Some(a.ending)))
  {
    var s1 := Looked(s, c.after, At(c.before, k));
    LookPlays(inst, s, d, t, seen, c, k);
    DecisionPlays(inst, s1, d, t, seen + [At(c.before, k)], c.input, a);
    DecisionIsOver(s, c.after, At(c.before, k), t, a);
    PlaysThenNothing(inst, s, [c.request], s1, s1.(run := RunAfter(s1.run, t, a, None, EMPTY)));
  }

  lemma DecisionIsOver(s: Sys, store: Store, slot: Slot, t: Item, a: Action)
    requires s.run.Working? && (a.Finish? || a.Fail?)
    ensures var s1 := Looked(s, store, slot);
            s1.(run := RunAfter(s1.run, t, a, None, EMPTY))
            == Over(s, store, a.Finish? && a.leftover, if a.Finish? then None else Some(a.ending))
  {
  }

  lemma OverLooked(s: Sys, store: Store, slot: Slot, store': Store, leftover: bool, err: Option<Ending>)
    requires s.run.Working?
    ensures Over(Looked(s, store, slot), store', leftover, err) == Over(s, store', leftover, err)
  {
  }

  /** A look, and a write. */
  lemma LookWrites(inst: Instance, s: Sys, d: Desired, t: Item, c: Exchange, k: Key, c': Exchange, a: Action, slot: Slot)
    requires AtWork(inst, s, d, t, []) && Happened(inst, c) && c.before == s.store && Gets(c, k)
    requires Prescribed(inst, d, t, [], c.input.material, Get(k)) && c.input.fault == NoFault
    requires Happened(inst, c') && c'.before == c.after && c'.request == Object(a) && Writes(a)
    requires slot == At(c.before, k) && Prescribed(inst, d, t, [slot], c'.input.material, a)
    ensures Plays(inst, s, [c.request, c'.request], Over(s, c'.after, false, WriteEnding(inst.uid, d, t, c')))
  {
    var s1, err := Looked(s, c.after, slot), WriteEnding(inst.uid, d, t, c');
    LookPlays(inst, s, d, t, [], c, k);
    assert [] + [slot] == [slot];
    WritePlays(inst, s1, d, t, [slot], c', a);
    OverLooked(s, c.after, slot, c'.after, false, err);
    TwoPlay(inst, s, c, s1, c', Over(s, c'.after, false, err));
  }

  lemma TwoPlay(inst: Instance, s: Sys, c: Exchange, s1: Sys, c': Exchange, s2: Sys)
    requires Plays(inst, s, [c.request], s1) && Plays(inst, s1, [c'.request], s2)
    ensures Plays(inst, s, [c.request, c'.request], s2)
  {
    PlaysThen(inst, s, [c.request], s1, [c'.request], s2);
    assert [c.request] + [c'.request] == [c.request, c'.request];
  }

  lemma RequestsOne(cs: seq<Exchange>)
    requires |cs| == 1
    ensures cs == [cs[0]] && Requests(cs) == [cs[0].request]
  {
  }

  lemma RequestsTwo(inst: Instance, cs: seq<Exchange>)
    requires |cs| == 2 && Linked(inst, cs)
    ensures Requests(cs) == [cs[0].request, cs[1].request]
    ensures Happened(inst, cs[0]) && Happened(inst, cs[1]) && cs[0].after == cs[1].before
  {
    assert Joined(cs, 1);
  }

  // ---- Items that apply ----

  lemma ApplyNext(inst: Instance, d: Desired, t: Item, m: Material)
    requires Applies(t)
    ensures Prescribed(inst, d, t, [], m, Patch(WriteKey(d.name, t), AppliedPayload(d, t)))
    ensures !Wants(t) && !Unwants(t)
  {
  }

  lemma ApplyPlays(inst: Instance, s: Sys, d: Desired, t: Item, cs: seq<Exchange>, err: Option<Ending>, store: Store)
    requires AtWork(inst, s, d, t, []) && Applies(t) && Leads(inst, s.store, cs, store)
    requires ApplyCall(inst.uid, WriteKey(d.name, t), AppliedPayload(d, t), cs, err)
    ensures Plays(inst, s, Requests(cs), Over(s, store, false, err))
  {
    var a := Patch(WriteKey(d.name, t), AppliedPayload(d, t));
    RequestsOne(cs);
    ApplyNext(inst, d, t, cs[0].input.material);
    WritePlays(inst, s, d, t, [], cs[0], a);
  }

  // ---- Items that look first ----

  predicate Seeks(t: Item) { !Applies(t) && !t.ApplyDeployment? && !t.SeeLeftover? }

  /** After the look, the item has decided on `a`: to end with `err`, or to make the call `cs[1]`. */
  ghost predicate Decided(inst: Instance, d: Desired, t: Item, cs: seq<Exchange>, a: Action, err: Option<Ending>)
    requires 1 <= |cs| <= 2
  {
    if |cs| == 1 then (a == Finish(false) && err == None) || (a.Fail? && err == Some(a.ending))
    else Writes(a) && cs[1].request == Object(a) && err == WriteEnding(inst.uid, d, t, cs[1])
  }

  /** The calls are those the machine makes for the item: a look at `k`, and what it decides on then. */
  ghost predicate Matches(inst: Instance, d: Desired, t: Item, k: Key, cs: seq<Exchange>, a: Action, err: Option<Ending>) {
    && 1 <= |cs| <= 2 && Gets(cs[0], k) && AlwaysPrescribed(inst, d, t, [], Get(k)) && !t.SeeLeftover?
    && (if cs[0].input.fault != NoFault then |cs| == 1 && err == Some(EndingOf(d, t, FaultError(cs[0].input.fault)))
        else Decided(inst, d, t, cs, a, err) && Prescribed(inst, d, t, [At(cs[0].before, k)], cs[|cs| - 1].input.material, a))
  }

  lemma SeekOnePlays(inst: Instance, s: Sys, d: Desired, t: Item, c: Exchange, k: Key, slot: Slot, a: Action, err: Option<Ending>)
    requires AtWork(inst, s, d, t, []) && Gets(c, k)
    requires Happened(inst, c) && c.before == s.store && slot == At(c.before, k)
    requires c.input.fault == NoFault && AlwaysPrescribed(inst, d, t, [], Get(k))
    requires Prescribed(inst, d, t, [slot], c.input.material, a)
    requires (a == Finish(false) && err == None) || (a.Fail? && err == Some(a.ending))
    ensures Plays(inst, s, [c.request], Over(s, c.after, false, err))
  {
    PrescribedNow(inst, d, t, [], c.input.material, Get(k));
    assert [] + [slot] == [slot];
    LookDecides(inst, s, d, t, [], c, k, a);
  }

  lemma SeekTwoPlay(inst: Instance, s: Sys, d: Desired, t: Item, c: Exchange, k: Key, slot: Slot, c': Exchange, a: Action)
    requires AtWork(inst, s, d, t, []) && Gets(c, k)
    requires Happened(inst, c) && c.before == s.store && slot == At(c.before, k)
    requires c.input.fault == NoFault && AlwaysPrescribed(inst, d, t, [], Get(k))
    requires Prescribed(inst, d, t, [slot], c'.input.material, a)
    requires Writes(a) && Happened(inst, c') && c'.before == c.after && c'.request == Object(a)
    ensures Plays(inst, s, [c.request, c'.request], Over(s, c'.after, false, WriteEnding(inst.uid, d, t, c')))
  {
    PrescribedNow(inst, d, t, [], c.input.material, Get(k));
    LookWrites(inst, s, d, t, c, k, c', a, slot);
  }

  lemma SeekFails(inst: Instance, s: Sys, d: Desired, t: Item, c: Exchange, k: Key)
    requires AtWork(inst, s, d, t, []) && Gets(c, k) && Happened(inst, c) && c.before == s.store && !t.SeeLeftover?
    requires c.input.fault != NoFault && AlwaysPrescribed(inst, d, t, [], Get(k))
    ensures Plays(inst, s, [c.request], Over(s, c.after, false, Some(EndingOf(d, t, FaultError(c.input.fault)))))
  {
    PrescribedNow(inst, d, t, [], c.input.material, Get(k));
    LookFails(inst, s, d, t, [], c, k);
  }

  lemma SeekPlays(inst: Instance, s: Sys, d: Desired, t: Item, k: Key, cs: seq<Exchange>, a: Action, err: Option<Ending>, store: Store)
    requires AtWork(inst, s, d, t, []) && Leads(inst, s.store, cs, store) && Matches(inst, d, t, k, cs, a, err)
    ensures Plays(inst, s, Requests(cs), Over(s, store, false, err))
  {
    var c := cs[0];
    if |cs| == 2 {
      RequestsTwo(inst, cs);
      SeekTwoPlay(inst, s, d, t, c, k, At(c.before, k), cs[1], a);
    } else if c.input.fault != NoFault {
      RequestsOne(cs);
      SeekFails(inst, s, d, t, c, k);
    } else {
      RequestsOne(cs);
      SeekOnePlays(inst, s, d, t, c, k, At(c.before, k), a, err);
    }
  }

  /** The machine's look, and its action on what it has seen. */
  lemma SeekNext(inst: Instance, d: Desired, t: Item, slot: Slot, m: Material)
    requires Seeks(t)
    ensures AlwaysPrescribed(inst, d, t, [], Get(ReadKey(d, t)))
    ensures Prescribed(inst, d, t, [slot], m, EnsureAction(inst, d, t, slot, m))
  {
  }

  lemma TLSMatches(inst: Instance, d: Desired, k: Key, cs: seq<Exchange>, err: Option<Ending>) returns (a: Action)
    requires k == Key(Secret, d.database.tlsSecretName) && TLSCalls(inst.uid, d, cs, err)
    ensures Matches(inst, d, EnsureTLS, k, cs, a, err)
  {
    var slot, m := At(cs[0].before, k), cs[|cs| - 1].input.material;
    SeekNext(inst, d, EnsureTLS, slot, m);
    a := TLSAction(d, slot, m);
  }

  lemma UrlMatches(inst: Instance, d: Desired, sec: Slot, cs: seq<Exchange>, m: Material, err: Option<Ending>)
    requires sec.obj.Some? && 1 <= |cs| <= 2
    requires UpdateCalls(inst.uid, Key(Secret, d.database.secretName), sec, inst.verifyFull(TextOf(sec.obj.value.fields, URL)),
                         cs[1..], err)
    ensures Decided(inst, d, EnsureDatabaseSecret, cs, DatabaseSecretAction(inst, d, sec, m), err)
  {
    assert |cs| == 2 ==> cs[1..][0] == cs[1];
  }

  lemma DatabaseSecretNext(inst: Instance, d: Desired, slot: Slot, m: Material)
    ensures AlwaysPrescribed(inst, d, EnsureDatabaseSecret, [], Get(Key(Secret, d.database.secretName)))
    ensures Prescribed(inst, d, EnsureDatabaseSecret, [slot], m, DatabaseSecretAction(inst, d, slot, m))
  {
    SeekNext(inst, d, EnsureDatabaseSecret, slot, m);
  }

  lemma DatabaseSecretMatches(inst: Instance, d: Desired, k: Key, cs: seq<Exchange>, err: Option<Ending>)
    returns (a: Action)
    requires k == Key(Secret, d.database.secretName) && DatabaseSecretCalls(inst, d, cs, err) && RewritesUrls(inst)
    ensures Matches(inst, d, EnsureDatabaseSecret, k, cs, a, err)
  {
    var slot, m := At(cs[0].before, k), cs[|cs| - 1].input.material;
    DatabaseSecretNext(inst, d, slot, m);
    a := DatabaseSecretAction(inst, d, slot, m);
    if Found(cs[0], k) {
      UrlCallsFew(inst, k, slot, cs, err);
      UrlMatches(inst, d, slot, cs, m, err);
    }
  }

  lemma UrlCallsFew(inst: Instance, k: Key, sec: Slot, cs: seq<Exchange>, err: Option<Ending>)
    requires sec.obj.Some? && cs != [] && UrlCalls(inst, k, sec, cs[1..], err)
    ensures |cs| <= 2
  {
  }

  lemma AbbenayTokenMatches(inst: Instance, d: Desired, k: Key, cs: seq<Exchange>, err: Option<Ending>)
    returns (a: Action)
    requires k == Key(Secret, d.abbenay.tokenName) && AbbenayTokenCalls(inst.uid, d, cs, err)
    ensures Matches(inst, d, EnsureAbbenayToken, k, cs, a, err)
  {
    var slot, m := At(cs[0].before, k), cs[|cs| - 1].input.material;
    SeekNext(inst, d, EnsureAbbenayToken, slot, m);
    a := EnsureAction(inst, d, EnsureAbbenayToken, slot, m);
  }

  lemma ProxyTokenMatches(inst: Instance, d: Desired, k: Key, cs: seq<Exchange>, err: Option<Ending>) returns (a: Action)
    requires k == Key(Secret, d.proxy.tokenName) && ProxyTokenCalls(inst.uid, d, cs, err)
    ensures Matches(inst, d, EnsureProxyToken, k, cs, a, err)
  {
    var slot, m := At(cs[0].before, k), cs[|cs| - 1].input.material;
    SeekNext(inst, d, EnsureProxyToken, slot, m);
    a := ProxyTokenAction(inst, d, slot, m);
  }

  /** The controller tells Route errors as the machine classifies them. */
  lemma ToldAsClassified(d: Desired, t: Item, e: Option<ApiError>, err: Option<Ending>)
    requires Wants(t) && Told(d, e, err)
    ensures err == if e.None? then None else Some(EndingOf(d, t, e.value))
  {
    if err.Some? {
      match err.value
      case Fine =>
      case RoutePermission =>
      case OtherError =>
    }
  }

  /** What the machine does about a Route does not depend on the material. */
  lemma RouteNext(inst: Instance, d: Desired, t: Item, k: Key, slot: Slot, m: Material)
    requires (Wants(t) || Unwants(t)) && k == WriteKey(d.name, t)
    ensures AlwaysPrescribed(inst, d, t, [], Get(k)) && Prescribed(inst, d, t, [slot], m, RouteAction(inst, d, t, slot))
  {
  }

  lemma WantedRouteMatches(inst: Instance, d: Desired, t: Item, k: Key, cs: seq<Exchange>, err: Option<Ending>)
    returns (a: Action)
    requires Wants(t) && k == WriteKey(d.name, t) && WantedRouteCalls(inst.uid, k, WantedPayload(d, t), cs)
    requires Told(d, RouteError(inst.uid, cs), err)
    ensures Matches(inst, d, t, k, cs, a, err)
  {
    var slot := At(cs[0].before, k);
    ToldAsClassified(d, t, RouteError(inst.uid, cs), err);
    RouteNext(inst, d, t, k, slot, cs[|cs| - 1].input.material);
    a := RouteAction(inst, d, t, slot);
  }

  lemma UnwantedRouteMatches(inst: Instance, d: Desired, t: Item, k: Key, cs: seq<Exchange>, err: Option<Ending>)
    returns (a: Action)
    requires Unwants(t) && k == WriteKey(d.name, t) && UnwantedRouteCalls(inst.uid, k, cs, err)
    ensures Matches(inst, d, t, k, cs, a, err)
  {
    var slot := At(cs[0].before, k);
    RouteNext(inst, d, t, k, slot, cs[|cs| - 1].input.material);
    a := RouteAction(inst, d, t, slot);
  }

  // ---- The look for a leftover ----

  lemma LeftoverNext(inst: Instance, d: Desired, t: Item, slot: Slot, m: Material)
    requires t == SeeLeftover
    ensures Prescribed(inst, d, t, [], m, Get(Key(StatefulSet, d.name + "-postgres")))
    ensures Prescribed(inst, d, t, [slot], m, Finish(slot.obj.Some?))
  {
  }

  lemma LeftoverLooked(inst: Instance, s: Sys, d: Desired, t: Item, c: Exchange, k: Key, slot: Slot)
    requires t == SeeLeftover && AtWork(inst, s, d, t, []) && Happened(inst, c) && c.before == s.store
    requires k == Key(StatefulSet, d.name + "-postgres") && Gets(c, k)
    requires slot == if c.input.fault == NoFault then At(c.before, k) else EMPTY
    ensures Plays(inst, s, [c.request], Looked(s, c.after, slot))
  {
    LeftoverNext(inst, d, t, slot, c.input.material);
    CallPlays(inst, s, d, t, [], c, Get(k));
  }

  lemma LeftoverDecided(inst: Instance, s: Sys, d: Desired, t: Item, slot: Slot, i: Input, leftover: bool)
    requires t == SeeLeftover && AtWork(inst, s, d, t, [slot]) && Drawn(i.material) && leftover == slot.obj.Some?
    ensures Plays(inst, s, [], Over(s, s.store, leftover, None))
  {
    LeftoverNext(inst, d, t, slot, i.material);
    DecisionPlays(inst, s, d, t, [slot], i, Finish(leftover));
    FinishIsOver(s, t, leftover);
  }

  lemma FinishIsOver(s: Sys, t: Item, leftover: bool)
    requires s.run.Working?
    ensures s.(run := RunAfter(s.run, t, Finish(leftover), None, EMPTY)) == Over(s, s.store, leftover, None)
  {
  }

  lemma LeftoverPlays(inst: Instance, s: Sys, d: Desired, t: Item, cs: seq<Exchange>, leftover: bool, store: Store)
    requires t == SeeLeftover && AtWork(inst, s, d, t, [])
    requires Leads(inst, s.store, cs, store) && LeftoverCalls(d, cs, leftover)
    ensures Plays(inst, s, Requests(cs), Over(s, store, leftover, None))
  {
    var c, k := cs[0], Key(StatefulSet, d.name + "-postgres");
    var slot := if c.input.fault == NoFault then At(c.before, k) else EMPTY;
    var s1 := Looked(s, store, slot);
    RequestsOne(cs);
    LeftoverLooked(inst, s, d, t, c, k, slot);
    assert s1.run.seen == [slot];
    LeftoverDecided(inst, s1, d, t, slot, c.input, leftover);
    OverLooked(s, store, slot, store, leftover, None);
    PlaysThenNothing(inst, s, [c.request], s1, Over(s, store, leftover, None));
  }

  // ---- The Deployment ----

  /** The state once the inputs have been read. */
  function AllRead(s: Sys, store: Store, seen: seq<Slot>): Sys
    requires s.run.Working?
  {
    s.(store := store, run := Working(s.run.d, s.run.generation, s.run.plan, s.run.pc, seen, s.run.leftover))
  }

  /** One look for the Deployment: it is the next thing to read, and read it is, or the item fails. */
  lemma InputPlays(inst: Instance, s: Sys, d: Desired, t: Item, seen: seq<Slot>, c: Exchange, k: Key)
    requires t == ApplyDeployment && AtWork(inst, s, d, t, seen) && Happened(inst, c) && c.before == s.store && Gets(c, k)
    requires AlwaysPrescribed(inst, d, t, seen, Get(k))
    ensures c.input.fault == NoFault ==> Plays(inst, s, [c.request], AllRead(s, c.after, seen + [At(c.before, k)]))
    ensures c.input.fault != NoFault ==> Plays(inst, s, [c.request], Over(s, c.after, false, Some(Status.OtherError)))
  {
    PrescribedNow(inst, d, t, seen, c.input.material, Get(k));
    if c.input.fault == NoFault { LookPlays(inst, s, d, t, seen, c, k); } else { LookFails(inst, s, d, t, seen, c, k); }
  }

  /** What was read cannot be used. */
  lemma InputUnfit(inst: Instance, s: Sys, d: Desired, t: Item, seen: seq<Slot>, i: Input)
    requires t == ApplyDeployment && AtWork(inst, s, d, t, seen) && Drawn(i.material)
    requires AlwaysPrescribed(inst, d, t, seen, Fail(Status.OtherError))
    ensures Plays(inst, s, [], Over(s, s.store, false, Some(Status.OtherError)))
  {
    PrescribedNow(inst, d, t, seen, i.material, Fail(Status.OtherError));
    DecisionPlays(inst, s, d, t, seen, i, Fail(Status.OtherError));
  }

  /** With the inputs in hand the Deployment is applied. */
  lemma DeploymentApplied(inst: Instance, s: Sys, d: Desired, t: Item, seen: seq<Slot>, c: Exchange, a: Action)
    requires t == ApplyDeployment && AtWork(inst, s, d, t, seen) && Happened(inst, c) && c.before == s.store
    requires c.request == Object(a) && a.Patch? && AlwaysPrescribed(inst, d, t, seen, a)
    ensures Plays(inst, s, [c.request], Over(s, c.after, false, Problem(inst.uid, c)))
  {
    PrescribedNow(inst, d, t, seen, c.input.material, a);
    WritePlays(inst, s, d, t, seen, c, a);
  }

  lemma OverRead(s: Sys, store: Store, seen: seq<Slot>, store': Store, err: Option<Ending>)
    requires s.run.Working?
    ensures Over(AllRead(s, store, seen), store', false, err) == Over(s, store', false, err)
  {
  }

  /** A look that fails, or whose object cannot be used, ends the item. */
  lemma InputOver(inst: Instance, s: Sys, d: Desired, t: Item, seen: seq<Slot>, c: Exchange, k: Key)
    requires t == ApplyDeployment && AtWork(inst, s, d, t, seen) && Happened(inst, c) && c.before == s.store && Gets(c, k)
    requires AlwaysPrescribed(inst, d, t, seen, Get(k))
    requires c.input.fault != NoFault || AlwaysPrescribed(inst, d, t, seen + [At(c.before, k)], Fail(Status.OtherError))
    ensures Plays(inst, s, [c.request], Over(s, c.after, false, Some(Status.OtherError)))
  {
    InputPlays(inst, s, d, t, seen, c, k);
    if c.input.fault == NoFault {
      var now := seen + [At(c.before, k)];
      InputUnfit(inst, AllRead(s, c.after, now), d, t, now, c.input);
      OverRead(s, c.after, now, c.after, Some(Status.OtherError));
      PlaysThenNothing(inst, s, [c.request], AllRead(s, c.after, now), Over(s, c.after, false, Some(Status.OtherError)));
    }
  }

  /** The machine's next call is the apply with these inputs. */
  ghost predicate ReadyToApply(inst: Instance, d: Desired, seen: seq<Slot>, token: string, ca: string) {
    forall x {:trigger NextAction(inst, d, ApplyDeployment, seen, x)} ::
      NextAction(inst, d, ApplyDeployment, seen, x)
      == Patch(WriteKey(d.name, ApplyDeployment), WorkloadPayload(d, ChecksumOf(d, token, ca)))
  }

  /** What the machine does with the token it has read. */
  lemma TokenNext(inst: Instance, d: Desired, slot: Slot, seen: seq<Slot>)
    requires seen == [slot]
    ensures AlwaysPrescribed(inst, d, ApplyDeployment, [], Get(Key(Secret, d.proxy.tokenName)))
    ensures slot.obj.None? ==> AlwaysPrescribed(inst, d, ApplyDeployment, seen, Fail(Status.OtherError))
    ensures slot.obj.Some? && d.proxy.caConfigMap != "" ==> AlwaysPrescribed(inst, d, ApplyDeployment, seen, Get(Key(ConfigMap, d.proxy.caConfigMap)))
  {
  }

  /** The machine decides on the Deployment by what it has seen. */
  lemma DeploymentNext(inst: Instance, d: Desired, seen: seq<Slot>, a: Action)
    requires DeploymentAction(inst, d, seen) == a
    ensures AlwaysPrescribed(inst, d, ApplyDeployment, seen, a)
  {
  }

  lemma TokenDecides(inst: Instance, d: Desired, seen: seq<Slot>)
    requires |seen| == 1 && seen[0].obj.Some? && d.proxy.caConfigMap == ""
    ensures DeploymentAction(inst, d, seen)
         == Patch(WriteKey(d.name, ApplyDeployment),
                  WorkloadPayload(d, ChecksumOf(d, TextOf(seen[0].obj.value.fields, Data(d.proxy.tokenKey)), "")))
  {
  }

  lemma TokenEnough(inst: Instance, d: Desired, seen: seq<Slot>)
    requires |seen| == 1 && seen[0].obj.Some? && d.proxy.caConfigMap == ""
    ensures ReadyToApply(inst, d, seen, TextOf(seen[0].obj.value.fields, Data(d.proxy.tokenKey)), "")
  {
    var token := TextOf(seen[0].obj.value.fields, Data(d.proxy.tokenKey));
    TokenDecides(inst, d, seen);
    DeploymentNext(inst, d, seen, DeploymentAction(inst, d, seen));
    PrescribedIsReady(inst, d, seen, token, "", DeploymentAction(inst, d, seen));
  }

  lemma PrescribedIsReady(inst: Instance, d: Desired, seen: seq<Slot>, token: string, ca: string, a: Action)
    requires AlwaysPrescribed(inst, d, ApplyDeployment, seen, a)
    requires a == Patch(WriteKey(d.name, ApplyDeployment), WorkloadPayload(d, ChecksumOf(d, token, ca)))
    ensures ReadyToApply(inst, d, seen, token, ca)
  {
  }

  /** And with the CA bundle. */
  lemma BundleUnfit(inst: Instance, d: Desired, slot: Slot, bundle: Slot, seen: seq<Slot>)
    requires seen == [slot, bundle] && slot.obj.Some? && d.proxy.caConfigMap != ""
    requires bundle.obj.Some? ==> !inst.usableCA(TextOf(bundle.obj.value.fields, Data(d.proxy.caKey)))
    ensures AlwaysPrescribed(inst, d, ApplyDeployment, seen, Fail(Status.OtherError))
  {
  }

  lemma BundleDecides(inst: Instance, d: Desired, seen: seq<Slot>)
    requires |seen| == 2 && seen[0].obj.Some? && seen[1].obj.Some? && d.proxy.caConfigMap != ""
    requires inst.usableCA(TextOf(seen[1].obj.value.fields, Data(d.proxy.caKey)))
    ensures DeploymentAction(inst, d, seen)
         == Patch(WriteKey(d.name, ApplyDeployment),
                  WorkloadPayload(d, ChecksumOf(d, TextOf(seen[0].obj.value.fields, Data(d.proxy.tokenKey)),
                                                TextOf(seen[1].obj.value.fields, Data(d.proxy.caKey)))))
  {
  }

  lemma BundleFit(inst: Instance, d: Desired, seen: seq<Slot>)
    requires |seen| == 2 && seen[0].obj.Some? && seen[1].obj.Some? && d.proxy.caConfigMap != ""
    requires inst.usableCA(TextOf(seen[1].obj.value.fields, Data(d.proxy.caKey)))
    ensures ReadyToApply(inst, d, seen, TextOf(seen[0].obj.value.fields, Data(d.proxy.tokenKey)),
                         TextOf(seen[1].obj.value.fields, Data(d.proxy.caKey)))
  {
    var a := DeploymentAction(inst, d, seen);
    BundleDecides(inst, d, seen);
    DeploymentNext(inst, d, seen, a);
    PrescribedIsReady(inst, d, seen, TextOf(seen[0].obj.value.fields, Data(d.proxy.tokenKey)),
                      TextOf(seen[1].obj.value.fields, Data(d.proxy.caKey)), a);
  }

  /** The look for the token, when the item goes on. */
  lemma TokenPlays(inst: Instance, s: Sys, d: Desired, t: Item, c: Exchange, k: Key, slot: Slot)
    requires t == ApplyDeployment && AtWork(inst, s, d, t, []) && Happened(inst, c) && c.before == s.store
    requires k == Key(Secret, d.proxy.tokenName) && Gets(c, k) && Found(c, k) && slot == At(c.before, k)
    ensures Plays(inst, s, [c.request], AllRead(s, c.after, [slot]))
  {
    TokenNext(inst, d, slot, [slot]);
    assert [] + [slot] == [slot];
    InputPlays(inst, s, d, t, [], c, k);
  }

  /** Without the token the item is over. */
  lemma TokenOver(inst: Instance, s: Sys, d: Desired, t: Item, c: Exchange, k: Key)
    requires t == ApplyDeployment && AtWork(inst, s, d, t, []) && Happened(inst, c) && c.before == s.store
    requires k == Key(Secret, d.proxy.tokenName) && Gets(c, k) && !Found(c, k)
    ensures Plays(inst, s, [c.request], Over(s, c.after, false, Some(Status.OtherError)))
  {
    var slot := At(c.before, k);
    TokenNext(inst, d, slot, [slot]);
    assert [] + [slot] == [slot];
    InputOver(inst, s, d, t, [], c, k);
  }

  /** A bundle that can be used. */
  predicate Usable(inst: Instance, d: Desired, c: Exchange, k: Key) {
    Found(c, k) && inst.usableCA(TextOf(Read(c, k).fields, Data(d.proxy.caKey)))
  }

  /** The look for the bundle, after the token. */
  lemma BundlePlays(inst: Instance, s: Sys, d: Desired, t: Item, slot: Slot, c: Exchange, k: Key)
    requires t == ApplyDeployment && AtWork(inst, s, d, t, [slot]) && Happened(inst, c) && c.before == s.store
    requires slot.obj.Some? && d.proxy.caConfigMap != "" && k == Key(ConfigMap, d.proxy.caConfigMap) && Gets(c, k)
    ensures Usable(inst, d, c, k) ==> Plays(inst, s, [c.request], AllRead(s, c.after, [slot, At(c.before, k)]))
    ensures !Usable(inst, d, c, k) ==> Plays(inst, s, [c.request], Over(s, c.after, false, Some(Status.OtherError)))
  {
    var bundle := At(c.before, k);
    TokenNext(inst, d, slot, [slot]);
    assert [slot] + [bundle] == [slot, bundle];
    if Usable(inst, d, c, k) {
      InputPlays(inst, s, d, t, [slot], c, k);
    } else {
      if c.input.fault == NoFault { BundleUnfit(inst, d, slot, bundle, [slot, bundle]); }
      InputOver(inst, s, d, t, [slot], c, k);
    }
  }

  /** Both looks, and how they leave the item. */
  lemma BothPlay(inst: Instance, s: Sys, d: Desired, t: Item, b: Exchange, j: Key, c: Exchange, k: Key)
    requires t == ApplyDeployment && AtWork(inst, s, d, t, []) && Happened(inst, b) && b.before == s.store
    requires Happened(inst, c) && c.before == b.after && d.proxy.caConfigMap != ""
    requires j == Key(Secret, d.proxy.tokenName) && Gets(b, j) && Found(b, j)
    requires k == Key(ConfigMap, d.proxy.caConfigMap) && Gets(c, k)
    ensures Usable(inst, d, c, k) ==>
              Plays(inst, s, [b.request, c.request], AllRead(s, c.after, [At(b.before, j), At(c.before, k)]))
    ensures !Usable(inst, d, c, k) ==>
              Plays(inst, s, [b.request, c.request], Over(s, c.after, false, Some(Status.OtherError)))
  {
    var slot := At(b.before, j);
    var s1 := AllRead(s, b.after, [slot]);
    TokenPlays(inst, s, d, t, b, j, slot);
    BundlePlays(inst, s1, d, t, slot, c, k);
    OverRead(s, b.after, [slot], c.after, Some(Status.OtherError));
    if Usable(inst, d, c, k) {
      TwoPlay(inst, s, b, s1, c, AllRead(s, c.after, [slot, At(c.before, k)]));
    } else {
      TwoPlay(inst, s, b, s1, c, Over(s, c.after, false, Some(Status.OtherError)));
    }
  }

  /** How reading the inputs leaves the machine: with what it has `seen`, ready to apply; or with the item over. */
  ghost predicate InputsSeen(inst: Instance, s: Sys, d: Desired, rs: seq<Request>, seen: seq<Slot>, token: string, ca: string,
                             err: Option<Ending>, store: Store)
    requires s.run.Working?
  {
    if err.Some? then Plays(inst, s, rs, Over(s, store, false, err))
    else Plays(inst, s, rs, AllRead(s, store, seen)) && ReadyToApply(inst, d, seen, token, ca)
  }

  lemma TokenMissing(inst: Instance, s: Sys, d: Desired, t: Item, c: Exchange, k: Key, token: string, ca: string)
    requires t == ApplyDeployment && AtWork(inst, s, d, t, []) && Happened(inst, c) && c.before == s.store
    requires k == Key(Secret, d.proxy.tokenName) && Gets(c, k) && !Found(c, k)
    ensures InputsSeen(inst, s, d, [c.request], [], token, ca, Some(Status.OtherError), c.after)
  {
    TokenOver(inst, s, d, t, c, k);
  }

  lemma TokenAlone(inst: Instance, s: Sys, d: Desired, t: Item, c: Exchange, k: Key, token: string)
    requires t == ApplyDeployment && AtWork(inst, s, d, t, []) && Happened(inst, c) && c.before == s.store
    requires k == Key(Secret, d.proxy.tokenName) && Gets(c, k) && Found(c, k) && d.proxy.caConfigMap == ""
    requires token == TextOf(Read(c, k).fields, Data(d.proxy.tokenKey))
    ensures InputsSeen(inst, s, d, [c.request], [At(c.before, k)], token, "", None, c.after)
  {
    TokenPlays(inst, s, d, t, c, k, At(c.before, k));
    TokenEnough(inst, d, [At(c.before, k)]);
  }

  lemma TokenAndBundle(inst: Instance, s: Sys, d: Desired, t: Item, b: Exchange, j: Key, c: Exchange, k: Key,
                       token: string, ca: string, err: Option<Ending>)
    requires t == ApplyDeployment && AtWork(inst, s, d, t, []) && Happened(inst, b) && b.before == s.store
    requires Happened(inst, c) && c.before == b.after && d.proxy.caConfigMap != ""
    requires j == Key(Secret, d.proxy.tokenName) && Gets(b, j) && Found(b, j)
    requires k == Key(ConfigMap, d.proxy.caConfigMap) && Gets(c, k)
    requires err == if Usable(inst, d, c, k) then None else Some(Status.OtherError)
    requires err == None ==> token == TextOf(Read(b, j).fields, Data(d.proxy.tokenKey)) && ca == TextOf(Read(c, k).fields, Data(d.proxy.caKey))
    ensures InputsSeen(inst, s, d, [b.request, c.request], [At(b.before, j), At(c.before, k)], token, ca, err, c.after)
  {
    BothPlay(inst, s, d, t, b, j, c, k);
    if err.None? { BundleFit(inst, d, [At(b.before, j), At(c.before, k)]); }
  }

  lemma InputsWithBundle(inst: Instance, d: Desired, cs: seq<Exchange>, j: Key, k: Key, token: string, ca: string, err: Option<Ending>)
    requires InputCalls(inst, d, cs, token, ca, err) && d.proxy.caConfigMap != ""
    requires j == Key(Secret, d.proxy.tokenName) && Found(cs[0], j) && k == Key(ConfigMap, d.proxy.caConfigMap)
    ensures |cs| == 2 && Gets(cs[0], j) && Gets(cs[1], k)
    ensures err == if Usable(inst, d, cs[1], k) then None else Some(Status.OtherError)
    ensures err == None ==>
              token == TextOf(Read(cs[0], j).fields, Data(d.proxy.tokenKey)) && ca == TextOf(Read(cs[1], k).fields, Data(d.proxy.caKey))
  {
  }

  lemma InputsAlone(inst: Instance, d: Desired, cs: seq<Exchange>, j: Key, token: string, ca: string, err: Option<Ending>)
    requires InputCalls(inst, d, cs, token, ca, err) && j == Key(Secret, d.proxy.tokenName)
    ensures cs != [] && Gets(cs[0], j)
    ensures !Found(cs[0], j) ==> |cs| == 1 && err == Some(Status.OtherError)
    ensures Found(cs[0], j) && d.proxy.caConfigMap == "" ==>
              |cs| == 1 && err == None && token == TextOf(Read(cs[0], j).fields, Data(d.proxy.tokenKey)) && ca == ""
  {
  }

  /** The calls that read the inputs are those of a run. */
  lemma InputsPlay(inst: Instance, s: Sys, d: Desired, t: Item, cs: seq<Exchange>, token: string, ca: string,
                   err: Option<Ending>, store: Store) returns (seen: seq<Slot>)
    requires t == ApplyDeployment && AtWork(inst, s, d, t, []) && Leads(inst, s.store, cs, store)
    requires InputCalls(inst, d, cs, token, ca, err)
    ensures InputsSeen(inst, s, d, Requests(cs), seen, token, ca, err, store)
  {
    var j := Key(Secret, d.proxy.tokenName);
    InputsAlone(inst, d, cs, j, token, ca, err);
    if !Found(cs[0], j) {
      seen := [];
      RequestsOne(cs);
      TokenMissing(inst, s, d, t, cs[0], j, token, ca);
    } else if d.proxy.caConfigMap == "" {
      seen := [At(cs[0].before, j)];
      RequestsOne(cs);
      TokenAlone(inst, s, d, t, cs[0], j, token);
    } else {
      seen := InputsInTwo(inst, s, d, t, cs, j, token, ca, err, store);
    }
  }

  lemma InputsInTwo(inst: Instance, s: Sys, d: Desired, t: Item, cs: seq<Exchange>, j: Key, token: string, ca: string,
                    err: Option<Ending>, store: Store) returns (seen: seq<Slot>)
    requires t == ApplyDeployment && AtWork(inst, s, d, t, [])
    requires Leads(inst, s.store, cs, store) && d.proxy.caConfigMap != ""
    requires InputCalls(inst, d, cs, token, ca, err) && j == Key(Secret, d.proxy.tokenName) && Found(cs[0], j)
    ensures InputsSeen(inst, s, d, Requests(cs), seen, token, ca, err, store)
  {
    var k := Key(ConfigMap, d.proxy.caConfigMap);
    InputsWithBundle(inst, d, cs, j, k, token, ca, err);
    seen := [At(cs[0].before, j), At(cs[1].before, k)];
    RequestsTwo(inst, cs);
    TokenAndBundle(inst, s, d, t, cs[0], j, cs[1], k, token, ca, err);
  }

  /** A stretch of requests in two parts. */
  lemma LeadsSplit(inst: Instance, store: Store, cs: seq<Exchange>, n: nat, store': Store) returns (mid: Store)
    requires Leads(inst, store, cs, store') && n <= |cs|
    ensures Leads(inst, store, cs[..n], mid) && Leads(inst, mid, cs[n..], store')
    ensures Requests(cs) == Requests(cs[..n]) + Requests(cs[n..])
  {
    mid := if n == 0 then store else cs[n - 1].after;
    assert cs == cs[..n] + cs[n..];
    LinkedSince(inst, cs, cs[..n], cs[n..]);
    forall i | 0 < i < n
      ensures Joined(cs[..n], i)
    {
      assert Joined(cs, i);
    }
  }

  lemma ReadyIsPrescribed(inst: Instance, d: Desired, seen: seq<Slot>, token: string, ca: string, a: Action)
    requires ReadyToApply(inst, d, seen, token, ca)
    requires a == Patch(WriteKey(d.name, ApplyDeployment), WorkloadPayload(d, ChecksumOf(d, token, ca)))
    ensures AlwaysPrescribed(inst, d, ApplyDeployment, seen, a)
  {
  }

  lemma DeploymentKey(name: string)
    ensures WriteKey(name, ApplyDeployment) == Key(Deployment, name + "")
  {
  }

  /** With the inputs in hand, the Deployment is applied. */
  lemma RollOutPlays(inst: Instance, s: Sys, d: Desired, t: Item, seen: seq<Slot>, token: string, ca: string,
                     cs: seq<Exchange>, err: Option<Ending>, store: Store)
    requires t == ApplyDeployment && AtWork(inst, s, d, t, seen) && ReadyToApply(inst, d, seen, token, ca)
    requires Leads(inst, s.store, cs, store) && DeploymentApply(inst.uid, d, token, ca, cs, err)
    ensures Plays(inst, s, Requests(cs), Over(s, store, false, err))
  {
    RequestsOne(cs);
    DeploymentKey(d.name);
    ReadyIsPrescribed(inst, d, seen, token, ca, cs[0].request.action);
    DeploymentApplied(inst, s, d, t, seen, cs[0], cs[0].request.action);
  }

  lemma DeploymentPlays(inst: Instance, s: Sys, d: Desired, t: Item, cs: seq<Exchange>, err: Option<Ending>, store: Store)
    requires t == ApplyDeployment && AtWork(inst, s, d, t, []) && Leads(inst, s.store, cs, store)
    requires DeploymentCalls(inst, d, cs, err)
    ensures Plays(inst, s, Requests(cs), Over(s, store, false, err))
  {
    var n: nat, token: string, ca: string, e: Option<Ending> :|
      && n <= |cs| && InputCalls(inst, d, cs[..n], token, ca, e)
      && (if e.Some? then n == |cs| && err == e else DeploymentApply(inst.uid, d, token, ca, cs[n..], err));
    var mid := LeadsSplit(inst, s.store, cs, n, store);
    var seen := InputsPlay(inst, s, d, t, cs[..n], token, ca, e, mid);
    if e.Some? {
      assert cs[..n] == cs && cs[n..] == [];
    } else {
      var s1 := AllRead(s, mid, seen);
      RollOutPlays(inst, s1, d, t, seen, token, ca, cs[n..], err, store);
      OverRead(s, mid, seen, store, err);
      PlaysThen(inst, s, Requests(cs[..n]), s1, Requests(cs[n..]), Over(s, store, false, err));
    }
  }

  // ---- Any item, and the plan ----

  lemma SeekCallsPlay(inst: Instance, s: Sys, d: Desired, t: Item, cs: seq<Exchange>, err: Option<Ending>, store: Store)
    requires RewritesUrls(inst) && AtWork(inst, s, d, t, [])
    requires !Applies(t) && !t.SeeLeftover? && Leads(inst, s.store, cs, store)
    requires SeekCalls(inst, d, t, cs, err)
    ensures Plays(inst, s, Requests(cs), Over(s, store, false, err))
  {
    if t.ApplyDeployment? {
      DeploymentPlays(inst, s, d, t, cs, err, store);
    } else {
      var k, a := SeekMatches(inst, d, t, cs, err);
      SeekPlays(inst, s, d, t, k, cs, a, err, store);
    }
  }

  lemma SeekMatches(inst: Instance, d: Desired, t: Item, cs: seq<Exchange>, err: Option<Ending>)
    returns (k: Key, a: Action)
    requires RewritesUrls(inst) && Seeks(t) && SeekCalls(inst, d, t, cs, err)
    ensures Matches(inst, d, t, k, cs, a, err)
  {
    k := ReadKey(d, t);
    if t.EnsureTLS? { a := TLSMatches(inst, d, k, cs, err); }
    else if t.EnsureDatabaseSecret? { a := DatabaseSecretMatches(inst, d, k, cs, err); }
    else if t.EnsureAbbenayToken? { a := AbbenayTokenMatches(inst, d, k, cs, err); }
    else if t.EnsureProxyToken? { a := ProxyTokenMatches(inst, d, k, cs, err); }
    else if Wants(t) { a := WantedRouteMatches(inst, d, t, k, cs, err); }
    else { a := UnwantedRouteMatches(inst, d, t, k, cs, err); }
  }

  /** The calls for an item are those of a run that does the item. */
  lemma ItemPlays(inst: Instance, s: Sys, d: Desired, t: Item, cs: seq<Exchange>, leftover: bool, err: Option<Ending>, store: Store)
    requires RewritesUrls(inst) && AtWork(inst, s, d, t, [])
    requires Leads(inst, s.store, cs, store) && ItemCalls(inst, d, t, cs, leftover, err)
    ensures Plays(inst, s, Requests(cs), Over(s, store, leftover, err))
  {
    if Applies(t) {
      ApplyPlays(inst, s, d, t, cs, err, store);
    } else if t.SeeLeftover? {
      LeftoverPlays(inst, s, d, t, cs, leftover, store);
    } else {
      SeekCallsPlay(inst, s, d, t, cs, err, store);
    }
  }

  /** The run when `n` items are over, or when one has failed. */
  function Onward(s: Sys, n: nat, store: Store, leftover: bool, err: Option<Ending>): Sys
    requires s.run.Working?
  {
    s.(store := store,
       run := if err.Some? then Failing(s.run, err.value)
              else Working(s.run.d, s.run.generation, s.run.plan, s.run.pc + n, [], leftover))
  }

  lemma OnwardOver(s: Sys, s1: Sys, n: nat, mid: Store, seen: bool, store: Store, leftover: bool, err: Option<Ending>)
    requires s.run.Working? && s1 == Over(s, mid, seen, None) && n > 0
    ensures s1.run == Working(s.run.d, s.run.generation, s.run.plan, s.run.pc + 1, [], s.run.leftover || seen) && s1.store == mid
    ensures Onward(s1, n - 1, store, leftover, err) == Onward(s, n, store, leftover, err)
  {
  }

  /** An account of single items under which their calls are those of runs. */
  ghost predicate Sound(inst: Instance, d: Desired, item: Account) {
    forall s: Sys, t: Item, cs: seq<Exchange>, seen: bool, e: Option<Ending>, store: Store ::
      AtWork(inst, s, d, t, []) && Leads(inst, s.store, cs, store) && item(t, cs, seen, e) ==>
        Plays(inst, s, Requests(cs), Over(s, store, seen, e))
  }

  lemma AccountsSound(inst: Instance, d: Desired)
    requires RewritesUrls(inst)
    ensures Sound(inst, d, Accounts(inst, d))
  {
    forall s: Sys, t: Item, cs: seq<Exchange>, seen: bool, e: Option<Ending>, store: Store
      | AtWork(inst, s, d, t, []) && Leads(inst, s.store, cs, store) && Accounts(inst, d)(t, cs, seen, e)
      ensures Plays(inst, s, Requests(cs), Over(s, store, seen, e))
    {
      ItemPlays(inst, s, d, t, cs, seen, e, store);
    }
  }

  lemma BySoundness(inst: Instance, d: Desired, item: Account, s: Sys, t: Item, cs: seq<Exchange>, seen: bool,
                    e: Option<Ending>, store: Store)
    requires Sound(inst, d, item) && AtWork(inst, s, d, t, []) && Leads(inst, s.store, cs, store) && item(t, cs, seen, e)
    ensures Plays(inst, s, Requests(cs), Over(s, store, seen, e))
  {
  }

  /** The items `ts` come next, and `cs` are the calls for them. */
  ghost predicate Accounted(inst: Instance, d: Desired, item: Account, s: Sys, ts: seq<Item>, cs: seq<Exchange>, l: bool,
                            err: Option<Ending>, store: Store) {
    && s.run.Working? && s.run.d == d && s.run.seen == [] && Ahead(s.run.plan, s.run.pc, ts)
    && Leads(inst, s.store, cs, store) && InOrder(item, ts, cs, s.run.leftover, l, err)
  }

  /** An item done, and what is left of the stretch. */
  lemma GoesOn(inst: Instance, d: Desired, item: Account, s: Sys, ts: seq<Item>, cs: seq<Exchange>, l: bool,
               err: Option<Ending>, store: Store, seen: bool, mid: Store, rest: seq<Exchange>) returns (s1: Sys)
    requires Accounted(inst, d, item, s, ts, cs, l, err, store) && ts != []
    requires Leads(inst, mid, rest, store) && InOrder(item, ts[1..], rest, s.run.leftover || seen, l, err)
    ensures s1 == Over(s, mid, seen, None) && Accounted(inst, d, item, s1, ts[1..], rest, l, err, store)
    ensures Onward(s1, |ts| - 1, store, l, err) == Onward(s, |ts|, store, l, err)
  {
    s1 := Over(s, mid, seen, None);
    AheadRest(s.run.plan, s.run.pc, ts);
    OnwardOver(s, s1, |ts|, mid, seen, store, l, err);
  }

  lemma BrokenOff(s: Sys, store: Store, seen: bool, n: nat, l: bool, err: Option<Ending>)
    requires s.run.Working? && err.Some?
    ensures Over(s, store, seen, err) == Onward(s, n, store, l, err)
  {
  }

  /** The first item of a stretch: either it breaks off, or `s1` is where the rest begins. */
  lemma FirstPlays(inst: Instance, d: Desired, item: Account, s: Sys, ts: seq<Item>, cs: seq<Exchange>, l: bool,
                   err: Option<Ending>, store: Store) returns (n: nat, broken: bool, s1: Sys)
    requires Sound(inst, d, item) && Accounted(inst, d, item, s, ts, cs, l, err, store) && ts != []
    ensures n <= |cs| && Requests(cs) == Requests(cs[..n]) + Requests(cs[n..]) && Plays(inst, s, Requests(cs[..n]), s1)
    ensures broken ==> n == |cs| && s1 == Onward(s, |ts|, store, l, err)
    ensures !broken ==> Accounted(inst, d, item, s1, ts[1..], cs[n..], l, err, store)
                        && Onward(s1, |ts| - 1, store, l, err) == Onward(s, |ts|, store, l, err)
  {
    AheadRest(s.run.plan, s.run.pc, ts);
    var k, seen, e := OrderHead(item, ts, cs, s.run.leftover, l, err);
    var mid := LeadsSplit(inst, s.store, cs, k, store);
    n, broken, s1 := k, e.Some?, Over(s, mid, seen, e);
    BySoundness(inst, d, item, s, ts[0], cs[..n], seen, e, mid);
    if broken {
      BrokenOff(s, mid, seen, |ts|, l, err);
      assert cs[n..] == [];
    } else {
      s1 := GoesOn(inst, d, item, s, ts, cs, l, err, store, seen, mid, cs[n..]);
    }
  }

  lemma {:induction false} StretchPlays(inst: Instance, d: Desired, item: Account, s: Sys, ts: seq<Item>, cs: seq<Exchange>, l: bool,
                                       err: Option<Ending>, store: Store)
    requires Sound(inst, d, item) && Accounted(inst, d, item, s, ts, cs, l, err, store)
    ensures Plays(inst, s, Requests(cs), Onward(s, |ts|, store, l, err))
    decreases |ts|
  {
    if ts == [] {
      PlaysNothing(inst, s);
      assert Requests(cs) == [];
    } else {
      var n, broken, s1 := FirstPlays(inst, d, item, s, ts, cs, l, err, store);
      if broken {
        assert cs[..n] == cs;
      } else {
        StretchPlays(inst, d, item, s1, ts[1..], cs[n..], l, err, store);
        PlaysThen(inst, s, Requests(cs[..n]), s1, Requests(cs[n..]), Onward(s, |ts|, store, l, err));
      }
    }
  }

  /** The calls of ensureAll are those of a run that does the plan, up to the first error. */
  lemma PlanPlays(inst: Instance, s: Sys, cs: seq<Exchange>, l: bool, err: Option<Ending>, store: Store)
    requires RewritesUrls(inst) && s.run.Working? && s.run.pc == 0 && s.run.seen == [] && !s.run.leftover
    requires Leads(inst, s.store, cs, store) && PlanCalls(inst, s.run.d, s.run.plan, cs, false, l, err)
    ensures Plays(inst, s, Requests(cs), Onward(s, |s.run.plan|, store, l, err))
  {
    AccountsSound(inst, s.run.d);
    StretchPlays(inst, s.run.d, Accounts(inst, s.run.d), s, s.run.plan, cs, l, err, store);
  }

  // ---- patchStatus ----

  lemma ReportLookPlays(inst: Instance, s: Sys, c: Exchange, k: Key, slot: Slot)
    requires s.run.Reporting? && |s.run.seen| < |ReportKeys(inst, s.run.d)|
    requires k == ReportKeys(inst, s.run.d)[|s.run.seen|]
    requires Happened(inst, c) && c.before == s.store && Gets(c, k)
    requires slot == if c.input.fault == NoFault then At(c.before, k) else EMPTY
    ensures Plays(inst, s, [c.request], Looking(s, s.run.seen + [slot]).(store := c.after))
  {
    var s1 := Looking(s, s.run.seen + [slot]);
    PlaysOne(inst, s, Operate(c.input), [c.request], s1);
    OthersPlay(inst, s1, c.after);
    PlaysThenNothing(inst, s, [c.request], s1, s1.(store := c.after));
  }

  lemma LooksFront(keys: seq<Key>, cs: seq<Exchange>, front: seq<Exchange>, c: Exchange, n: nat)
    requires cs == front + [c] && n == |front| < |keys| && LookCalls(keys[..n + 1], cs)
    ensures LookCalls(keys[..n], front) && Gets(c, keys[n])
    ensures Findings(keys[..n + 1], cs)
         == Findings(keys[..n], front) + [if c.input.fault == NoFault then At(c.before, keys[n]) else EMPTY]
  {
    assert cs[n] == c && keys[..n + 1][n] == keys[n];
    assert forall i :: 0 <= i < n ==> cs[i] == front[i] && keys[..n + 1][i] == keys[..n][i];
  }

  /** The last of some requests. */
  lemma LeadsLast(inst: Instance, store: Store, cs: seq<Exchange>, store': Store)
    returns (front: seq<Exchange>, c: Exchange)
    requires Leads(inst, store, cs, store') && cs != []
    ensures cs == front + [c] && Leads(inst, store, front, c.before) && Happened(inst, c) && c.after == store'
    ensures Requests(cs) == Requests(front) + [c.request]
  {
    front, c := cs[..|cs| - 1], cs[|cs| - 1];
    var mid := LeadsSplit(inst, store, cs, |cs| - 1, store');
    assert cs[|cs| - 1..] == [c];
  }

  lemma {:induction false} LooksPlay(inst: Instance, s: Sys, keys: seq<Key>, cs: seq<Exchange>, store: Store)
    requires s.run.Reporting? && s.run.seen == [] && keys == ReportKeys(inst, s.run.d) && |cs| <= |keys|
    requires Leads(inst, s.store, cs, store) && LookCalls(keys[..|cs|], cs)
    ensures Plays(inst, s, Requests(cs), Looking(s, Findings(keys[..|cs|], cs)).(store := store))
    decreases |cs|
  {
    if cs == [] {
      PlaysNothing(inst, s);
      assert Requests(cs) == [] && Findings(keys[..0], cs) == [];
    } else {
      var front, c := LeadsLast(inst, s.store, cs, store);
      LooksFront(keys, cs, front, c, |front|);
      LooksPlay(inst, s, keys, front, c.before);
      LastLookPlays(inst, s, keys, Findings(keys[..|front|], front), c, keys[|front|], c.before, Requests(front));
    }
  }

  lemma LastLookPlays(inst: Instance, s: Sys, keys: seq<Key>, seen: seq<Slot>, c: Exchange, k: Key, store: Store, rs: seq<Request>)
    requires s.run.Reporting? && keys == ReportKeys(inst, s.run.d) && |seen| < |keys| && k == keys[|seen|]
    requires Happened(inst, c) && c.before == store && Gets(c, k) && Plays(inst, s, rs, Looking(s, seen).(store := store))
    ensures var slot := if c.input.fault == NoFault then At(c.before, k) else EMPTY;
            Plays(inst, s, rs + [c.request], Looking(s, seen + [slot]).(store := c.after))
  {
    var s1 := Looking(s, seen).(store := store);
    var slot := if c.input.fault == NoFault then At(c.before, k) else EMPTY;
    ReportLookPlays(inst, s1, c, k, slot);
    PlaysThen(inst, s, rs, s1, [c.request], Looking(s, seen + [slot]).(store := c.after));
  }

  /** What is reported after a reconcile of intent `d` that ended so, from the looks and the request that reports it. */
  function ReportOf(inst: Instance, d: Desired, generation: nat, leftover: bool, ending: Ending, looks: seq<Slot>, i: Input): Report
    requires |looks| == |ReportKeys(inst, d)|
  {
    Report(d, generation, leftover, ending, Observe(inst, d, looks, i.imagePull), i.now)
  }

  /** The report `r` was patched in with `i`, unless refused. */
  function Stated(s: Sys, store: Store, r: Report, i: Input): Sys {
    if i.fault.Refused? then s.(store := store, run := Idle)
    else s.(store := store, run := Idle, status := Apply(s.status, r), reports := s.reports + [r])
  }

  lemma StatusPlays(inst: Instance, s: Sys, looks: seq<Slot>, c: Exchange, r: Report)
    requires s.run.Reporting? && s.run.seen == looks && |looks| == |ReportKeys(inst, s.run.d)|
    requires Happened(inst, c) && c.before == s.store && c.request == PatchStatus(Apply(s.status, r))
    requires r == ReportOf(inst, s.run.d, s.run.generation, s.run.leftover, s.run.ending, looks, c.input)
    ensures Plays(inst, s, [c.request], Stated(s, c.after, r, c.input))
  {
    var s1 := Stated(s, s.store, r, c.input);
    PlaysOne(inst, s, Operate(c.input), [c.request], s1);
    OthersPlay(inst, s1, c.after);
    PlaysThenNothing(inst, s, [c.request], s1, Stated(s, c.after, r, c.input));
  }

  /** patchStatus: the looks and the patch. */
  lemma ReportPlays(inst: Instance, s: Sys, keys: seq<Key>, cs: seq<Exchange>, c: Exchange, r: Report, store: Store)
    requires s.run.Reporting? && s.run.seen == [] && keys == ReportKeys(inst, s.run.d)
    requires Leads(inst, s.store, cs, store) && LookCalls(keys, cs)
    requires Happened(inst, c) && c.before == store && c.request == PatchStatus(Apply(s.status, r))
    requires r == ReportOf(inst, s.run.d, s.run.generation, s.run.leftover, s.run.ending, Findings(keys, cs), c.input)
    ensures Plays(inst, s, Requests(cs) + [c.request], Stated(s, c.after, r, c.input))
  {
    var looks := Findings(keys, cs);
    assert keys[..|keys|] == keys;
    LooksPlay(inst, s, keys, cs, store);
    var s1 := Looking(s, looks).(store := store);
    StatusPlays(inst, s1, looks, c, r);
    PlaysThen(inst, s, Requests(cs), s1, [c.request], Stated(s, c.after, r, c.input));
  }

  // ---- Reconcile ----

  /** The intent is resolved and the plan begins. */
  lemma BeginPlays(inst: Instance, s: Sys, c: Exchange)
    requires s.run.Idle? && Happened(inst, c) && c.before == s.store && c.request == ReadResource
    ensures Plays(inst, s, [c.request], BeginStep(inst, s).(store := c.after))
  {
    var s1 := BeginStep(inst, s);
    PlaysOne(inst, s, Begin, [c.request], s1);
    OthersPlay(inst, s1, c.after);
    PlaysThenNothing(inst, s, [c.request], s1, s1.(store := c.after));
  }

  function EndOf(err: Option<Ending>): Ending { if err.Some? then err.value else Status.Fine }

  /** ensureAll has returned. */
  function Worked(s: Sys, d: Desired, store: Store, leftover: bool, err: Option<Ending>): Sys {
    s.(store := store, run := Reporting(d, s.generation, err.None? && leftover, EndOf(err), []),
       finished := if err.None? then s.finished + [(s.generation, leftover)] else s.finished)
  }

  lemma WorkDone(inst: Instance, s: Sys, store: Store, leftover: bool, i: Input)
    requires s.run.Working? && s.run.pc == 0 && s.generation == s.run.generation && Drawn(i.material)
    ensures Plays(inst, Onward(s, |s.run.plan|, store, leftover, None), [], Worked(s, s.run.d, store, leftover, None))
  {
    var s1 := Onward(s, |s.run.plan|, store, leftover, None);
    PlaysOne(inst, s1, Operate(i), [], Worked(s, s.run.d, store, leftover, None));
  }

  /** ensureAll, to its end or its error. */
  lemma EnsureAllPlays(inst: Instance, s: Sys, cs: seq<Exchange>, l: bool, err: Option<Ending>, store: Store, i: Input)
    requires RewritesUrls(inst) && s.run.Working? && s.run.pc == 0
    requires s.run.seen == [] && !s.run.leftover && s.generation == s.run.generation
    requires Leads(inst, s.store, cs, store)
    requires PlanCalls(inst, s.run.d, s.run.plan, cs, false, l, err) && Drawn(i.material)
    ensures Plays(inst, s, Requests(cs), Worked(s, s.run.d, store, l, err))
  {
    PlanPlays(inst, s, cs, l, err, store);
    if err.None? {
      WorkDone(inst, s, store, l, i);
      PlaysThenNothing(inst, s, Requests(cs), Onward(s, |s.run.plan|, store, l, None), Worked(s, s.run.d, store, l, None));
    }
  }

  /** What a reconcile of state `s` asked and left: the resource was read, then came the calls of ensureAll, the looks of
      patchStatus, and the patch of the status that follows from them. */
  ghost predicate Reconciled(inst: Instance, s: Sys, read: Exchange, work: seq<Exchange>, looks: seq<Exchange>, patch: Exchange,
                             l: bool, err: Option<Ending>, s': Sys) {
    var d := IntentOf(inst, s.spec);
    var keys := ReportKeys(inst, d);
    && read.request == ReadResource && PlanCalls(inst, d, Items(inst, d), work, false, l, err) && LookCalls(keys, looks)
    && var r := ReportOf(inst, d, s.generation, err.None? && l, EndOf(err), Findings(keys, looks), patch.input);
       patch.request == PatchStatus(Apply(s.status, r)) && s' == Stated(Worked(s, d, s.store, l, err), patch.after, r, patch.input)
  }

  /** All it asked. */
  function AllOf(read: Exchange, work: seq<Exchange>, looks: seq<Exchange>, patch: Exchange): seq<Exchange> {
    [read] + (work + (looks + [patch]))
  }

  lemma StatedOf(s: Sys, d: Desired, store: Store, l: bool, err: Option<Ending>, after: Store, r: Report, i: Input)
    ensures Stated(Worked(s, d, store, l, err), after, r, i) == Stated(Worked(s, d, s.store, l, err), after, r, i)
  {
  }

  /** From the read of the resource to the end of ensureAll. */
  lemma WorkPlays(inst: Instance, s: Sys, d: Desired, read: Exchange, work: seq<Exchange>, l: bool, err: Option<Ending>, mid: Store)
    requires RewritesUrls(inst) && s.run.Idle? && Happened(inst, read)
    requires read.before == s.store && read.request == ReadResource
    requires d == IntentOf(inst, s.spec)
    requires PlanCalls(inst, d, Items(inst, d), work, false, l, err) && Leads(inst, read.after, work, mid)
    ensures Plays(inst, s, [read.request] + Requests(work), Worked(s, d, mid, l, err))
  {
    var s1 := BeginStep(inst, s).(store := read.after);
    BeginPlays(inst, s, read);
    EnsureAllPlays(inst, s1, work, l, err, mid, read.input);
    PlaysThen(inst, s, [read.request], s1, Requests(work), Worked(s, d, mid, l, err));
  }

  lemma AllRequests(read: Exchange, work: seq<Exchange>, looks: seq<Exchange>, patch: Exchange)
    ensures Requests(AllOf(read, work, looks, patch)) == [read.request] + Requests(work) + (Requests(looks) + [patch.request])
  {
  }

  lemma AllLead(inst: Instance, store: Store, read: Exchange, work: seq<Exchange>, looks: seq<Exchange>, patch: Exchange, store': Store)
    returns (mid: Store)
    requires Leads(inst, store, AllOf(read, work, looks, patch), store')
    ensures Happened(inst, read) && read.before == store && Leads(inst, read.after, work, mid)
    ensures Leads(inst, mid, looks, patch.before) && Happened(inst, patch) && patch.after == store'
  {
    var cs, rest := AllOf(read, work, looks, patch), work + (looks + [patch]);
    assert cs[1..] == rest && cs[..1] == [read];
    var m := LeadsSplit(inst, store, cs, 1, store');
    assert rest[..|work|] == work && rest[|work|..] == looks + [patch];
    mid := LeadsSplit(inst, m, rest, |work|, store');
    var last := looks + [patch];
    assert last[..|looks|] == looks && last[|looks|..] == [patch];
    var m' := LeadsSplit(inst, mid, last, |looks|, store');
  }

  /** A reconcile of the controller is a run of the machine that asks for the same, in the same order, and leaves the
      same. */
  lemma ReconcilePlays(inst: Instance, s: Sys, read: Exchange, work: seq<Exchange>, looks: seq<Exchange>, patch: Exchange,
                       l: bool, err: Option<Ending>, s': Sys)
    requires RewritesUrls(inst) && s.run.Idle? && Reconciled(inst, s, read, work, looks, patch, l, err, s')
    requires Leads(inst, s.store, AllOf(read, work, looks, patch), patch.after)
    ensures Plays(inst, s, Requests(AllOf(read, work, looks, patch)), s')
  {
    var d := IntentOf(inst, s.spec);
    var keys := ReportKeys(inst, d);
    var r := ReportOf(inst, d, s.generation, err.None? && l, EndOf(err), Findings(keys, looks), patch.input);
    var mid := AllLead(inst, s.store, read, work, looks, patch, patch.after);
    var s1 := Worked(s, d, mid, l, err);
    WorkPlays(inst, s, d, read, work, l, err, mid);
    ReportPlays(inst, s1, keys, looks, patch, r, patch.before);
    StatedOf(s, d, mid, l, err, patch.after, r, patch.input);
    PlaysThen(inst, s, [read.request] + Requests(work), s1, Requests(looks) + [patch.request], s');
    AllRequests(read, work, looks, patch);
  }

  // ---- A whole reconcile ----

  /** The state of the machine after the requests of a reconcile. */
  ghost function Concluded(inst: Instance, s: Sys, d: Desired, work: seq<Exchange>, looks: seq<Exchange>, patch: Exchange,
                           l: bool, err: Option<Ending>): Sys
    requires LookCalls(ReportKeys(inst, d), looks)
  {
    var r := ReportOf(inst, d, s.generation, err.None? && l, EndOf(err), Findings(ReportKeys(inst, d), looks), patch.input);
    Stated(Worked(s, d, s.store, l, err), patch.after, r, patch.input)
  }

  /** What a reconcile that could read its resource asked, and how it ended: without an error exactly when the whole plan was
      done and the status patched. */
  ghost predicate Ran(inst: Instance, s: Sys, made: seq<Exchange>, ok: bool, s': Sys) {
    exists read, work, looks, patch, l, err ::
      && made == AllOf(read, work, looks, patch) && Reconciled(inst, s, read, work, looks, patch, l, err, s')
      && (ok <==> err.None? && patch.input.fault == NoFault)
  }

  /** A reconcile without an error has just recorded the success of its generation, and a report that says so. */
  lemma SuccessIsRecorded(inst: Instance, s: Sys, made: seq<Exchange>, s': Sys) returns (l: bool, r: Report)
    requires Ran(inst, s, made, true, s')
    ensures s'.finished == s.finished + [(s.generation, l)] && s'.reports == s.reports + [r]
    ensures r.ending == Status.Fine && r.leftover == l && r.generation == s.generation && s'.status == Apply(s.status, r)
  {
    var read, work, looks, patch, l', err :|
      && made == AllOf(read, work, looks, patch) && Reconciled(inst, s, read, work, looks, patch, l', err, s')
      && (true <==> err.None? && patch.input.fault == NoFault);
    l := l';
    var d := IntentOf(inst, s.spec);
    r := ReportOf(inst, d, s.generation, l, Status.Fine, Findings(ReportKeys(inst, d), looks), patch.input);
  }

  lemma ReadRefused(inst: Instance, s: Sys, read: Exchange)
    requires Reachable(inst, s) && Happened(inst, read) && read.request == ReadResource && read.before == s.store
    ensures Reachable(inst, s.(store := read.after))
  {
    OthersPlay(inst, s, read.after);
    PlaysReachable(inst, s, [], s.(store := read.after));
  }

  /** The log since the read, as a stretch of requests. */
  lemma SinceRead(inst: Instance, log0: seq<Exchange>, read: Exchange, rest: seq<Exchange>, store: Store)
    requires log0 != [] && log0[|log0| - 1] == read && Recorded(inst, log0 + rest, store)
    ensures Leads(inst, read.before, [read] + rest, store)
  {
    var before, whole := log0[..|log0| - 1], log0 + rest;
    RecordedLinked(inst, whole, store);
    assert log0 == before + [read];
    Regroup(before, [read], rest);
    LinkedSince(inst, whole, before, [read] + rest);
    LastOf(log0, read, rest);
  }

  lemma LastOf<T>(log0: seq<T>, read: T, rest: seq<T>)
    requires log0 != [] && log0[|log0| - 1] == read
    ensures (log0 + rest)[|log0 + rest| - 1] == ([read] + rest)[|[read] + rest| - 1]
  {
  }

  /** What a reconcile leaves besides the store. */
  lemma LeftBy(inst: Instance, s: Sys, read: Exchange, work: seq<Exchange>, looks: seq<Exchange>, patch: Exchange,
               l: bool, err: Option<Ending>, s': Sys)
    requires Reconciled(inst, s, read, work, looks, patch, l, err, s')
    ensures s'.run.Idle? && s'.store == patch.after && s'.spec == s.spec && s'.generation == s.generation
  {
  }

  lemma RanSo(inst: Instance, s: Sys, read: Exchange, work: seq<Exchange>, looks: seq<Exchange>, patch: Exchange,
              l: bool, err: Option<Ending>, ok: bool, s': Sys, made: seq<Exchange>)
    requires Reconciled(inst, s, read, work, looks, patch, l, err, s') && (ok <==> err.None? && patch.input.fault == NoFault)
    requires made == AllOf(read, work, looks, patch)
    ensures Ran(inst, s, made, ok, s')
  {
  }

  lemma RunSo(inst: Instance, s: Sys, store: Store, read: Exchange, work: seq<Exchange>, looks: seq<Exchange>, patch: Exchange,
              l: bool, err: Option<Ending>, s': Sys, made: seq<Exchange>)
    requires RewritesUrls(inst) && Reachable(inst, s) && s.run.Idle? && made == AllOf(read, work, looks, patch)
    requires Leads(inst, s.store, made, store) && patch.after == store
    requires Reconciled(inst, s, read, work, looks, patch, l, err, s')
    ensures Plays(inst, s, Requests(made), s') && Reachable(inst, s')
  {
    ReconcilePlays(inst, s, read, work, looks, patch, l, err, s');
    PlaysReachable(inst, s, Requests(made), s');
  }

  lemma Conclude(inst: Instance, s: Sys, log0: seq<Exchange>, log: seq<Exchange>, store: Store, read: Exchange,
                 work: seq<Exchange>, looks: seq<Exchange>, patch: Exchange, l: bool, err: Option<Ending>, s': Sys,
                 rest: seq<Exchange>, ok: bool)
    requires RewritesUrls(inst) && Reachable(inst, s) && s.run.Idle? && Recorded(inst, log, store)
    requires rest == work + (looks + [patch]) && log == log0 + rest && log0 != [] && log0[|log0| - 1] == read
    requires read.before == s.store && patch.after == store && Reconciled(inst, s, read, work, looks, patch, l, err, s')
    requires ok <==> err.None? && patch.input.fault == NoFault
    ensures Plays(inst, s, Requests([read] + rest), s') && Reachable(inst, s') && Ran(inst, s, [read] + rest, ok, s')
    ensures s'.run.Idle? && s'.store == store && s'.spec == s.spec && s'.generation == s.generation
  {
    SinceRead(inst, log0, read, rest, store);
    RunSo(inst, s, store, read, work, looks, patch, l, err, s', [read] + rest);
    RanSo(inst, s, read, work, looks, patch, l, err, ok, s', [read] + rest);
    LeftBy(inst, s, read, work, looks, patch, l, err, s');
  }
}
